// Payment notifications: each provider event takes effect at most once, however often it is delivered, and an
// event whose target is unknown is rolled back without being used up. Signatures have been checked already.

module Webhook {
  import opened Options
  import opened BookingStatus
  import opened Finance

  type EventId = string

  datatype Team = Team(due: int, paid: int)

  /** What staff recordTeamPayment has read and decided, before it writes. */
  datatype Quote = Quote(team: nat, amount: int)

  datatype Delivery =
    | BookingPaid(id: EventId, booking: nat, amount: int)
    | FeePaid(id: EventId, team: nat, amount: int)

  datatype Gateway = Gateway(events: set<EventId>, books: Books, teams: seq<Team>, quotes: map<nat, Quote>)

  /** Deliveries, and everything else that touches the same rows. recordTeamPayment is two statements without a
      transaction, so it is two actions. */
  datatype Action =
    | Deliver(delivery: Delivery)
    | Office(event: Event)
    | RegisterTeam(due: int)
    | StaffQuote(quote: nat, team: nat, amount: Option<int>)
    | StaffPay(quote: nat)

  function Remaining(t: Team): int {
    NonNegative(t.due - t.paid)
  }

  /** The booking exists and is not deleted, or the team exists. */
  predicate TargetKnown(g: Gateway, d: Delivery) {
    match d
    case BookingPaid(_, b, _) => b < |g.books.accounts| && !g.books.accounts[b].deleted
    case FeePaid(_, t, _) => t < |g.teams|
  }

  /** Online fee payments are credited only when they cover the whole remaining fee, and only for that. */
  function FeeCredited(t: Team, amount: int): Team {
    if Remaining(t) <= 0 || amount < Remaining(t) then t else t.(paid := t.paid + Remaining(t))
  }

  function Effect(g: Gateway, d: Delivery): Gateway
    requires TargetKnown(g, d)
  {
    match d
    case BookingPaid(_, b, amount) => g.(books := Step(g.books, OnlinePayment(b, amount)))
    case FeePaid(_, t, amount) => g.(teams := g.teams[t := FeeCredited(g.teams[t], amount)])
  }

  function Delivered(g: Gateway, d: Delivery): Gateway {
    if d.id in g.events || !TargetKnown(g, d) then g else Effect(g, d).(events := g.events + {d.id})
  }

  function Next(g: Gateway, a: Action): Gateway {
    match a
    case Deliver(d) => Delivered(g, d)
    case Office(e) => if e.OnlinePayment? then g else g.(books := Step(g.books, e))
    case RegisterTeam(due) => if due < 0 then g else g.(teams := g.teams + [Team(due, 0)])
    case StaffQuote(q, t, amount) =>
      if q in g.quotes || t >= |g.teams| || Remaining(g.teams[t]) <= 0 || (amount.Some? && amount.value <= 0) then g
      else
        var remaining := Remaining(g.teams[t]);
        g.(quotes := g.quotes[q := Quote(t, if amount.Some? && amount.value < remaining then amount.value else remaining)])
    case StaffPay(q) =>
      if q !in g.quotes then g
      else
        var quote := g.quotes[q];
        g.(quotes := g.quotes - {q},
           teams := if quote.team < |g.teams|
                    then g.teams[quote.team := g.teams[quote.team].(paid := g.teams[quote.team].paid + quote.amount)]
                    else g.teams)
  }

  function Run(g: Gateway, actions: seq<Action>): Gateway
    decreases |actions|
  {
    if actions == [] then g else Run(Next(g, actions[0]), actions[1..])
  }

  // ---- Exactly once ----

  /** The stream without the deliveries whose event had already been committed. */
  function Erase(g: Gateway, actions: seq<Action>): seq<Action>
    decreases |actions|
  {
    if actions == [] then []
    else if actions[0].Deliver? && actions[0].delivery.id in g.events then Erase(g, actions[1..])
    else [actions[0]] + Erase(Next(g, actions[0]), actions[1..])
  }

  /** How often an event takes effect. */
  function Commits(g: Gateway, actions: seq<Action>, id: EventId): nat
    decreases |actions|
  {
    if actions == [] then 0 else
      var g' := Next(g, actions[0]);
      (if id in g'.events && id !in g.events then 1 else 0) + Commits(g', actions[1..], id)
  }

  lemma EventsOnlyGrow(g: Gateway, a: Action)
    ensures g.events <= Next(g, a).events
    ensures forall id :: id in Next(g, a).events && id !in g.events ==>
      a.Deliver? && a.delivery.id == id && TargetKnown(g, a.delivery)
  {
  }

  /** A stream with duplicates ends exactly where the stream without them does. */
  lemma {:induction false} DuplicatesChangeNothing(g: Gateway, actions: seq<Action>)
    ensures Run(g, Erase(g, actions)) == Run(g, actions)
    decreases |actions|
  {
    if actions != [] {
      var a := actions[0];
      if a.Deliver? && a.delivery.id in g.events {
        DuplicatesChangeNothing(g, actions[1..]);
      } else {
        DuplicatesChangeNothing(Next(g, a), actions[1..]);
        var erased := Erase(Next(g, a), actions[1..]);
        assert ([a] + erased)[1..] == erased;
      }
    }
  }

  /** Each event takes effect at most once, and it has been used up exactly if it took effect. */
  lemma {:induction false} EachEventCommitsOnce(g: Gateway, actions: seq<Action>, id: EventId)
    ensures Commits(g, actions, id) == if id in Run(g, actions).events && id !in g.events then 1 else 0
    ensures id in g.events ==> id in Run(g, actions).events
    decreases |actions|
  {
    if actions != [] {
      EventsOnlyGrow(g, actions[0]);
      EachEventCommitsOnce(Next(g, actions[0]), actions[1..], id);
    }
  }

  /** Does some delivery of the event reach a known target? */
  predicate FindsItsTarget(g: Gateway, actions: seq<Action>, id: EventId)
    decreases |actions|
  {
    actions != [] &&
    ((actions[0].Deliver? && actions[0].delivery.id == id && TargetKnown(g, actions[0].delivery)) ||
     FindsItsTarget(Next(g, actions[0]), actions[1..], id))
  }

  /** A rolled-back delivery does not use the event up: a new event takes effect, once, if and only if
      some delivery of it, first or repeated, finds its target. */
  lemma {:induction false} EffectIffTargetFound(g: Gateway, actions: seq<Action>, id: EventId)
    requires id !in g.events
    ensures Commits(g, actions, id) == if FindsItsTarget(g, actions, id) then 1 else 0
    decreases |actions|
  {
    if actions != [] {
      var g' := Next(g, actions[0]);
      EventsOnlyGrow(g, actions[0]);
      if id in g'.events {
        EachEventCommitsOnce(g', actions[1..], id);
      } else {
        EffectIffTargetFound(g', actions[1..], id);
      }
    }
  }

  /** Redelivering a used-up event later, any number of times, anywhere, leaves the final state as it was. */
  lemma RedeliveryIsHarmless(g: Gateway, before: seq<Action>, after: seq<Action>, d: Delivery)
    requires d.id in Run(g, before).events
    ensures Run(g, before + [Deliver(d)] + after) == Run(g, before + after)
  {
    RunConcat(g, before, [Deliver(d)] + after);
    RunConcat(g, before, after);
    assert before + [Deliver(d)] + after == before + ([Deliver(d)] + after);
    assert ([Deliver(d)] + after)[1..] == after;
  }

  lemma {:induction false} RunConcat(g: Gateway, a: seq<Action>, b: seq<Action>)
    ensures Run(g, a + b) == Run(Run(g, a), b)
    decreases |a|
  {
    if a == [] {
      assert a + b == b;
    } else {
      assert (a + b)[1..] == a[1..] + b;
      RunConcat(Next(g, a[0]), a[1..], b);
    }
  }

  // ---- What one delivery may do ----

  /** A delivery confirms a booking only if it is new, the booking awaits payment, and the amount covers the
      deposit stored at that moment; and then it does. */
  lemma ConfirmsIffDepositCovered(g: Gateway, d: Delivery)
    requires d.BookingPaid? && d.booking < |g.books.accounts| && d.amount > 0
    requires g.books.accounts[d.booking].status != Confirmed
    ensures var a, a' := g.books.accounts[d.booking], Delivered(g, d).books.accounts[d.booking];
      (a'.status == Confirmed <==>
         d.id !in g.events && !a.deleted && a.status in {PendingDeposit, PendingVerification} && d.amount >= a.deposit)
    ensures var a, a' := g.books.accounts[d.booking], Delivered(g, d).books.accounts[d.booking];
      a'.status == Confirmed ==>
        a'.deposit == d.amount && a'.depositTaken && (a'.payment == PaidInFull <==> d.amount >= a.total - a.discount)
  {
  }

  // ---- Tournament fees ----

  predicate NoOverpayment(g: Gateway) {
    forall t :: 0 <= t < |g.teams| ==> g.teams[t].paid <= g.teams[t].due
  }

  predicate QuoteFits(g: Gateway, a: Action) {
    a.StaffPay? && a.quote in g.quotes && g.quotes[a.quote].team < |g.teams| ==>
      var quote := g.quotes[a.quote];
      g.teams[quote.team].paid + quote.amount <= g.teams[quote.team].due
  }

  /** Every action but a staff write keeps fees within what is due; a staff write does exactly when the amount it
      decided on still fits. */
  lemma OverpaymentIffQuoteStale(g: Gateway, a: Action)
    requires NoOverpayment(g)
    ensures NoOverpayment(Next(g, a)) <==> QuoteFits(g, a)
  {
    if a.StaffPay? && a.quote in g.quotes && g.quotes[a.quote].team < |g.teams| {
      var t := g.quotes[a.quote].team;
      assert Next(g, a).teams[t].paid == g.teams[t].paid + g.quotes[a.quote].amount;
    }
  }

  /** Every staff write of the run meets a quote that still fits. */
  predicate QuotesFit(g: Gateway, actions: seq<Action>)
    decreases |actions|
  {
    actions == [] || (QuoteFits(g, actions[0]) && QuotesFit(Next(g, actions[0]), actions[1..]))
  }

  predicate NeverOverpaid(g: Gateway, actions: seq<Action>)
    decreases |actions|
  {
    NoOverpayment(g) && (actions == [] || NeverOverpaid(Next(g, actions[0]), actions[1..]))
  }

  /** Over any run of deliveries, staff payments and everything else, no team is ever overpaid if and only if every
      staff write meets a quote that still fits. */
  lemma {:induction false} NeverOverpaidIff(g: Gateway, actions: seq<Action>)
    requires NoOverpayment(g)
    ensures NeverOverpaid(g, actions) <==> QuotesFit(g, actions)
    decreases |actions|
  {
    if actions != [] {
      OverpaymentIffQuoteStale(g, actions[0]);
      if QuoteFits(g, actions[0]) {
        NeverOverpaidIff(Next(g, actions[0]), actions[1..]);
      } else {
        assert !NeverOverpaid(Next(g, actions[0]), actions[1..]);
      }
    }
  }

  /** Every staff payment is written before anything else happens. */
  predicate Serial(actions: seq<Action>)
    decreases |actions|
  {
    actions == [] ||
    (if actions[0].StaffQuote? then |actions| >= 2 && actions[1] == StaffPay(actions[0].quote) && Serial(actions[2..])
     else Serial(actions[1..]))
  }

  lemma QuoteThenPayFits(g: Gateway, a: Action)
    requires NoOverpayment(g) && g.quotes == map[] && a.StaffQuote?
    ensures var g' := Next(Next(g, a), StaffPay(a.quote));
      NoOverpayment(g') && g'.quotes == map[]
  {
  }

  /** With online payments and one-at-a-time staff payments, no team ever pays more than its fee. */
  lemma {:induction false} SerialRunsNeverOverpay(g: Gateway, actions: seq<Action>)
    requires NoOverpayment(g) && g.quotes == map[] && Serial(actions)
    ensures NoOverpayment(Run(g, actions))
    decreases |actions|
  {
    if actions != [] {
      if actions[0].StaffQuote? {
        QuoteThenPayFits(g, actions[0]);
        assert actions[1..][1..] == actions[2..];
        SerialRunsNeverOverpay(Next(Next(g, actions[0]), actions[1]), actions[2..]);
      } else {
        OverpaymentIffQuoteStale(g, actions[0]);
        SerialRunsNeverOverpay(Next(g, actions[0]), actions[1..]);
      }
    }
  }

  /** Two staff members who both read the fee before either writes charge it twice. */
  lemma TwoStaffOverpay(g: Gateway, due: int) returns (actions: seq<Action>)
    requires due > 0 && g.quotes == map[]
    ensures Run(g, actions).teams == g.teams + [Team(due, 2 * due)]
  {
    var t := |g.teams|;
    var a0, a1, a2, a3, a4 := RegisterTeam(due), StaffQuote(0, t, None), StaffQuote(1, t, None), StaffPay(0), StaffPay(1);
    actions := [a0, a1] + [a2, a3, a4];
    var g1 := Next(g, a0);
    var g2 := Next(g1, a1);
    var g3 := Next(g2, a2);
    var g4 := Next(g3, a3);
    var g5 := Next(g4, a4);
    assert g3.quotes == map[0 := Quote(t, due), 1 := Quote(t, due)] && g3.teams == g.teams + [Team(due, 0)];
    assert g4.quotes == map[1 := Quote(t, due)] && g4.teams == g.teams + [Team(due, due)];
    assert g5.teams == g.teams + [Team(due, 2 * due)];
    assert [a0, a1][1..] == [a1] && Run(g1, [a1]) == g2 && Run(g, [a0, a1]) == g2;
    assert Run(g4, [a4]) == g5;
    assert [a3, a4][1..] == [a4] && Run(g3, [a3, a4]) == g5;
    assert [a2, a3, a4][1..] == [a3, a4] && Run(g2, [a2, a3, a4]) == g5;
    RunConcat(g, [a0, a1], [a2, a3, a4]);
  }
}
