// When staff fee payments race with each other and with online ones: exactly how much may be credited to a team
// between the reading of its fee and the writing of a payment.

module FeeRaces {
  import opened Webhook

  // ---- The run, moment by moment ----

  function At(g: Gateway, actions: seq<Action>, i: nat): Gateway
    requires i <= |actions|
  {
    Run(g, actions[..i])
  }

  lemma AtNext(g: Gateway, actions: seq<Action>, i: nat)
    requires i < |actions|
    ensures At(g, actions, i + 1) == Next(At(g, actions, i), actions[i])
  {
    assert actions[..i + 1] == actions[..i] + [actions[i]];
    RunConcat(g, actions[..i], [actions[i]]);
    assert [actions[i]][1..] == [];
  }

  lemma {:induction false} AllWritesFit(g: Gateway, actions: seq<Action>)
    ensures QuotesFit(g, actions) <==> forall j :: 0 <= j < |actions| ==> QuoteFits(At(g, actions, j), actions[j])
    decreases |actions|
  {
    if actions != [] {
      var next, rest := Next(g, actions[0]), actions[1..];
      AllWritesFit(next, rest);
      assert At(g, actions, 0) == g;
      forall j | 0 < j < |actions|
        ensures At(g, actions, j) == At(next, rest, j - 1) && actions[j] == rest[j - 1]
      {
        assert actions[..j][1..] == rest[..j - 1];
      }
      assert forall j: nat :: j < |rest| ==> (QuoteFits(At(next, rest, j), rest[j]) <==> QuoteFits(At(g, actions, j + 1), actions[j + 1]));
    }
  }

  // ---- What is credited ----

  /** What the action pays towards the fee of team t: an online payment all that remains, if it covers that; a staff
      write what its quote says. */
  function Credit(g: Gateway, a: Action, t: nat): int {
    if t >= |g.teams| then 0
    else match a
      case Deliver(FeePaid(id, team, amount)) =>
        if team == t && id !in g.events && amount >= Remaining(g.teams[t]) then Remaining(g.teams[t]) else 0
      case StaffPay(q) => if q in g.quotes && g.quotes[q].team == t then g.quotes[q].amount else 0
      case _ => 0
  }

  /** Everything credited to t from action i up to action j. */
  function Credits(g: Gateway, actions: seq<Action>, i: nat, j: nat, t: nat): int
    requires i <= j <= |actions|
    decreases j
  {
    if i == j then 0 else Credits(g, actions, i, j - 1, t) + Credit(At(g, actions, j - 1), actions[j - 1], t)
  }

  lemma CreditIsPaid(g: Gateway, a: Action, t: nat)
    requires t < |g.teams|
    ensures t < |Next(g, a).teams|
    ensures Next(g, a).teams[t] == Team(g.teams[t].due, g.teams[t].paid + Credit(g, a, t))
  {
  }

  lemma {:induction false} CreditsArePaid(g: Gateway, actions: seq<Action>, i: nat, j: nat, t: nat)
    requires i <= j <= |actions| && t < |At(g, actions, i).teams|
    ensures t < |At(g, actions, j).teams|
    ensures var before := At(g, actions, i).teams[t];
      At(g, actions, j).teams[t] == Team(before.due, before.paid + Credits(g, actions, i, j, t))
    decreases j
  {
    if i < j {
      CreditsArePaid(g, actions, i, j - 1, t);
      AtNext(g, actions, j - 1);
      CreditIsPaid(At(g, actions, j - 1), actions[j - 1], t);
    }
  }

  // ---- Quotes and the writes that settle them ----

  predicate QuoteTaken(g: Gateway, a: Action) {
    a.StaffQuote? && a.quote !in g.quotes && a.team < |g.teams| && Remaining(g.teams[a.team]) > 0 && (a.amount.Some? ==> a.amount.value > 0)
  }

  /** What the request will write: the amount asked for, or all that remains if that is less. */
  function Settles(g: Gateway, a: Action): int
    requires QuoteTaken(g, a)
  {
    var remaining := Remaining(g.teams[a.team]);
    if a.amount.GetOr(remaining) < remaining then a.amount.GetOr(remaining) else remaining
  }

  /** Nobody writes under this quote's number after action i and before action j. */
  predicate Unsettled(actions: seq<Action>, q: nat, i: nat, j: nat)
    requires j <= |actions|
  {
    forall k :: i < k < j ==> actions[k] != StaffPay(q)
  }

  /** Action i takes a quote and action j is the write of the same request. */
  predicate SameRequest(g: Gateway, actions: seq<Action>, i: nat, j: nat) {
    && i < j < |actions| && QuoteTaken(At(g, actions, i), actions[i])
    && actions[j] == StaffPay(actions[i].quote) && Unsettled(actions, actions[i].quote, i, j)
  }

  lemma {:induction false} QuoteKept(g: Gateway, actions: seq<Action>, i: nat, j: nat)
    requires i < j <= |actions| && QuoteTaken(At(g, actions, i), actions[i]) && Unsettled(actions, actions[i].quote, i, j)
    ensures var quotes := At(g, actions, j).quotes;
      && actions[i].quote in quotes
      && quotes[actions[i].quote] == Quote(actions[i].team, Settles(At(g, actions, i), actions[i]))
    decreases j
  {
    AtNext(g, actions, j - 1);
    if i + 1 < j {
      QuoteKept(g, actions, i, j - 1);
      assert actions[j - 1] != StaffPay(actions[i].quote);
    }
  }

  lemma {:induction false} QuoteHasOrigin(g: Gateway, actions: seq<Action>, q: nat, j: nat) returns (i: nat)
    requires g.quotes == map[] && j <= |actions| && q in At(g, actions, j).quotes
    ensures i < j && QuoteTaken(At(g, actions, i), actions[i]) && actions[i].quote == q && Unsettled(actions, q, i, j)
    decreases j
  {
    assert At(g, actions, 0) == g;
    AtNext(g, actions, j - 1);
    if q in At(g, actions, j - 1).quotes {
      i := QuoteHasOrigin(g, actions, q, j - 1);
    } else {
      i := j - 1;
    }
  }

  /** Between the two halves of each staff payment its team is credited no more than the quote left unpaid. */
  ghost predicate LeavesRoom(g: Gateway, actions: seq<Action>) {
    forall i: nat, j: nat :: SameRequest(g, actions, i, j) ==>
      Credits(g, actions, i + 1, j, actions[i].team) <=
        Remaining(At(g, actions, i).teams[actions[i].team]) - Settles(At(g, actions, i), actions[i])
  }

  lemma WriteFitsIff(g: Gateway, actions: seq<Action>, i: nat, j: nat)
    requires SameRequest(g, actions, i, j)
    ensures QuoteFits(At(g, actions, j), actions[j]) <==>
      Credits(g, actions, i + 1, j, actions[i].team) <=
        Remaining(At(g, actions, i).teams[actions[i].team]) - Settles(At(g, actions, i), actions[i])
  {
    AtNext(g, actions, i);
    QuoteKept(g, actions, i, j);
    CreditsArePaid(g, actions, i + 1, j, actions[i].team);
  }

  /** Over any run of deliveries, staff payments and everything else, no team is ever overpaid if and only if between
      the reading and the writing of each staff payment its team is credited no more than that payment left over. */
  lemma NeverOverpaidIffRoomLeft(g: Gateway, actions: seq<Action>)
    requires NoOverpayment(g) && g.quotes == map[]
    ensures NeverOverpaid(g, actions) <==> LeavesRoom(g, actions)
  {
    NeverOverpaidIff(g, actions);
    AllWritesFit(g, actions);
    if QuotesFit(g, actions) {
      forall i: nat, j: nat | SameRequest(g, actions, i, j)
        ensures Credits(g, actions, i + 1, j, actions[i].team) <=
          Remaining(At(g, actions, i).teams[actions[i].team]) - Settles(At(g, actions, i), actions[i])
      {
        WriteFitsIff(g, actions, i, j);
      }
    }
    if LeavesRoom(g, actions) {
      forall j | 0 <= j < |actions|
        ensures QuoteFits(At(g, actions, j), actions[j])
      {
        WritesLeftRoomFit(g, actions, j);
      }
    }
  }

  lemma WritesLeftRoomFit(g: Gateway, actions: seq<Action>, j: nat)
    requires g.quotes == map[] && LeavesRoom(g, actions) && j < |actions|
    ensures QuoteFits(At(g, actions, j), actions[j])
  {
    if actions[j].StaffPay? && actions[j].quote in At(g, actions, j).quotes {
      var i := QuoteHasOrigin(g, actions, actions[j].quote, j);
      assert SameRequest(g, actions, i, j);
      WriteFitsIff(g, actions, i, j);
    }
  }
}
