// The webhook as it runs: the event row is inserted first, and a delivery that cannot be applied rolls it back.

module WebhookDesk {
  import opened Options
  import opened BookingStatus
  import opened Finance
  import opened Webhook

  datatype Outcome = Duplicate | UnknownTarget | Ignored | Flagged | ConfirmedNow | FeePaidInFull | NotCredited

  class Desk {
    var events: set<EventId>
    var accounts: seq<Account>
    var refunds: seq<Refund>
    var ledger: seq<LedgerRow>
    var teams: seq<Team>
    var quotes: map<nat, Quote>

    function Db(): Gateway
      reads this
    {
      Gateway(events, Books(accounts, refunds, ledger), teams, quotes)
    }

    /** A stored booking that has not been confirmed yet. */
    predicate AwaitsMoney(all: seq<Account>, b: nat) {
      b < |all| && !all[b].deleted && all[b].status in {PendingDeposit, PendingVerification}
    }

    /** A new event confirms a booking whose deposit it covers; a smaller first amount is put on file for verification, and
        anything else changes no booking. */
    method ProcessBookingPayment(id: EventId, b: nat, amount: int) returns (outcome: Outcome)
      requires amount > 0
      modifies this`events, this`accounts
      ensures Db() == Next(old(Db()), Deliver(BookingPaid(id, b, amount)))
      ensures outcome == Duplicate <==> id in old(events)
      ensures outcome == UnknownTarget <==> id !in old(events) && (b >= |old(accounts)| || old(accounts)[b].deleted)
      ensures events == if outcome in {Duplicate, UnknownTarget} then old(events) else old(events) + {id}
      ensures outcome == Flagged <==> id !in old(events) && AwaitsMoney(old(accounts), b) && amount < old(accounts)[b].deposit
      ensures outcome == ConfirmedNow <==> id !in old(events) && AwaitsMoney(old(accounts), b) && old(accounts)[b].deposit <= amount
      ensures outcome in {Duplicate, UnknownTarget, Ignored, Flagged, ConfirmedNow}
      ensures outcome == Flagged && old(accounts)[b].status == PendingDeposit ==>
        accounts == old(accounts)[b := old(accounts)[b].(status := PendingVerification, deposit := amount, depositTaken := true)]
      ensures outcome == ConfirmedNow ==>
        var a := old(accounts)[b];
        if a.total - a.discount <= amount then
          accounts == old(accounts)[b := a.(
            status := Confirmed, deposit := amount, depositTaken := true, depositStatus := FullyPaid, payment := PaidInFull)]
        else
          accounts == old(accounts)[b := a.(
            status := Confirmed, deposit := amount, depositTaken := true, depositStatus := DepositPaid, payment := DepositApproved)]
      ensures outcome != ConfirmedNow && !(outcome == Flagged && old(accounts)[b].status == PendingDeposit) ==> accounts == old(accounts)
    {
      if id in events { return Duplicate; }
      var saved := events;
      events := events + {id};
      if b >= |accounts| || accounts[b].deleted {
        events := saved;
        return UnknownTarget;
      }
      var a := accounts[b];
      if a.status != PendingDeposit && a.status != PendingVerification { return Ignored; }
      if amount < a.deposit {
        if a.status == PendingDeposit {
          accounts := accounts[b := a.(status := PendingVerification, deposit := amount, depositTaken := true)];
        }
        assert accounts == old(accounts)[b := PaidOnline(a, amount)];
        return Flagged;
      }
      var finalPrice := NonNegative(a.total - a.discount);
      var depositStatus := if amount >= finalPrice then FullyPaid else DepositPaid;
      accounts := accounts[b := a.(status := Confirmed, deposit := amount, depositTaken := true, depositStatus := depositStatus)];
      var payment := if amount >= finalPrice then PaidInFull else DepositApproved;
      accounts := accounts[b := accounts[b].(payment := payment)];
      assert accounts == old(accounts)[b := PaidOnline(a, amount)];
      return ConfirmedNow;
    }

    method ProcessTournamentFeePayment(id: EventId, t: nat, amount: int) returns (outcome: Outcome)
      requires amount > 0
      modifies this`events, this`teams
      ensures Db() == Next(old(Db()), Deliver(FeePaid(id, t, amount)))
      ensures outcome == Duplicate <==> id in old(events)
      ensures outcome == UnknownTarget <==> id !in old(events) && t >= |old(teams)|
      ensures events == if outcome in {Duplicate, UnknownTarget} then old(events) else old(events) + {id}
      ensures outcome == FeePaidInFull <==>
        id !in old(events) && t < |old(teams)| && 0 < old(teams)[t].due - old(teams)[t].paid <= amount
      ensures outcome == NotCredited <==>
        id !in old(events) && t < |old(teams)| && amount < old(teams)[t].due - old(teams)[t].paid
      ensures outcome == FeePaidInFull ==> teams == old(teams)[t := Team(old(teams)[t].due, old(teams)[t].due)]
      ensures outcome != FeePaidInFull ==> teams == old(teams)
    {
      if id in events { return Duplicate; }
      var saved := events;
      events := events + {id};
      if t >= |teams| {
        events := saved;
        return UnknownTarget;
      }
      var remaining := Remaining(teams[t]);
      if remaining <= 0 {
        assert teams == teams[t := FeeCredited(teams[t], amount)];
        return Ignored;
      }
      if amount < remaining {
        assert teams == teams[t := FeeCredited(teams[t], amount)];
        return NotCredited;
      }
      teams := teams[t := teams[t].(paid := teams[t].paid + remaining)];
      return FeePaidInFull;
    }

    /** The first statement of recordTeamPayment: read the fee and settle on an amount. */
    method QuoteTeamPayment(q: nat, t: nat, amount: Option<int>) returns (ok: bool)
      requires q !in quotes && (amount.Some? ==> amount.value > 0)
      modifies this`quotes
      ensures Db() == Next(old(Db()), StaffQuote(q, t, amount))
      ensures ok <==> t < |teams| && teams[t].paid < teams[t].due
      ensures ok ==>
        var left := teams[t].due - teams[t].paid;
        quotes == old(quotes)[q := Quote(t, if amount.Some? && amount.value < left then amount.value else left)]
      ensures !ok ==> quotes == old(quotes)
    {
      if t >= |teams| { return false; }
      var remaining := Remaining(teams[t]);
      if remaining <= 0 { return false; }
      quotes := quotes[q := Quote(t, if amount.Some? && amount.value < remaining then amount.value else remaining)];
      return true;
    }

    /** The second: add it, whatever has been paid meanwhile. */
    method WriteTeamPayment(q: nat)
      requires q in quotes && quotes[q].team < |teams|
      modifies this`quotes, this`teams
      ensures Db() == Next(old(Db()), StaffPay(q))
      ensures quotes == old(quotes) - {q}
      ensures var t, before := old(quotes)[q].team, old(teams)[old(quotes)[q].team];
        teams == old(teams)[t := Team(before.due, before.paid + old(quotes)[q].amount)]
    {
      var quote := quotes[q];
      teams := teams[quote.team := teams[quote.team].(paid := teams[quote.team].paid + quote.amount)];
      quotes := quotes - {q};
    }
  }
}
