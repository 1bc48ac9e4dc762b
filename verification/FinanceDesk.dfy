// The money use cases as they run against the tables: refund requests and their resolution, cancellation,
// settlement, receipts, deposit verification, deletion. Each does exactly the step of the same name, or nothing.

module FinanceDesk {
  import opened Options
  import opened Instants
  import opened BookingStatus
  import opened Finance
  import opened MoneyRules

  datatype Outcome =
    | Done | NotFound | BadAmount | PaymentNotApproved | ExceedsCollected | NotPending | AlreadyClosed | WrongStatus
    | Forbidden | HasRefunds

  class Desk {
    var accounts: seq<Account>
    var refunds: seq<Refund>
    var ledger: seq<LedgerRow>

    function Db(): Books
      reads this
    {
      Books(accounts, refunds, ledger)
    }

    /** Appends only; there is no way to rewrite a ledger row. */
    method RecordLedgerEntry(row: LedgerRow)
      modifies this`ledger
      ensures ledger == old(ledger) + [row]
    {
      ledger := ledger + [row];
    }

    method CreateRefundRequest(b: nat, amount: int) returns (outcome: Outcome)
      modifies this`refunds
      ensures Db() == Step(old(Db()), RequestRefund(b, amount))
      ensures outcome == Done <==> Accepts(old(Db()), RequestRefund(b, amount))
      ensures outcome == BadAmount <==> amount <= 0
      ensures outcome == NotFound <==> 0 < amount && b >= |accounts|
      ensures outcome == PaymentNotApproved <==>
        0 < amount && b < |accounts| && accounts[b].payment !in {DepositApproved, RemainingBalancePending, PaidInFull}
      ensures outcome == Done <==>
        0 < amount && b < |accounts| && accounts[b].payment in {DepositApproved, RemainingBalancePending, PaidInFull} &&
        amount <= Received(accounts[b]) - RefundsOf(old(refunds), b, {Pending, Approved})
      ensures refunds == if outcome == Done then old(refunds) + [Refund(b, amount, Pending)] else old(refunds)
    {
      RefundTotalsAreSums(refunds, b);
      if amount <= 0 { return BadAmount; }
      if b >= |accounts| { return NotFound; }
      if accounts[b].payment !in {DepositApproved, RemainingBalancePending, PaidInFull} { return PaymentNotApproved; }
      var collected := Collected(accounts[b]);
      var alreadyClaimed := Claimed(refunds, b);
      var netAvailable := NonNegative(collected - alreadyClaimed);
      if amount > netAvailable { return ExceedsCollected; }
      refunds := refunds + [Refund(b, amount, Pending)];
      return Done;
    }

    /** What was received, less what has been given back by hand, covers the refund. */
    predicate Covered(a: Account, all: seq<Refund>, r: nat)
      requires r < |all|
    {
      var left := Received(a) - RefundsOf(all, all[r].booking, {Approved});
      all[r].amount <= if left < 0 then 0 else left
    }

    method ApproveOrRejectRefund(r: nat, approve: bool) returns (outcome: Outcome)
      requires forall i :: 0 <= i < |refunds| ==> refunds[i].booking < |accounts|
      modifies this
      ensures Db() == Step(old(Db()), if approve then ApproveRefund(r) else RejectRefund(r))
      ensures outcome == Done <==> Accepts(old(Db()), if approve then ApproveRefund(r) else RejectRefund(r))
      ensures outcome == NotFound <==> r >= |old(refunds)|
      ensures outcome == NotPending <==> r < |old(refunds)| && old(refunds)[r].status != Pending
      ensures outcome == ExceedsCollected <==>
        approve && r < |old(refunds)| && old(refunds)[r].status == Pending &&
        !Covered(old(accounts)[old(refunds)[r].booking], old(refunds), r)
      ensures outcome == Done && approve ==>
        var b, amount := old(refunds)[r].booking, old(refunds)[r].amount;
        var a, given := old(accounts)[b], RefundsOf(old(refunds), b, {Approved}) + amount;
        && refunds == old(refunds)[r := Refund(b, amount, Approved)]
        && accounts == old(accounts)[b := a.(payment := if given < Received(a) then PartiallyRefunded else FullyRefunded, refunded := given)]
        && ledger == old(ledger) + [LedgerRow(b, RefundDebit, amount)]
      ensures outcome == Done && !approve ==>
        refunds == old(refunds)[r := Refund(old(refunds)[r].booking, old(refunds)[r].amount, Rejected)]
      ensures outcome != Done || !approve ==> accounts == old(accounts) && ledger == old(ledger)
      ensures outcome != Done ==> refunds == old(refunds)
    {
      if r < |refunds| { RefundTotalsAreSums(refunds, refunds[r].booking); }
      if r >= |refunds| { return NotFound; }
      if refunds[r].status != Pending { return NotPending; }
      var b, amount := refunds[r].booking, refunds[r].amount;
      if approve {
        var collected := Collected(accounts[b]);
        var alreadyApproved := RefundTotal(refunds, b, Approved);
        var netAvailable := NonNegative(collected - alreadyApproved);
        if amount > netAvailable { return ExceedsCollected; }
        var totalAfter := alreadyApproved + amount;
        refunds := refunds[r := refunds[r].(status := Approved)];
        var status := if totalAfter >= collected then FullyRefunded else PartiallyRefunded;
        accounts := accounts[b := accounts[b].(payment := status, refunded := totalAfter)];
        RecordLedgerEntry(LedgerRow(b, RefundDebit, amount));
      } else {
        refunds := refunds[r := refunds[r].(status := Rejected)];
      }
      return Done;
    }

    method CancelBookingFor(b: nat, actor: Actor, override: Override, deadlineHours: int, now: int)
      returns (outcome: Outcome, decision: Decision)
      modifies this`accounts, this`ledger
      ensures Db() == Step(old(Db()), CancelBooking(b, actor, override, deadlineHours, now))
      ensures outcome == Done <==> Accepts(old(Db()), CancelBooking(b, actor, override, deadlineHours, now))
      ensures outcome == NotFound <==> b >= |old(accounts)| || old(accounts)[b].deleted
      ensures outcome == Forbidden <==>
        b < |old(accounts)| && !old(accounts)[b].deleted &&
        (actor == Coach || (actor.CustomerSelf? && actor.user != old(accounts)[b].customer))
      ensures outcome == Done <==> b < |old(accounts)| && MayBeCancelledBy(old(accounts)[b], actor)
      ensures outcome == Done ==> decision == DecisionFor(old(accounts)[b], actor, override, deadlineHours, now)
      ensures outcome == Done && Received(old(accounts)[b]) <= 0 ==>
        && decision == NothingToRefund && ledger == old(ledger)
        && accounts == old(accounts)[b := old(accounts)[b].(status := Cancelled, decision := Some(NothingToRefund), refundAmount := 0)]
      ensures outcome == Done && Received(old(accounts)[b]) > 0 && GivesBack(old(accounts)[b], actor, override, deadlineHours, now) ==>
        var a, all := old(accounts)[b], Received(old(accounts)[b]);
        && decision == RefundAll && ledger == old(ledger) + [LedgerRow(b, RefundDebit, all)]
        && accounts == old(accounts)[b := a.(
             status := Cancelled, decision := Some(RefundAll), refundAmount := all, payment := FullyRefunded, refunded := all)]
      ensures outcome == Done && Received(old(accounts)[b]) > 0 && !GivesBack(old(accounts)[b], actor, override, deadlineHours, now) ==>
        var a, all := old(accounts)[b], Received(old(accounts)[b]);
        && decision == KeepAll && ledger == old(ledger) + [LedgerRow(b, ForfeitIncome, all)]
        && accounts == old(accounts)[b := a.(
             status := Cancelled, decision := Some(KeepAll), refundAmount := 0, payment := Forfeited)]
      ensures outcome != Done ==> accounts == old(accounts) && ledger == old(ledger)
    {
      decision := NothingToRefund;
      if b >= |accounts| || accounts[b].deleted { return NotFound, decision; }
      var a := accounts[b];
      if actor.CustomerSelf? && actor.user != a.customer { return Forbidden, decision; }
      if actor.Coach? { return Forbidden, decision; }
      if a.status in {Cancelled, Completed, NoShow, Expired} { return AlreadyClosed, decision; }
      var afterDeadline := now > a.start - deadlineHours * HOUR_MS;
      var collected := Collected(a);
      var choice := if actor.Staff? then override else Auto;
      var refundAmount := 0;
      if collected > 0 {
        if choice == ForceRefund || (choice == Auto && !afterDeadline) {
          decision := RefundAll;
          refundAmount := collected;
        } else {
          decision := KeepAll;
        }
      }
      accounts := accounts[b := a.(status := Cancelled, decision := Some(decision), refundAmount := refundAmount)];
      if decision == RefundAll {
        accounts := accounts[b := accounts[b].(payment := FullyRefunded, refunded := refundAmount)];
        RecordLedgerEntry(LedgerRow(b, RefundDebit, refundAmount));
      } else if decision == KeepAll {
        accounts := accounts[b := accounts[b].(payment := Forfeited)];
        RecordLedgerEntry(LedgerRow(b, ForfeitIncome, collected));
      }
      assert ledger == old(ledger) + CancelRows(a, b, decision);
      return Done, decision;
    }

    method SettlePayment(b: nat, e: Event) returns (outcome: Outcome)
      requires e.Settle? && e.booking == b
      requires (e.deposit.Some? ==> e.deposit.value >= 0) && (e.remainder.Some? ==> e.remainder.value >= 0)
      modifies this`accounts
      ensures Db() == Step(old(Db()), e)
      ensures outcome == Done <==> Accepts(old(Db()), e)
      ensures outcome == AlreadyClosed <==>
        b < |old(accounts)| && old(accounts)[b].status in {Cancelled, Completed, NoShow, Expired}
      ensures outcome == NotFound <==> b >= |old(accounts)|
      ensures outcome != Done ==> accounts == old(accounts)
      ensures outcome == Done ==>
        b < |accounts| && accounts == old(accounts)[b := accounts[b]] && SettledAs(old(accounts)[b], accounts[b], e)
    {
      if b >= |accounts| { return NotFound; }
      SettledAsAsked(accounts[b], e);
      if accounts[b].status in {Cancelled, Expired, NoShow, Completed} { return AlreadyClosed; }
      var a := accounts[b];
      var deposit, remainder := e.deposit.GetOr(a.deposit), e.remainder.GetOr(a.remainder);
      var discount := e.discount.GetOr(a.discount);
      var totalPaid, netPrice := deposit + remainder, NonNegative(a.total - discount);
      var financialStatus :=
        if totalPaid <= 0 then NotPaid else if netPrice > 0 && totalPaid >= netPrice then FullyPaid else DepositPaid;
      accounts := accounts[b := a.(
        deposit := deposit, depositTaken := e.depositTaken.GetOr(a.depositTaken),
        remainder := remainder, remainderTaken := e.remainderTaken.GetOr(a.remainderTaken),
        discount := discount, depositStatus := financialStatus)];
      assert accounts[b] == Settled(a, e);
      return Done;
    }

    method VerifyDepositOf(b: nat, approve: bool) returns (outcome: Outcome)
      modifies this`accounts
      ensures Db() == Step(old(Db()), VerifyDeposit(b, approve))
      ensures outcome == NotFound <==> b >= |old(accounts)|
      ensures outcome == Done <==> b < |old(accounts)| && old(accounts)[b].status == PendingVerification
      ensures outcome == Done && approve ==>
        accounts == old(accounts)[b := old(accounts)[b].(status := Confirmed, payment := DepositApproved)]
      ensures outcome == Done && !approve ==> accounts == old(accounts)[b := old(accounts)[b].(payment := DepositRejected)]
      ensures outcome != Done ==> accounts == old(accounts)
    {
      if b >= |accounts| { return NotFound; }
      if accounts[b].status != PendingVerification { return WrongStatus; }
      if approve {
        accounts := accounts[b := accounts[b].(status := Confirmed)];
        accounts := accounts[b := accounts[b].(payment := DepositApproved)];
      } else {
        accounts := accounts[b := accounts[b].(payment := DepositRejected)];
      }
      return Done;
    }

    /** A receipt brings the booking up for verification, and a rejected deposit back to pending. */
    method UploadReceiptOf(b: nat, user: nat) returns (outcome: Outcome)
      modifies this`accounts
      ensures outcome == Done ==> Db() == Step(old(Db()), UploadReceipt(b))
      ensures outcome == NotFound <==> b >= |old(accounts)|
      ensures outcome == Forbidden <==> b < |old(accounts)| && old(accounts)[b].customer != user
      ensures outcome == Done <==>
        b < |old(accounts)| && old(accounts)[b].customer == user && old(accounts)[b].status in {PendingDeposit, PendingVerification}
      ensures outcome == Done ==>
        var a := old(accounts)[b];
        accounts == old(accounts)[b := a.(
          status := PendingVerification, payment := if a.payment == DepositRejected then DepositPending else a.payment)]
      ensures outcome != Done ==> accounts == old(accounts)
    {
      if b >= |accounts| { return NotFound; }
      if accounts[b].customer != user { return Forbidden; }
      if accounts[b].status != PendingDeposit && accounts[b].status != PendingVerification { return WrongStatus; }
      accounts := accounts[b := accounts[b].(status := PendingVerification)];
      if accounts[b].payment == DepositRejected {
        accounts := accounts[b := accounts[b].(payment := DepositPending)];
      }
      return Done;
    }

    /** A booking with a refund record, in whatever status, is never deleted. */
    method DeleteBookingOf(b: nat) returns (outcome: Outcome)
      modifies this`accounts
      ensures Db() == Step(old(Db()), DeleteBooking(b))
      ensures outcome == NotFound <==> b >= |old(accounts)| || old(accounts)[b].deleted
      ensures outcome == HasRefunds <==>
        b < |old(accounts)| && !old(accounts)[b].deleted && exists r :: 0 <= r < |refunds| && refunds[r].booking == b
      ensures outcome == Done ==> accounts == old(accounts)[b := old(accounts)[b].(status := Cancelled, deleted := true)]
      ensures outcome != Done ==> accounts == old(accounts)
      ensures outcome in {Done, NotFound, HasRefunds}
    {
      if b >= |accounts| || accounts[b].deleted { return NotFound; }
      if exists r :: 0 <= r < |refunds| && refunds[r].booking == b { return HasRefunds; }
      accounts := accounts[b := accounts[b].(status := Cancelled, deleted := true)];
      return Done;
    }
  }
}
