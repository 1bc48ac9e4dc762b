// Received, claimed and given back, as plain sums, and the cancellation's decision in words.

module MoneyRules {
  import opened Options
  import opened BookingStatus
  import opened Finance
  import opened Sums

  /** Each part counts if a payment method is recorded for it. */
  function Received(a: Account): int {
    (if a.depositTaken then a.deposit else 0) + (if a.remainderTaken then a.remainder else 0)
  }

  function AmountIf(refunds: seq<Refund>, b: nat, statuses: set<RefundStatus>, i: int): int {
    if 0 <= i < |refunds| && refunds[i].booking == b && refunds[i].status in statuses then refunds[i].amount else 0
  }

  /** The refunds of a booking that are in one of these statuses. */
  function RefundsOf(refunds: seq<Refund>, b: nat, statuses: set<RefundStatus>): int {
    Sum(|refunds|, i => AmountIf(refunds, b, statuses, i))
  }

  lemma {:induction false} RefundTotalsAreSums(refunds: seq<Refund>, b: nat)
    ensures RefundTotal(refunds, b, Approved) == RefundsOf(refunds, b, {Approved})
    ensures Claimed(refunds, b) == RefundsOf(refunds, b, {Pending, Approved})
    decreases |refunds|
  {
    if refunds != [] {
      var n := |refunds| - 1;
      RefundTotalsAreSums(refunds[..n], b);
      SameSum(n, i => AmountIf(refunds, b, {Approved}, i), i => AmountIf(refunds[..n], b, {Approved}, i));
      SameSum(n, i => AmountIf(refunds, b, {Pending, Approved}, i), i => AmountIf(refunds[..n], b, {Pending, Approved}, i));
    }
  }

  /** Staff may say refund or forfeit; otherwise the money goes back up to the deadline, counted back from the start. */
  predicate GivesBack(a: Account, actor: Actor, override: Override, deadlineHours: int, now: int) {
    if actor == Staff && override == ForceRefund then true
    else if actor == Staff && override == ForceForfeit then false
    else now <= a.start - deadlineHours * 3600000
  }

  predicate MayBeCancelledBy(a: Account, actor: Actor) {
    && !a.deleted && (actor == Staff || actor == CustomerSelf(a.customer))
    && a.status !in {Cancelled, Completed, NoShow, Expired}
  }

  // ---- Settlements ----

  /** Each amount and method given replaces the stored one; the summary says how the sum compares with the price left
      after the discount; nothing else changes. */
  predicate SettledAs(a: Account, a': Account, e: Event)
    requires e.Settle?
  {
    var paid, price := a'.deposit + a'.remainder, a.total - a'.discount;
    && a'.deposit == (match e.deposit case Some(x) => x case None => a.deposit)
    && a'.depositTaken == (match e.depositTaken case Some(x) => x case None => a.depositTaken)
    && a'.remainder == (match e.remainder case Some(x) => x case None => a.remainder)
    && a'.remainderTaken == (match e.remainderTaken case Some(x) => x case None => a.remainderTaken)
    && a'.discount == (match e.discount case Some(x) => x case None => a.discount)
    && (a'.depositStatus == NotPaid <==> paid <= 0)
    && (a'.depositStatus == FullyPaid <==> 0 < price <= paid)
    && a' == a.(deposit := a'.deposit, depositTaken := a'.depositTaken, remainder := a'.remainder,
                remainderTaken := a'.remainderTaken, discount := a'.discount, depositStatus := a'.depositStatus)
  }

  lemma SettledAsAsked(a: Account, e: Event)
    requires e.Settle?
    ensures SettledAs(a, Settled(a, e), e)
  {
  }
}
