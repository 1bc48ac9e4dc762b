// The payment state machine against the money steps: which writes follow its documented edges.

module PaymentEdges {
  import opened Options
  import opened Instants
  import opened BookingStatus
  import opened Finance
  import opened FinanceRuns
  import opened MoneyTheorems

  // ---- Paths ----

  lemma RefundPaths(from: PaymentStatus)
    requires from in {DepositPending, DepositRejected, DepositApproved, RemainingBalancePending, PaidInFull, PartiallyRefunded}
    ensures PaymentReaches(from, FullyRefunded)
    ensures from in {DepositApproved, RemainingBalancePending, PaidInFull, PartiallyRefunded} ==> PaymentReaches(from, PartiallyRefunded)
  {
    match from
    case DepositPending => PaymentPath([DepositPending, DepositApproved, FullyRefunded]);
    case DepositRejected => PaymentPath([DepositRejected, DepositPending, DepositApproved, FullyRefunded]);
    case DepositApproved =>
      PaymentPath([DepositApproved, FullyRefunded]);
      PaymentPath([DepositApproved, PartiallyRefunded]);
    case RemainingBalancePending =>
      PaymentPath([RemainingBalancePending, PaidInFull, FullyRefunded]);
      PaymentPath([RemainingBalancePending, PaidInFull, PartiallyRefunded]);
    case PaidInFull =>
      PaymentPath([PaidInFull, FullyRefunded]);
      PaymentPath([PaidInFull, PartiallyRefunded]);
    case PartiallyRefunded =>
      PaymentPath([PartiallyRefunded, FullyRefunded]);
      PaymentPath([PartiallyRefunded]);
  }

  lemma DepositPaths(from: PaymentStatus, to: PaymentStatus)
    requires from in {DepositPending, DepositRejected}
    requires to in {DepositPending, DepositRejected, DepositApproved, PaidInFull}
    ensures PaymentReaches(from, to)
  {
    var rest := match to
      case DepositPending => [DepositPending]
      case DepositRejected => [DepositPending, DepositRejected]
      case DepositApproved => [DepositPending, DepositApproved]
      case _ => [DepositPending, DepositApproved, RemainingBalancePending, PaidInFull];
    assert IsPaymentPath(rest);
    if from == DepositPending {
      PaymentPath(rest);
    } else {
      assert IsPaymentPath([DepositRejected] + rest);
      PaymentPath([DepositRejected] + rest);
    }
  }

  lemma PaymentStays(p: PaymentStatus)
    ensures PaymentReaches(p, p)
  {
    PaymentPath([p]);
  }

  /** The payment status b would have after the event. */
  function PaymentAfter(books: Books, e: Event, b: nat): PaymentStatus
    requires b < |books.accounts| && Accepts(books, e) && b < |Apply(books, e).accounts|
  {
    Apply(books, e).accounts[b].payment
  }

  /** The cancellation would keep the money of booking b. */
  predicate Forfeits(books: Books, e: Event, b: nat)
    requires b < |books.accounts|
  {
    e.CancelBooking? && e.booking == b &&
    DecisionFor(books.accounts[b], e.actor, e.override, e.deadlineHours, e.now) == KeepAll
  }

  /** The refund is of a payment already closed: forfeited, or fully refunded with more collected now than this and
      the earlier approvals add up to. A cancellation may have closed it, or approvals before a settlement raised
      what was collected. */
  predicate ReopensClosedPayment(books: Books, e: Event, b: nat)
    requires b < |books.accounts|
  {
    e.ApproveRefund? && e.refund < |books.refunds| && books.refunds[e.refund].booking == b &&
    var a := books.accounts[b];
    (a.payment == Forfeited ||
     (a.payment == FullyRefunded &&
      RefundTotal(books.refunds, b, Approved) + books.refunds[e.refund].amount < Collected(a)))
  }

  /** In any reachable books a payment status is rewritten along a walk of documented edges, except exactly by two
      kinds of step: a cancellation that forfeits, and the approval of a refund of a payment already closed. */
  lemma PaymentFollowsEdgesIff(books: Books, e: Event, b: nat)
    requires BooksSound(books) && Accepts(books, e) && b < |books.accounts|
    ensures b < |Apply(books, e).accounts|
    ensures PaymentReaches(books.accounts[b].payment, PaymentAfter(books, e, b)) <==>
      !Forfeits(books, e, b) && !ReopensClosedPayment(books, e, b)
  {
    var a, to := books.accounts[b], PaymentAfter(books, e, b);
    assert SoundAt(books, b);
    if e.ApproveRefund? && books.refunds[e.refund].booking == b {
      ApprovalEdges(books, e.refund);
    } else if e.CancelBooking? && e.booking == b {
      CancellationEdges(books, e);
    } else if to == a.payment {
      PaymentStays(to);
    } else {
      assert e.booking == b && a.status in {PendingDeposit, PendingVerification};
      DepositPaths(a.payment, to);
    }
  }

  /** The walk has more than one edge: approving a rejected deposit, an online payment that does so or that pays in
      full, and a cancellation refunding money that was never approved. */
  predicate SkipsStates(books: Books, e: Event, b: nat)
    requires b < |books.accounts|
  {
    var a := books.accounts[b];
    match e
    case VerifyDeposit(t, approve) => t == b && approve && a.payment == DepositRejected
    case OnlinePayment(t, amount) =>
      t == b && a.deposit <= amount && (a.payment == DepositRejected || NonNegative(a.total - a.discount) <= amount)
    case CancelBooking(t, actor, override, deadlineHours, now) =>
      t == b && DecisionFor(a, actor, override, deadlineHours, now) == RefundAll && a.payment in {DepositPending, DepositRejected}
    case _ => false
  }

  /** A step that changes a payment status does so along a single documented edge, except exactly in these cases. */
  lemma PaymentFollowsOneEdgeIff(books: Books, e: Event, b: nat)
    requires BooksSound(books) && Accepts(books, e) && b < |books.accounts| && b < |Apply(books, e).accounts|
    requires PaymentAfter(books, e, b) != books.accounts[b].payment
    ensures PaymentAfter(books, e, b) in PaymentTransitions(books.accounts[b].payment) <==>
      !Forfeits(books, e, b) && !ReopensClosedPayment(books, e, b) && !SkipsStates(books, e, b)
  {
    assert SoundAt(books, b);
    if e.ApproveRefund? {
      assert books.refunds[e.refund].amount > 0;
      RefundTotalBounds(books.refunds, b, Pending, e.refund);
      RefundTotalBounds(books.refunds, b, Approved, e.refund);
    }
  }

  lemma ApprovalEdges(books: Books, r: nat)
    requires BooksSound(books) && Accepts(books, ApproveRefund(r))
    ensures var b := books.refunds[r].booking;
      PaymentReaches(books.accounts[b].payment, PaymentAfter(books, ApproveRefund(r), b)) <==>
        !ReopensClosedPayment(books, ApproveRefund(r), b)
  {
    var b := books.refunds[r].booking;
    var from, to := books.accounts[b].payment, PaymentAfter(books, ApproveRefund(r), b);
    assert SoundAt(books, b);
    RefundTotalBounds(books.refunds, b, Pending, r);
    RefundTotalBounds(books.refunds, b, Approved, r);
    if from == to {
      PaymentStays(from);
    } else if from == Forfeited || from == FullyRefunded {
      if PaymentReaches(from, to) { PaymentEnds(from, to); }
    } else {
      RefundPaths(from);
    }
  }

  lemma CancellationEdges(books: Books, e: Event)
    requires BooksSound(books) && e.CancelBooking? && Accepts(books, e)
    ensures PaymentReaches(books.accounts[e.booking].payment, PaymentAfter(books, e, e.booking)) <==>
      !Forfeits(books, e, e.booking)
  {
    var from, to := books.accounts[e.booking].payment, PaymentAfter(books, e, e.booking);
    assert SoundAt(books, e.booking) && books.accounts[e.booking].decision == None;
    if PaymentReaches(from, to) { PaymentEnds(from, to); }
    if from == to || from == FullyRefunded { PaymentStays(from); } else { RefundPaths(from); }
  }

  // ---- The exceptions are reached ----

  /** After these events the next one is accepted and takes a payment off the documented edges. */
  ghost predicate LeavesEdges(events: seq<Event>, e: Event) {
    |Run(NO_BOOKS, events).accounts| == 1 && Accepts(Run(NO_BOOKS, events), e) &&
    !PaymentReaches(Run(NO_BOOKS, events).accounts[0].payment, PaymentAfter(Run(NO_BOOKS, events), e, 0))
  }

  lemma OpenedRun(a: Account)
    requires Fresh(a)
    ensures Run(NO_BOOKS, [] + [Open(a)]) == Books([a], [], [])
  {
    RunMore(NO_BOOKS, [], Open(a));
    assert [] + [a] == [a];
  }

  lemma LateCancellation(a: Account, e: Event)
    requires Fresh(a) && Collected(a) > 0
    requires e.CancelBooking? && e.booking == 0 && e.actor == CustomerSelf(a.customer) && e.now > a.start - e.deadlineHours * HOUR_MS
    ensures Accepts(Books([a], [], []), e) && PaymentAfter(Books([a], [], []), e, 0) == Forfeited && a.payment != Forfeited
  {
  }

  /** A booking with money collected is cancelled by its customer after the deadline. */
  lemma LateCancellationLeavesEdges(a: Account, deadlineHours: int, now: int)
    requires Fresh(a) && Collected(a) > 0 && now > a.start - deadlineHours * HOUR_MS
    ensures LeavesEdges([] + [Open(a)], CancelBooking(0, CustomerSelf(a.customer), Auto, deadlineHours, now))
  {
    OpenedRun(a);
    LateCancellation(a, CancelBooking(0, CustomerSelf(a.customer), Auto, deadlineHours, now));
    if PaymentReaches(a.payment, Forfeited) { PaymentEnds(a.payment, Forfeited); }
  }

  /** A refund requested before a cancellation is approved after it; the cancellation may have refunded
      everything or kept it. */
  lemma LateApprovalLeavesEdges(a: Account, x: int, deadlineHours: int, now: int)
    requires Fresh(a) && Refundable(a.payment) && 0 < x < Collected(a)
    ensures var cancel := CancelBooking(0, CustomerSelf(a.customer), Auto, deadlineHours, now);
      LeavesEdges([] + [Open(a)] + [RequestRefund(0, x)] + [cancel], ApproveRefund(0))
  {
    var cancel := CancelBooking(0, CustomerSelf(a.customer), Auto, deadlineHours, now);
    var requested := [] + [Open(a)] + [RequestRefund(0, x)];
    RequestedRun(a, x);
    RunMore(NO_BOOKS, requested, cancel);
    RunsKeepBooks(NO_BOOKS, requested + [cancel]);
    OnePending(x);
    CancelledWithPending(a, x, cancel);
    PaymentFollowsEdgesIff(Run(NO_BOOKS, requested + [cancel]), ApproveRefund(0), 0);
  }

  lemma CancelledWithPending(a: Account, x: int, cancel: Event)
    requires Fresh(a) && Refundable(a.payment) && 0 < x < Collected(a)
    requires cancel.CancelBooking? && cancel.booking == 0 && cancel.actor == CustomerSelf(a.customer)
    ensures var books := Step(Books([a], [Refund(0, x, Pending)], []), cancel);
      && |books.accounts| == 1 && Collected(books.accounts[0]) == Collected(a)
      && books.refunds == [Refund(0, x, Pending)]
      && books.accounts[0].payment in {FullyRefunded, Forfeited}
  {
  }

  /** Without any cancellation: refunds of x and y are requested, the booking is settled to x, the first is approved
      in full, the booking is settled to more than both, and the second is approved. */
  lemma ReopenedBySettlement(a: Account, x: int, y: int, z: int)
    requires Fresh(a) && Refundable(a.payment) && 0 < x && 0 < y && x + y <= Collected(a) && x + y < z
    ensures LeavesEdges([] + [Open(a)] + [RequestRefund(0, x)] + [RequestRefund(0, y)] + [SettleTo(x)] + [ApproveRefund(0)] + [SettleTo(z)],
                        ApproveRefund(1))
  {
    var requested := [] + [Open(a)] + [RequestRefund(0, x)];
    RequestedRun(a, x);
    RunMore(NO_BOOKS, requested, RequestRefund(0, y));
    RunMore(NO_BOOKS, requested + [RequestRefund(0, y)], SettleTo(x));
    RunMore(NO_BOOKS, requested + [RequestRefund(0, y)] + [SettleTo(x)], ApproveRefund(0));
    RunMore(NO_BOOKS, requested + [RequestRefund(0, y)] + [SettleTo(x)] + [ApproveRefund(0)], SettleTo(z));
    BothRequested(a, x, y);
    ClosedThenRaised(a, x, y, z);
    ReopenedAt(Run(NO_BOOKS, requested + [RequestRefund(0, y)] + [SettleTo(x)] + [ApproveRefund(0)] + [SettleTo(z)]), x, y);
  }

  lemma ReopenedAt(books: Books, x: int, y: int)
    requires |books.accounts| == 1 && books.accounts[0].payment == FullyRefunded && 0 < y && x + y < Collected(books.accounts[0])
    requires books.refunds == [Refund(0, x, Approved), Refund(0, y, Pending)]
    ensures Accepts(books, ApproveRefund(1))
    ensures !PaymentReaches(books.accounts[0].payment, PaymentAfter(books, ApproveRefund(1), 0))
  {
    ApprovedThenPending(x, y);
    if PaymentReaches(FullyRefunded, PartiallyRefunded) { PaymentEnds(FullyRefunded, PartiallyRefunded); }
  }

  function SettleTo(x: int): Event {
    Settle(0, Some(x), Some(true), Some(0), None, None)
  }

  lemma BothRequested(a: Account, x: int, y: int)
    requires Fresh(a) && Refundable(a.payment) && 0 < x && 0 < y && x + y <= Collected(a)
    ensures Step(Books([a], [Refund(0, x, Pending)], []), RequestRefund(0, y)) ==
      Books([a], [Refund(0, x, Pending), Refund(0, y, Pending)], [])
  {
    OnePending(x);
    RefundTotalAppend([], Refund(0, x, Pending), 0, Pending);
    assert [] + [Refund(0, x, Pending)] == [Refund(0, x, Pending)];
    assert [Refund(0, x, Pending)] + [Refund(0, y, Pending)] == [Refund(0, x, Pending), Refund(0, y, Pending)];
  }

  lemma ApprovedThenPending(x: int, y: int)
    ensures RefundTotal([Refund(0, x, Pending), Refund(0, y, Pending)], 0, Approved) == 0
    ensures RefundTotal([Refund(0, x, Approved), Refund(0, y, Pending)], 0, Approved) == x
  {
    assert [Refund(0, x, Pending)] + [Refund(0, y, Pending)] == [Refund(0, x, Pending), Refund(0, y, Pending)];
    assert [Refund(0, x, Approved)] + [Refund(0, y, Pending)] == [Refund(0, x, Approved), Refund(0, y, Pending)];
    assert [] + [Refund(0, x, Approved)] == [Refund(0, x, Approved)];
    OnePending(x);
    RefundTotalAppend([], Refund(0, x, Approved), 0, Approved);
    RefundTotalAppend([Refund(0, x, Pending)], Refund(0, y, Pending), 0, Approved);
    RefundTotalAppend([Refund(0, x, Approved)], Refund(0, y, Pending), 0, Approved);
  }

  lemma ClosedThenRaised(a: Account, x: int, y: int, z: int)
    requires Fresh(a) && 0 < x && 0 < y && x + y < z
    ensures var refunds := [Refund(0, x, Pending), Refund(0, y, Pending)];
      var books := Step(Step(Step(Books([a], refunds, []), SettleTo(x)), ApproveRefund(0)), SettleTo(z));
      && |books.accounts| == 1 && books.accounts[0].payment == FullyRefunded && Collected(books.accounts[0]) == z
      && books.refunds == [Refund(0, x, Approved), Refund(0, y, Pending)]
  {
    ApprovedThenPending(x, y);
    var settled := Step(Books([a], [Refund(0, x, Pending), Refund(0, y, Pending)], []), SettleTo(x));
    assert Collected(settled.accounts[0]) == x && !Closed(settled.accounts[0].status);
    var approved := Step(settled, ApproveRefund(0));
    assert approved.refunds == [Refund(0, x, Approved), Refund(0, y, Pending)];
  }
}
