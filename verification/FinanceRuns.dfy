// What every run of the money steps keeps, booking by booking, whatever is settled. The tables matter to a booking only
// through six sums; each step is first reduced to what it does to them.

module FinanceRuns {
  import opened Options
  import opened BookingStatus
  import opened Finance

  function ApprovedCount(refunds: seq<Refund>, b: nat): nat {
    if refunds == [] then 0 else
      var last := refunds[|refunds| - 1];
      ApprovedCount(refunds[..|refunds| - 1], b) + if last.booking == b && last.status == Approved then 1 else 0
  }

  /** A booking's pending and approved refunds, the number of the latter, and its ledger rows. */
  datatype Sums = Sums(pending: int, approved: int, approvals: int, debits: int, forfeits: int, rows: int)

  function SumsOf(books: Books, b: nat): Sums {
    Sums(RefundTotal(books.refunds, b, Pending), RefundTotal(books.refunds, b, Approved), ApprovedCount(books.refunds, b),
         LedgerTotal(books.ledger, b, RefundDebit), LedgerTotal(books.ledger, b, ForfeitIncome), RowsOf(books.ledger, b))
  }

  // ---- What a booking satisfies at every moment ----

  /** The payment has been approved at some time. */
  predicate Engaged(p: PaymentStatus) {
    p != DepositPending && p != DepositRejected
  }

  predicate StillPending(s: Status) {
    s in {Draft, PendingDeposit, PendingVerification}
  }

  /** Refunds are claimed only against approved payments, and a pending booking's payment is not approved. */
  predicate ClaimsEngaged(a: Account, s: Sums) {
    && a.deposit >= 0 && a.remainder >= 0
    && (Engaged(a.payment) ==> !StillPending(a.status))
    && (!Engaged(a.payment) ==> s.pending + s.approved == 0)
  }

  /** The ledger holds each approved refund and the cancellation's one entry. */
  predicate LedgerMatches(a: Account, s: Sums) {
    && s.debits == s.approved + a.refundAmount
    && s.forfeits == (if a.decision == Some(KeepAll) then Collected(a) else 0)
    && s.rows == s.approvals + if a.decision in {Some(RefundAll), Some(KeepAll)} then 1 else 0
  }

  /** The cancellation's decision is final and matches the money collected. */
  predicate DecisionHolds(a: Account) {
    && (a.decision.Some? ==> a.status == Cancelled)
    && a.refundAmount == (if a.decision == Some(RefundAll) then Collected(a) else 0)
    && (a.decision in {Some(RefundAll), Some(KeepAll)} ==> Collected(a) > 0)
    && (a.decision == Some(NothingToRefund) ==> Collected(a) <= 0)
  }

  /** Unless a cancellation settled the payment, it records what was approved and that something was. */
  predicate RefundsRecorded(a: Account, s: Sums) {
    a.decision in {None, Some(NothingToRefund)} ==>
      a.refunded == s.approved && (a.payment in {FullyRefunded, PartiallyRefunded} <==> s.approved > 0)
  }

  /** What holds of a booking in any run at all. No step ever stores remaining_balance_pending. */
  predicate Sound(a: Account, s: Sums) {
    && 0 <= s.pending && 0 <= s.approved
    && ClaimsEngaged(a, s) && LedgerMatches(a, s) && DecisionHolds(a) && RefundsRecorded(a, s)
    && (a.payment == Forfeited ==> a.decision == Some(KeepAll))
    && a.payment != RemainingBalancePending
  }

  predicate SoundAt(books: Books, b: nat)
    requires b < |books.accounts|
  {
    Sound(books.accounts[b], SumsOf(books, b))
  }

  predicate WellFormed(books: Books) {
    && PositiveRefunds(books.refunds)
    && (forall r :: 0 <= r < |books.refunds| ==> books.refunds[r].booking < |books.accounts|)
    && (forall i :: 0 <= i < |books.ledger| ==> books.ledger[i].booking < |books.accounts|)
  }

  predicate BooksSound(books: Books) {
    WellFormed(books) && forall b :: 0 <= b < |books.accounts| ==> SoundAt(books, b)
  }

  // ---- The sums of booking b after a step ----

  lemma {:induction false} ApprovedCountUpdate(refunds: seq<Refund>, r: nat, x: Refund, b: nat)
    requires r < |refunds|
    ensures ApprovedCount(refunds[r := x], b) == ApprovedCount(refunds, b)
      - (if refunds[r].booking == b && refunds[r].status == Approved then 1 else 0)
      + (if x.booking == b && x.status == Approved then 1 else 0)
  {
    var n := |refunds| - 1;
    if r < n {
      assert refunds[r := x][..n] == refunds[..n][r := x];
      ApprovedCountUpdate(refunds[..n], r, x, b);
    } else {
      assert refunds[r := x][..n] == refunds[..n];
    }
  }

  lemma {:induction false} NothingForBooking(refunds: seq<Refund>, ledger: seq<LedgerRow>, b: nat)
    requires forall r :: 0 <= r < |refunds| ==> refunds[r].booking != b
    requires forall i :: 0 <= i < |ledger| ==> ledger[i].booking != b
    ensures ApprovedCount(refunds, b) == 0 && RowsOf(ledger, b) == 0
    ensures LedgerTotal(ledger, b, RefundDebit) == 0 && LedgerTotal(ledger, b, ForfeitIncome) == 0
    decreases |refunds| + |ledger|
  {
    if refunds != [] { NothingForBooking(refunds[..|refunds| - 1], ledger, b); }
    if ledger != [] { NothingForBooking(refunds, ledger[..|ledger| - 1], b); }
  }

  /** The part of refund r that concerns booking b. */
  function Part(books: Books, r: nat, b: nat): int
    requires r < |books.refunds|
  {
    if books.refunds[r].booking == b then books.refunds[r].amount else 0
  }

  function One(books: Books, r: nat, b: nat): int
    requires r < |books.refunds|
  {
    if books.refunds[r].booking == b then 1 else 0
  }

  lemma RequestSums(books: Books, e: Event, b: nat)
    requires e.RequestRefund? && Accepts(books, e)
    ensures var s := SumsOf(books, b);
      SumsOf(Apply(books, e), b) == s.(pending := s.pending + if e.booking == b then e.amount else 0)
  {
    var x := Refund(e.booking, e.amount, Pending);
    RefundTotalAppend(books.refunds, x, b, Approved);
    RefundTotalAppend(books.refunds, x, b, Pending);
    assert (books.refunds + [x])[..|books.refunds|] == books.refunds;
  }

  lemma ResolveSums(refunds: seq<Refund>, r: nat, s: RefundStatus, b: nat)
    requires r < |refunds| && refunds[r].status == Pending && s != Pending
    ensures var refunds', part := refunds[r := refunds[r].(status := s)], if refunds[r].booking == b then refunds[r].amount else 0;
      && RefundTotal(refunds', b, Pending) == RefundTotal(refunds, b, Pending) - part
      && RefundTotal(refunds', b, Approved) == RefundTotal(refunds, b, Approved) + (if s == Approved then part else 0)
      && ApprovedCount(refunds', b) == ApprovedCount(refunds, b) + (if s == Approved && refunds[r].booking == b then 1 else 0)
  {
    var x := refunds[r].(status := s);
    RefundTotalUpdate(refunds, r, x, b, Pending);
    RefundTotalUpdate(refunds, r, x, b, Approved);
    ApprovedCountUpdate(refunds, r, x, b);
  }

  lemma RejectSums(books: Books, r: nat, b: nat)
    requires Accepts(books, RejectRefund(r))
    ensures var s := SumsOf(books, b);
      SumsOf(Apply(books, RejectRefund(r)), b) == s.(pending := s.pending - Part(books, r, b))
  {
    ResolveSums(books.refunds, r, Rejected, b);
  }

  lemma ApproveSums(books: Books, r: nat, b: nat)
    requires Accepts(books, ApproveRefund(r))
    ensures var s, part, one := SumsOf(books, b), Part(books, r, b), One(books, r, b);
      SumsOf(Apply(books, ApproveRefund(r)), b) ==
        Sums(s.pending - part, s.approved + part, s.approvals + one, s.debits + part, s.forfeits, s.rows + one)
  {
    var x := books.refunds[r];
    ResolveSums(books.refunds, r, Approved, b);
    LedgerAppend(books.ledger, LedgerRow(x.booking, RefundDebit, x.amount), b, RefundDebit);
    LedgerAppend(books.ledger, LedgerRow(x.booking, RefundDebit, x.amount), b, ForfeitIncome);
  }

  /** What the ledger of a booking becomes when it is cancelled. */
  function WithCancelRow(s: Sums, a: Account, d: Decision): Sums {
    match d
    case RefundAll => s.(debits := s.debits + Collected(a), rows := s.rows + 1)
    case KeepAll => s.(forfeits := s.forfeits + Collected(a), rows := s.rows + 1)
    case NothingToRefund => s
  }

  function DecisionOf(books: Books, e: Event): Decision
    requires e.CancelBooking? && e.booking < |books.accounts|
  {
    DecisionFor(books.accounts[e.booking], e.actor, e.override, e.deadlineHours, e.now)
  }

  lemma CancelSums(books: Books, e: Event, b: nat)
    requires e.CancelBooking? && Accepts(books, e)
    ensures var s := SumsOf(books, b);
      SumsOf(Apply(books, e), b) ==
        if e.booking == b then WithCancelRow(s, books.accounts[b], DecisionOf(books, e)) else s
  {
    var rows := CancelRows(books.accounts[e.booking], e.booking, DecisionOf(books, e));
    if DecisionOf(books, e) == NothingToRefund {
      assert books.ledger + rows == books.ledger;
    } else {
      LedgerAppend(books.ledger, rows[0], b, RefundDebit);
      LedgerAppend(books.ledger, rows[0], b, ForfeitIncome);
    }
  }

  /** A pending refund is part of what is pending. */
  lemma PendingPart(books: Books, r: nat, b: nat)
    requires WellFormed(books) && r < |books.refunds| && books.refunds[r].status == Pending
    ensures 0 < books.refunds[r].amount && 0 <= Part(books, r, b) <= SumsOf(books, b).pending
  {
    assert books.refunds[r].amount > 0;
    RefundTotalBounds(books.refunds, b, Pending, r);
  }

  // ---- What each step makes of a sound account ----

  lemma ApprovedStaysSound(a: Account, s: Sums, x: int)
    requires Sound(a, s) && 0 < x <= s.pending && s.approved + x <= Collected(a)
    ensures Sound(ApprovedAccount(a, s.approved + x),
                  Sums(s.pending - x, s.approved + x, s.approvals + 1, s.debits + x, s.forfeits, s.rows + 1))
  {
  }

  /** The approval may be of another booking's refund. */
  lemma ApprovedEitherWay(a: Account, s: Sums, own: bool, x: int)
    requires Sound(a, s) && (own ==> 0 < x <= s.pending && x <= NonNegative(Collected(a) - s.approved))
    ensures var part, one := if own then x else 0, if own then 1 else 0;
      Sound(if own then ApprovedAccount(a, s.approved + x) else a,
            Sums(s.pending - part, s.approved + part, s.approvals + one, s.debits + part, s.forfeits, s.rows + one))
  {
    if own { ApprovedStaysSound(a, s, x); }
  }

  /** Decided once, for what was collected. */
  lemma CancelledStaysSound(a: Account, s: Sums, d: Decision)
    requires Sound(a, s) && a.decision == None && (d == NothingToRefund <==> Collected(a) <= 0)
    ensures Sound(CancelledAccount(a, d), WithCancelRow(s, a, d))
  {
    assert Collected(CancelledAccount(a, d)) == Collected(a);
  }

  /** A pending booking has no claims and no decision, so its money may change freely. */
  lemma PendingStaysSound(a: Account, a': Account, s: Sums)
    requires Sound(a, s) && StillPending(a.status)
    requires a' == a.(status := a'.status, payment := a'.payment, deposit := a'.deposit, depositTaken := a'.depositTaken, depositStatus := a'.depositStatus)
    requires a'.deposit >= 0 && a'.payment in {DepositPending, DepositRejected, DepositApproved, PaidInFull}
    requires StillPending(a'.status) ==> a'.payment in {DepositPending, DepositRejected}
    ensures Sound(a', s)
  {
  }

  lemma AccountStepStaysSound(a: Account, s: Sums, books: Books, e: Event)
    requires Sound(a, s) && AccountOnly(e) && Accepts(books, e) && books.accounts[e.booking] == a
    ensures Sound(AccountAfter(a, e), s)
  {
    if e.VerifyDeposit? || e.UploadReceipt? || e.OnlinePayment? {
      PendingStaysSound(a, AccountAfter(a, e), s);
    }
  }

  lemma NewBookingIsSound(books: Books, e: Event)
    requires WellFormed(books) && e.Open? && Accepts(books, e)
    ensures SoundAt(Apply(books, e), |books.accounts|)
  {
    var b := |books.accounts|;
    NoRefundsNoTotal(books.refunds, b, Pending);
    NoRefundsNoTotal(books.refunds, b, Approved);
    NothingForBooking(books.refunds, books.ledger, b);
  }

  // ---- Each step ----

  lemma StepKeepsWellFormed(books: Books, e: Event)
    requires WellFormed(books)
    ensures WellFormed(Step(books, e))
  {
  }

  lemma ApprovedAccounts(books: Books, r: nat, b: nat)
    requires b < |books.accounts| && Accepts(books, ApproveRefund(r))
    ensures var a, after, x := books.accounts[b], Apply(books, ApproveRefund(r)).accounts, books.refunds[r];
      && |after| == |books.accounts|
      && after[b] == (if x.booking == b then ApprovedAccount(a, SumsOf(books, b).approved + x.amount) else a)
      && (x.booking == b ==> x.amount <= NonNegative(Collected(a) - SumsOf(books, b).approved))
  {
  }

  lemma ApproveKeeps(books: Books, r: nat, b: nat)
    requires WellFormed(books) && b < |books.accounts| && SoundAt(books, b) && Accepts(books, ApproveRefund(r))
    ensures b < |Apply(books, ApproveRefund(r)).accounts| && SoundAt(Apply(books, ApproveRefund(r)), b)
  {
    ApprovedAccounts(books, r, b);
    ApproveSums(books, r, b);
    PendingPart(books, r, b);
    ApprovedEitherWay(books.accounts[b], SumsOf(books, b), books.refunds[r].booking == b, books.refunds[r].amount);
  }

  lemma CancelledAccounts(books: Books, e: Event, b: nat)
    requires b < |books.accounts| && e.CancelBooking? && Accepts(books, e)
    ensures var a, after := books.accounts[b], Apply(books, e).accounts;
      |after| == |books.accounts| && after[b] == if e.booking == b then CancelledAccount(a, DecisionOf(books, e)) else a
    ensures e.booking == b ==> !Closed(books.accounts[b].status) && (DecisionOf(books, e) == NothingToRefund <==> Collected(books.accounts[b]) <= 0)
  {
  }

  lemma CancelKeeps(books: Books, e: Event, b: nat)
    requires b < |books.accounts| && SoundAt(books, b) && e.CancelBooking? && Accepts(books, e)
    ensures b < |Apply(books, e).accounts| && SoundAt(Apply(books, e), b)
  {
    CancelSums(books, e, b);
    CancelledAccounts(books, e, b);
    if e.booking == b {
      CancelledStaysSound(books.accounts[b], SumsOf(books, b), DecisionOf(books, e));
    }
  }

  lemma StepKeepsBooking(books: Books, e: Event, b: nat)
    requires WellFormed(books) && b < |books.accounts| && SoundAt(books, b) && Accepts(books, e)
    ensures b < |Apply(books, e).accounts| && SoundAt(Apply(books, e), b)
  {
    match e
    case Open(_) =>
    case RequestRefund(_, _) => RequestSums(books, e, b);
    case RejectRefund(r) =>
      RejectSums(books, r, b);
      PendingPart(books, r, b);
    case ApproveRefund(r) => ApproveKeeps(books, r, b);
    case CancelBooking(_, _, _, _, _) => CancelKeeps(books, e, b);
    case _ => if e.booking == b { AccountStepStaysSound(books.accounts[b], SumsOf(books, b), books, e); }
  }

  lemma StepKeepsBooks(books: Books, e: Event)
    requires BooksSound(books)
    ensures BooksSound(Step(books, e))
  {
    StepKeepsWellFormed(books, e);
    if Accepts(books, e) {
      forall b | 0 <= b < |Apply(books, e).accounts|
        ensures SoundAt(Apply(books, e), b)
      {
        if b < |books.accounts| { StepKeepsBooking(books, e, b); } else { NewBookingIsSound(books, e); }
      }
    }
  }

  /** Every booking stays sound in any run of any steps. */
  lemma {:induction false} RunsKeepBooks(books: Books, events: seq<Event>)
    requires BooksSound(books)
    ensures BooksSound(Run(books, events))
    decreases |events|
  {
    if events != [] {
      StepKeepsBooks(books, events[0]);
      RunsKeepBooks(Step(books, events[0]), events[1..]);
    }
  }
}
