// What a settlement can upset, since it changes what was collected whatever has been claimed or paid back. For each
// of three promises about one booking: over any run it holds throughout if and only if no step of the run is of a
// kind told from the books before it.

module RefundCoverage {
  import opened Options
  import opened BookingStatus
  import opened Finance
  import opened FinanceRuns
  import opened MoneyTheorems

  // ---- Claims stay within what was collected ----

  /** If it settles booking b, the settlement leaves at least what is claimed. */
  predicate Covers(books: Books, e: Event, b: nat) {
    e.Settle? && e.booking == b && Accepts(books, e) ==>
      Claimed(books.refunds, b) <= Collected(Settled(books.accounts[b], e))
  }

  predicate CoveringRun(books: Books, events: seq<Event>, b: nat)
    decreases |events|
  {
    events == [] || (Covers(books, events[0], b) && CoveringRun(Step(books, events[0]), events[1..], b))
  }

  predicate Covered(books: Books, b: nat) {
    b < |books.accounts| ==> Claimed(books.refunds, b) <= Collected(books.accounts[b])
  }

  /** At every moment of the run, pending and approved refunds of b stay within what was collected. */
  predicate CoveredThroughout(books: Books, events: seq<Event>, b: nat)
    decreases |events|
  {
    Covered(books, b) && (events == [] || CoveredThroughout(Step(books, events[0]), events[1..], b))
  }

  /** The sums of b after a step: one more request, one rejection less, one approval moved, or as before. */
  lemma SumsAfter(books: Books, e: Event, b: nat)
    requires WellFormed(books) && Accepts(books, e)
    ensures var s, s' := SumsOf(books, b), SumsOf(Apply(books, e), b);
      var resolved := if e.ApproveRefund? || e.RejectRefund? then Part(books, e.refund, b) else 0;
      && s'.pending == s.pending + (if e.RequestRefund? && e.booking == b then e.amount else 0) - resolved
      && s'.approved == s.approved + (if e.ApproveRefund? then resolved else 0)
      && 0 <= resolved
      && (resolved > 0 <==> (e.ApproveRefund? || e.RejectRefund?) && books.refunds[e.refund].booking == b)
  {
    match e
    case RequestRefund(_, _) => RequestSums(books, e, b);
    case ApproveRefund(r) =>
      ApproveSums(books, r, b);
      PendingPart(books, r, b);
    case RejectRefund(r) =>
      RejectSums(books, r, b);
      PendingPart(books, r, b);
    case CancelBooking(_, _, _, _, _) => CancelSums(books, e, b);
    case _ =>
  }

  lemma NewBookingUnclaimed(books: Books)
    requires WellFormed(books)
    ensures var s := SumsOf(books, |books.accounts|); s.pending == s.approved == 0
  {
    NoRefundsNoTotal(books.refunds, |books.accounts|, Pending);
    NoRefundsNoTotal(books.refunds, |books.accounts|, Approved);
  }

  /** But for settlements, what was collected stays, or nothing was claimed yet. */
  lemma CollectedAfter(books: Books, e: Event, b: nat)
    requires b < |books.accounts| && SoundAt(books, b) && Accepts(books, e)
    ensures b < |Apply(books, e).accounts|
    ensures var a, a' := books.accounts[b], Apply(books, e).accounts[b];
      && (e.Settle? && e.booking == b ==> a' == Settled(a, e))
      && (!(e.Settle? && e.booking == b) ==> Collected(a') == Collected(a) || (Claimed(books.refunds, b) == 0 && Collected(a') >= 0))
  {
  }

  lemma NewBookingIsPaid(books: Books, e: Event)
    requires WellFormed(books) && e.Open? && Accepts(books, e)
    ensures var b := |books.accounts|; Collected(Apply(books, e).accounts[b]) >= 0
    ensures var s := SumsOf(Apply(books, e), |books.accounts|); s.pending == s.approved == 0
  {
    SumsAfter(books, e, |books.accounts|);
    NewBookingUnclaimed(books);
  }

  lemma StepCoversIff(books: Books, e: Event, b: nat)
    requires BooksSound(books) && Covered(books, b)
    ensures Covered(Step(books, e), b) <==> Covers(books, e, b)
  {
    if Accepts(books, e) {
      if b < |books.accounts| {
        assert SoundAt(books, b);
        CollectedAfter(books, e, b);
        ClaimsAfter(books, e, b);
      } else if e.Open? {
        NewBookingIsPaid(books, e);
      }
    }
  }

  lemma ClaimsAfter(books: Books, e: Event, b: nat)
    requires WellFormed(books) && Accepts(books, e)
    ensures var s, s' := SumsOf(books, b), SumsOf(Apply(books, e), b);
      && s'.pending + s'.approved <= s.pending + s.approved + (if e.RequestRefund? && e.booking == b then e.amount else 0)
      && (e.Settle? ==> s' == s)
  {
    SumsAfter(books, e, b);
  }

  /** The claims against b stay covered throughout exactly when every settlement of b leaves them covered. */
  lemma {:induction false} CoveredThroughoutIff(books: Books, events: seq<Event>, b: nat)
    requires BooksSound(books) && Covered(books, b)
    ensures CoveredThroughout(books, events, b) <==> CoveringRun(books, events, b)
    ensures CoveringRun(books, events, b) ==> Covered(Run(books, events), b)
    decreases |events|
  {
    if events != [] {
      var next := Step(books, events[0]);
      StepCoversIff(books, events[0], b);
      StepKeepsBooks(books, events[0]);
      if Covers(books, events[0], b) {
        CoveredThroughoutIff(next, events[1..], b);
      } else {
        assert !CoveredThroughout(next, events[1..], b);
      }
    }
  }

  /** The re-check at approval time never refuses a pending refund, whatever happened since it was requested,
      as long as settlements of its booking left the claims covered. */
  lemma ApprovalNeverRefused(events: seq<Event>, r: nat)
    requires r < |Run(NO_BOOKS, events).refunds| && Run(NO_BOOKS, events).refunds[r].status == Pending
    requires CoveringRun(NO_BOOKS, events, Run(NO_BOOKS, events).refunds[r].booking)
    ensures Accepts(Run(NO_BOOKS, events), ApproveRefund(r))
  {
    var books := Run(NO_BOOKS, events);
    var b := books.refunds[r].booking;
    RunsKeepBooks(NO_BOOKS, events);
    CoveredThroughoutIff(NO_BOOKS, events, b);
    RefundTotalBounds(books.refunds, b, Pending, r);
  }

  /** A settlement that takes the money back out strands the refund requested before it. */
  lemma SettlementStrandsRefund(a: Account, x: int) returns (events: seq<Event>)
    requires Fresh(a) && Refundable(a.payment) && 0 < x <= Collected(a)
    ensures var books := Run(NO_BOOKS, events);
      |books.refunds| == 1 && books.refunds[0].status == Pending && !Accepts(books, ApproveRefund(0))
    ensures !CoveringRun(NO_BOOKS, events, 0)
  {
    var settle := Settle(0, Some(0), None, Some(0), None, None);
    var requested := [] + [Open(a)] + [RequestRefund(0, x)];
    RequestedRun(a, x);
    RunMore(NO_BOOKS, requested, settle);
    events := requested + [settle];
    Stranded(a, x, settle);
    if CoveringRun(NO_BOOKS, events, 0) { ApprovalNeverRefused(events, 0); }
  }

  lemma Stranded(a: Account, x: int, settle: Event)
    requires Fresh(a) && Refundable(a.payment) && 0 < x && settle == Settle(0, Some(0), None, Some(0), None, None)
    ensures var books := Step(Books([a], [Refund(0, x, Pending)], []), settle);
      books.refunds == [Refund(0, x, Pending)] && !Accepts(books, ApproveRefund(0))
  {
    OnePending(x);
  }

  // ---- No more is paid back than was collected ----

  predicate Overpaid(books: Books, b: nat) {
    b < |books.accounts| && LedgerTotal(books.ledger, b, RefundDebit) > Collected(books.accounts[b])
  }

  /** The three ways to pay too much: settling below what was approved, a cancellation that refunds everything after
      an approval, and an approval after such a cancellation. */
  predicate Overpays(books: Books, e: Event, b: nat) {
    Accepts(books, e) && b < |books.accounts| &&
    var a, approved := books.accounts[b], RefundTotal(books.refunds, b, Approved);
    match e
    case Settle(t, _, _, _, _, _) => t == b && approved > Collected(Settled(a, e))
    case CancelBooking(t, actor, override, deadlineHours, now) =>
      t == b && approved > 0 && DecisionFor(a, actor, override, deadlineHours, now) == RefundAll
    case ApproveRefund(r) => books.refunds[r].booking == b && a.decision == Some(RefundAll)
    case _ => false
  }

  predicate NeverOverpaid(books: Books, events: seq<Event>, b: nat)
    decreases |events|
  {
    !Overpaid(books, b) && (events == [] || NeverOverpaid(Step(books, events[0]), events[1..], b))
  }

  predicate NothingOverpays(books: Books, events: seq<Event>, b: nat)
    decreases |events|
  {
    events == [] || (!Overpays(books, events[0], b) && NothingOverpays(Step(books, events[0]), events[1..], b))
  }

  lemma StepOverpaysIff(books: Books, e: Event, b: nat)
    requires BooksSound(books) && !Overpaid(books, b)
    ensures Overpaid(Step(books, e), b) <==> Overpays(books, e, b)
  {
    if Accepts(books, e) {
      if b < |books.accounts| {
        assert SoundAt(books, b);
        ExistingOverpaysIff(books, e, b);
      } else if e.Open? {
        NewBookingIsPaid(books, e);
        NewBookingIsSound(books, e);
      }
    }
  }

  lemma ExistingOverpaysIff(books: Books, e: Event, b: nat)
    requires WellFormed(books) && b < |books.accounts| && SoundAt(books, b) && !Overpaid(books, b) && Accepts(books, e)
    ensures Overpaid(Apply(books, e), b) <==> Overpays(books, e, b)
  {
    StepKeepsBooking(books, e, b);
    SumsAfter(books, e, b);
    CollectedAfter(books, e, b);
  }

  /** The customer of b is at no moment paid back more than was collected exactly when none of the three happens. */
  lemma {:induction false} NeverOverpaidIff(books: Books, events: seq<Event>, b: nat)
    requires BooksSound(books) && !Overpaid(books, b)
    ensures NeverOverpaid(books, events, b) <==> NothingOverpays(books, events, b)
    decreases |events|
  {
    if events != [] {
      var next := Step(books, events[0]);
      StepOverpaysIff(books, events[0], b);
      StepKeepsBooks(books, events[0]);
      if Overpays(books, events[0], b) {
        assert !NeverOverpaid(next, events[1..], b);
      } else {
        NeverOverpaidIff(next, events[1..], b);
      }
    }
  }

  // ---- The payment status tells a full refund from a partial one ----

  /** Unless a cancellation settled it, the payment of b is fully refunded exactly when all that was collected was
      paid back, and partially refunded exactly when some but not all was. */
  predicate Mirrored(books: Books, b: nat) {
    b < |books.accounts| && books.accounts[b].decision in {None, Some(NothingToRefund)} ==>
      var a, approved := books.accounts[b], RefundTotal(books.refunds, b, Approved);
      && (a.payment == FullyRefunded <==> 0 < approved == Collected(a))
      && (a.payment == PartiallyRefunded <==> 0 < approved < Collected(a))
  }

  predicate MirroredThroughout(books: Books, events: seq<Event>, b: nat)
    decreases |events|
  {
    Mirrored(books, b) && (events == [] || MirroredThroughout(Step(books, events[0]), events[1..], b))
  }

  /** If it settles booking b after a refund was approved, the amount collected stays equal to what was approved or
      stays above it. */
  predicate KeepsSide(books: Books, e: Event, b: nat) {
    e.Settle? && e.booking == b && Accepts(books, e) ==>
      var approved, before, after := RefundTotal(books.refunds, b, Approved), Collected(books.accounts[b]), Collected(Settled(books.accounts[b], e));
      approved > 0 ==> approved <= after && (approved == before <==> approved == after)
  }

  predicate SideKeepingRun(books: Books, events: seq<Event>, b: nat)
    decreases |events|
  {
    events == [] || (KeepsSide(books, events[0], b) && SideKeepingRun(Step(books, events[0]), events[1..], b))
  }

  lemma SettlementMirrorsIff(books: Books, e: Event, b: nat)
    requires BooksSound(books) && Mirrored(books, b) && e.Settle? && e.booking == b && Accepts(books, e)
    ensures Mirrored(Apply(books, e), b) <==> KeepsSide(books, e, b)
  {
    assert SoundAt(books, b);
  }

  /** Nothing approved, nothing to mirror. */
  lemma MirroredWithoutApproval(books: Books, b: nat)
    requires BooksSound(books) && SumsOf(books, b).approved == 0
    ensures Mirrored(books, b)
  {
    if b < |books.accounts| { assert SoundAt(books, b); }
  }

  lemma ApprovalMirrors(books: Books, r: nat, b: nat)
    requires BooksSound(books) && Mirrored(books, b) && b < |books.accounts| && Accepts(books, ApproveRefund(r))
    ensures Mirrored(Apply(books, ApproveRefund(r)), b)
  {
    ApproveSums(books, r, b);
    PendingPart(books, r, b);
    assert SoundAt(books, b);
  }

  /** A payment with approved refunds is touched by settlements, approvals and a cancellation only. */
  lemma EngagedStays(books: Books, e: Event, b: nat)
    requires b < |books.accounts| && SoundAt(books, b) && SumsOf(books, b).approved > 0 && Accepts(books, e)
    requires !(e.Settle? && e.booking == b) && !e.ApproveRefund?
    ensures b < |Apply(books, e).accounts|
    ensures var a, a' := books.accounts[b], Apply(books, e).accounts[b];
      Collected(a') == Collected(a) &&
      (a'.decision in {None, Some(NothingToRefund)} ==> a'.payment == a.payment && a.decision in {None, Some(NothingToRefund)})
  {
  }

  lemma OtherStepsKeepMirror(books: Books, e: Event, b: nat)
    requires BooksSound(books) && Mirrored(books, b) && Accepts(books, e) && b < |books.accounts|
    requires !(e.Settle? && e.booking == b) && !e.ApproveRefund? && SumsOf(books, b).approved > 0
    ensures Mirrored(Apply(books, e), b)
  {
    SumsAfter(books, e, b);
    EngagedStays(books, e, b);
  }

  lemma StepMirrorsIff(books: Books, e: Event, b: nat)
    requires BooksSound(books) && Mirrored(books, b)
    ensures Mirrored(Step(books, e), b) <==> KeepsSide(books, e, b)
  {
    StepKeepsBooks(books, e);
    if !Accepts(books, e) {
    } else if e.Settle? && e.booking == b {
      SettlementMirrorsIff(books, e, b);
    } else if b < |books.accounts| && e.ApproveRefund? {
      ApprovalMirrors(books, e.refund, b);
    } else if b < |books.accounts| && SumsOf(books, b).approved > 0 {
      OtherStepsKeepMirror(books, e, b);
    } else {
      if b < |Apply(books, e).accounts| { NothingApprovedAfter(books, e, b); }
    }
  }

  lemma NothingApprovedAfter(books: Books, e: Event, b: nat)
    requires BooksSound(books) && Accepts(books, e) && BooksSound(Apply(books, e))
    requires if b < |books.accounts| then !e.ApproveRefund? && SumsOf(books, b).approved <= 0 else b < |Apply(books, e).accounts|
    ensures Mirrored(Apply(books, e), b)
  {
    SumsAfter(books, e, b);
    if b < |books.accounts| { assert SoundAt(books, b); } else { NewBookingIsPaid(books, e); }
    MirroredWithoutApproval(Apply(books, e), b);
  }

  lemma {:induction false} MirroredThroughoutIff(books: Books, events: seq<Event>, b: nat)
    requires BooksSound(books) && Mirrored(books, b)
    ensures MirroredThroughout(books, events, b) <==> SideKeepingRun(books, events, b)
    ensures SideKeepingRun(books, events, b) ==> Mirrored(Run(books, events), b)
    decreases |events|
  {
    if events != [] {
      var next := Step(books, events[0]);
      StepMirrorsIff(books, events[0], b);
      StepKeepsBooks(books, events[0]);
      if KeepsSide(books, events[0], b) {
        MirroredThroughoutIff(next, events[1..], b);
      } else {
        assert !MirroredThroughout(next, events[1..], b);
      }
    }
  }

  // ---- The usual case ----

  /** Settling changes what was collected for booking b only while no refund of b is claimed. */
  predicate Quiet(books: Books, e: Event, b: nat) {
    e.Settle? && e.booking == b && b < |books.accounts| ==>
      Claimed(books.refunds, b) == 0 || Collected(Settled(books.accounts[b], e)) == Collected(books.accounts[b])
  }

  predicate QuietRun(books: Books, events: seq<Event>, b: nat)
    decreases |events|
  {
    events == [] || (Quiet(books, events[0], b) && QuietRun(Step(books, events[0]), events[1..], b))
  }

  lemma {:induction false} QuietRunsKeepBoth(books: Books, events: seq<Event>, b: nat)
    requires BooksSound(books) && Covered(books, b) && QuietRun(books, events, b)
    ensures CoveringRun(books, events, b) && SideKeepingRun(books, events, b)
    decreases |events|
  {
    if events != [] {
      QuietKeepsBoth(books, events[0], b);
      StepCoversIff(books, events[0], b);
      StepKeepsBooks(books, events[0]);
      QuietRunsKeepBoth(Step(books, events[0]), events[1..], b);
    }
  }

  lemma QuietKeepsBoth(books: Books, e: Event, b: nat)
    requires BooksSound(books) && Covered(books, b) && Quiet(books, e, b)
    ensures Covers(books, e, b) && KeepsSide(books, e, b)
  {
    if b < |books.accounts| { assert SoundAt(books, b); }
  }

  /** If booking b is settled quietly, claims on it stay within what was collected, and its payment is fully refunded
      exactly when nothing is left to refund. */
  lemma RefundsStayCovered(events: seq<Event>, b: nat)
    requires QuietRun(NO_BOOKS, events, b) && b < |Run(NO_BOOKS, events).accounts|
    ensures var books := Run(NO_BOOKS, events); var a := books.accounts[b];
      var pending, approved := RefundTotal(books.refunds, b, Pending), RefundTotal(books.refunds, b, Approved);
      && 0 <= pending && 0 <= approved && pending + approved <= Collected(a)
      && (a.decision == None ==>
           && a.refunded == approved == LedgerTotal(books.ledger, b, RefundDebit)
           && (a.payment == FullyRefunded <==> 0 < approved == Collected(a))
           && (a.payment == PartiallyRefunded <==> 0 < approved < Collected(a)))
  {
    QuietRunsKeepBoth(NO_BOOKS, events, b);
    CoveredThroughoutIff(NO_BOOKS, events, b);
    MirroredThroughoutIff(NO_BOOKS, events, b);
    SoundRun(events, b);
  }
}
