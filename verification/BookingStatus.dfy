// The booking and payment state machines.

module BookingStatus {

  datatype Status =
    | Draft | PendingDeposit | PendingVerification | Confirmed | CheckedIn
    | Completed | Cancelled | NoShow | Expired

  function Transitions(from: Status): set<Status> {
    match from
    case Draft => {PendingDeposit, Cancelled, Expired}
    case PendingDeposit => {PendingVerification, Cancelled, Expired}
    case PendingVerification => {Confirmed, PendingVerification, Cancelled}
    case Confirmed => {CheckedIn, Cancelled, NoShow}
    case CheckedIn => {Completed}
    case Completed => {}
    case Cancelled => {}
    case NoShow => {}
    case Expired => {}
  }

  predicate CanTransition(from: Status, to: Status) {
    to in Transitions(from)
  }

  predicate IsTerminal(s: Status) {
    Transitions(s) == {}
  }

  /** The statuses under which a booking holds its court. */
  predicate Occupies(s: Status) {
    s in {Draft, PendingDeposit, PendingVerification, Confirmed, CheckedIn}
  }

  /** A walk along the documented edges. */
  predicate IsPath(path: seq<Status>) {
    |path| >= 1 && forall i :: 0 <= i < |path| - 1 ==> CanTransition(path[i], path[i + 1])
  }

  ghost predicate Reaches(from: Status, to: Status) {
    exists path :: IsPath(path) && path[0] == from && path[|path| - 1] == to
  }

  lemma ReachesByEdge(from: Status, to: Status)
    requires CanTransition(from, to)
    ensures Reaches(from, to)
  {
    assert IsPath([from, to]);
  }

  lemma ReachesItself(s: Status)
    ensures Reaches(s, s)
  {
    assert IsPath([s]);
  }

  lemma ReachesTransitive(a: Status, b: Status, c: Status)
    requires Reaches(a, b) && Reaches(b, c)
    ensures Reaches(a, c)
  {
    var p :| IsPath(p) && p[0] == a && p[|p| - 1] == b;
    var q :| IsPath(q) && q[0] == b && q[|q| - 1] == c;
    var whole := p + q[1..];
    forall i | 0 <= i < |whole| - 1
      ensures CanTransition(whole[i], whole[i + 1])
    {
      if i >= |p| - 1 { assert whole[i] == q[i - |p| + 1] && whole[i + 1] == q[i - |p| + 2]; }
    }
    assert IsPath(whole);
  }

  /** Once a booking has given up its court, no path brings it back; and nothing else is final. */
  lemma TerminalIffCourtReleased(from: Status, to: Status)
    ensures IsTerminal(from) <==> !Occupies(from)
    ensures !Occupies(from) && Reaches(from, to) ==> to == from
  {
    if !Occupies(from) && Reaches(from, to) {
      var path :| IsPath(path) && path[0] == from && path[|path| - 1] == to;
      assert |path| > 1 ==> CanTransition(path[0], path[1]);
    }
    if Occupies(from) {
      assert Cancelled in Transitions(from) || Completed in Transitions(from);
    }
  }

  /** The table read backwards: what may come right before each status. Nothing returns to a draft, only the desk's draft
      awaits a deposit, confirmation follows verification, and cancelling ends everything short of check-in. */
  lemma EnteredFrom(from: Status)
    ensures !CanTransition(from, Draft)
    ensures CanTransition(from, PendingDeposit) <==> from == Draft
    ensures CanTransition(from, PendingVerification) <==> from == PendingDeposit || from == PendingVerification
    ensures CanTransition(from, Confirmed) <==> from == PendingVerification
    ensures CanTransition(from, CheckedIn) <==> from == Confirmed
    ensures CanTransition(from, NoShow) <==> from == Confirmed
    ensures CanTransition(from, Completed) <==> from == CheckedIn
    ensures CanTransition(from, Expired) <==> from == Draft || from == PendingDeposit
    ensures CanTransition(from, Cancelled) <==> Occupies(from) && from != CheckedIn
  {
  }

  /** Who asks for a cancellation: staff may cancel any booking, customers their own, coaches none. */
  datatype Actor = Staff | CustomerSelf(user: nat) | Coach

  predicate MayCancel(actor: Actor, customer: nat) {
    actor.Staff? || actor == CustomerSelf(customer)
  }

  datatype PaymentStatus =
    | DepositPending | DepositApproved | DepositRejected | RemainingBalancePending
    | PaidInFull | PartiallyRefunded | FullyRefunded | Forfeited

  function PaymentTransitions(from: PaymentStatus): set<PaymentStatus> {
    match from
    case DepositPending => {DepositApproved, DepositRejected}
    case DepositApproved => {RemainingBalancePending, PartiallyRefunded, FullyRefunded}
    case DepositRejected => {DepositPending}
    case RemainingBalancePending => {PaidInFull}
    case PaidInFull => {PartiallyRefunded, FullyRefunded}
    case PartiallyRefunded => {FullyRefunded}
    case FullyRefunded => {}
    case Forfeited => {}
  }

  predicate IsPaymentPath(path: seq<PaymentStatus>) {
    |path| >= 1 && forall i :: 0 <= i < |path| - 1 ==> path[i + 1] in PaymentTransitions(path[i])
  }

  ghost predicate PaymentReaches(from: PaymentStatus, to: PaymentStatus) {
    exists path :: IsPaymentPath(path) && path[0] == from && path[|path| - 1] == to
  }

  lemma PaymentPath(path: seq<PaymentStatus>)
    requires IsPaymentPath(path)
    ensures PaymentReaches(path[0], path[|path| - 1])
  {
  }

  /** No edge leaves fully_refunded or forfeited, and none enters forfeited. */
  lemma PaymentEnds(from: PaymentStatus, to: PaymentStatus)
    requires PaymentReaches(from, to)
    ensures from == FullyRefunded || from == Forfeited || to == Forfeited ==> from == to
  {
    var path :| IsPaymentPath(path) && path[0] == from && path[|path| - 1] == to;
    assert |path| > 1 ==> path[1] in PaymentTransitions(path[0]);
    assert |path| > 1 ==> path[|path| - 2 + 1] in PaymentTransitions(path[|path| - 2]);
  }

  /** The payment table read backwards. */
  lemma PaymentEnteredFrom(from: PaymentStatus)
    ensures DepositPending in PaymentTransitions(from) <==> from == DepositRejected
    ensures DepositApproved in PaymentTransitions(from) <==> from == DepositPending
    ensures DepositRejected in PaymentTransitions(from) <==> from == DepositPending
    ensures RemainingBalancePending in PaymentTransitions(from) <==> from == DepositApproved
    ensures PaidInFull in PaymentTransitions(from) <==> from == RemainingBalancePending
    ensures PartiallyRefunded in PaymentTransitions(from) <==> from == DepositApproved || from == PaidInFull
    ensures FullyRefunded in PaymentTransitions(from) <==> from in {DepositApproved, PaidInFull, PartiallyRefunded}
    ensures Forfeited !in PaymentTransitions(from)
  {
  }
}
