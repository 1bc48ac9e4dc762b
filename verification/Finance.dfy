// Money collected for bookings, given back and kept: manual refunds (request, approve, reject), cancellation,
// settlement and the append-only ledger. Amounts are whole piastres.

module Finance {
  import opened Options
  import opened Instants
  import opened BookingStatus

  /** What a cancellation decided. */
  datatype Decision = NothingToRefund | RefundAll | KeepAll

  /** The summary the settlement screen shows. */
  datatype DepositStatus = NotPaid | DepositPaid | FullyPaid

  datatype Override = Auto | ForceRefund | ForceForfeit

  /** A booking with its payment row. depositTaken says that a payment method other than NONE is recorded;
      decision and refundAmount are written by cancelBooking only. */
  datatype Account = Account(
    customer: nat, status: Status, deleted: bool, start: int, total: int, discount: int,
    deposit: int, depositTaken: bool, remainder: int, remainderTaken: bool, depositStatus: DepositStatus,
    payment: PaymentStatus, refunded: int, decision: Option<Decision>, refundAmount: int)

  datatype RefundStatus = Pending | Approved | Rejected

  datatype Refund = Refund(booking: nat, amount: int, status: RefundStatus)

  datatype EntryType = RefundDebit | ForfeitIncome

  datatype LedgerRow = LedgerRow(booking: nat, kind: EntryType, amount: int)

  datatype Books = Books(accounts: seq<Account>, refunds: seq<Refund>, ledger: seq<LedgerRow>)

  // ---- Sums over the tables ----

  /** Money actually received. */
  function Collected(a: Account): int {
    (if a.depositTaken then a.deposit else 0) + (if a.remainderTaken then a.remainder else 0)
  }

  function RefundPart(r: Refund, b: nat, s: RefundStatus): int {
    if r.booking == b && r.status == s then r.amount else 0
  }

  function RefundTotal(refunds: seq<Refund>, b: nat, s: RefundStatus): int {
    if refunds == [] then 0 else
      RefundTotal(refunds[..|refunds| - 1], b, s) + RefundPart(refunds[|refunds| - 1], b, s)
  }

  function Claimed(refunds: seq<Refund>, b: nat): int {
    RefundTotal(refunds, b, Pending) + RefundTotal(refunds, b, Approved)
  }

  function LedgerPart(row: LedgerRow, b: nat, k: EntryType): int {
    if row.booking == b && row.kind == k then row.amount else 0
  }

  function LedgerTotal(ledger: seq<LedgerRow>, b: nat, k: EntryType): int {
    if ledger == [] then 0 else
      LedgerTotal(ledger[..|ledger| - 1], b, k) + LedgerPart(ledger[|ledger| - 1], b, k)
  }

  function RowsOf(ledger: seq<LedgerRow>, b: nat): nat {
    if ledger == [] then 0 else
      RowsOf(ledger[..|ledger| - 1], b) + if ledger[|ledger| - 1].booking == b then 1 else 0
  }

  function NonNegative(x: int): int {
    if x < 0 then 0 else x
  }

  // ---- The steps ----

  datatype Event =
    | Open(account: Account)
    | RequestRefund(booking: nat, amount: int)
    | ApproveRefund(refund: nat)
    | RejectRefund(refund: nat)
    | CancelBooking(booking: nat, actor: Actor, override: Override, deadlineHours: int, now: int)
    | Settle(booking: nat, deposit: Option<int>, depositTaken: Option<bool>,
             remainder: Option<int>, remainderTaken: Option<bool>, discount: Option<int>)
    | VerifyDeposit(booking: nat, approve: bool)
    | UploadReceipt(booking: nat)
    | OnlinePayment(booking: nat, amount: int)
    | MoveOn(booking: nat, to: Status)
    | DeleteBooking(booking: nat)

  /** How createBooking and createSubscription leave a new booking and its payment. */
  predicate Fresh(a: Account) {
    && !a.deleted && a.refunded == 0 && a.decision == None && a.refundAmount == 0
    && a.deposit >= 0 && a.remainder >= 0
    && (a.depositStatus == NotPaid <==> !a.depositTaken)
    && match a.payment
       case DepositPending => a.status in {Draft, PendingDeposit, Confirmed}
       case DepositApproved => a.status == Confirmed
       case PaidInFull => a.status == Confirmed
       case _ => false
  }

  predicate Refundable(p: PaymentStatus) {
    p in {DepositApproved, RemainingBalancePending, PaidInFull}
  }

  predicate Closed(s: Status) {
    s in {Cancelled, Completed, NoShow, Expired}
  }

  /** Staff may override the deadline policy; customers always follow it. */
  function DecisionFor(a: Account, actor: Actor, override: Override, deadlineHours: int, now: int): Decision {
    var choice := if actor.Staff? then override else Auto;
    if Collected(a) <= 0 then NothingToRefund
    else match choice
      case ForceRefund => RefundAll
      case ForceForfeit => KeepAll
      case Auto => if now > a.start - deadlineHours * HOUR_MS then KeepAll else RefundAll
  }

  /** Is the event accepted? A refused one changes nothing. */
  predicate Accepts(books: Books, e: Event) {
    match e
    case Open(a) => Fresh(a)
    case RequestRefund(b, amount) =>
      amount > 0 && b < |books.accounts| && Refundable(books.accounts[b].payment) &&
      amount <= NonNegative(Collected(books.accounts[b]) - Claimed(books.refunds, b))
    case ApproveRefund(r) =>
      r < |books.refunds| && books.refunds[r].status == Pending && books.refunds[r].booking < |books.accounts| &&
      books.refunds[r].amount <= NonNegative(
        Collected(books.accounts[books.refunds[r].booking]) - RefundTotal(books.refunds, books.refunds[r].booking, Approved))
    case RejectRefund(r) => r < |books.refunds| && books.refunds[r].status == Pending
    case CancelBooking(b, actor, _, _, _) =>
      b < |books.accounts| && !books.accounts[b].deleted && MayCancel(actor, books.accounts[b].customer) &&
      !Closed(books.accounts[b].status)
    case Settle(b, deposit, _, remainder, _, _) =>
      b < |books.accounts| && !Closed(books.accounts[b].status) &&
      (deposit.Some? ==> deposit.value >= 0) && (remainder.Some? ==> remainder.value >= 0)
    case VerifyDeposit(b, _) => b < |books.accounts| && books.accounts[b].status == PendingVerification
    case UploadReceipt(b) => b < |books.accounts| && books.accounts[b].status in {PendingDeposit, PendingVerification}
    case OnlinePayment(b, amount) =>
      b < |books.accounts| && amount > 0 && !books.accounts[b].deleted &&
      books.accounts[b].status in {PendingDeposit, PendingVerification}
    case MoveOn(b, to) =>
      b < |books.accounts| && to in {CheckedIn, NoShow, Expired, Cancelled} && CanTransition(books.accounts[b].status, to)
    case DeleteBooking(b) =>
      b < |books.accounts| && !books.accounts[b].deleted && forall r :: 0 <= r < |books.refunds| ==> books.refunds[r].booking != b
  }

  /** Nothing paid, everything paid, or something in between. */
  function DepositStatusOf(deposit: int, remainder: int, netPrice: int): DepositStatus {
    if deposit + remainder <= 0 then NotPaid
    else if netPrice > 0 && deposit + remainder >= netPrice then FullyPaid
    else DepositPaid
  }

  function Settled(a: Account, e: Event): Account
    requires e.Settle?
  {
    var settled := AmountsSettled(a, e);
    settled.(depositStatus :=
      DepositStatusOf(settled.deposit, settled.remainder, NonNegative(settled.total - settled.discount)))
  }

  function AmountsSettled(a: Account, e: Event): Account
    requires e.Settle?
  {
    a.(deposit := e.deposit.GetOr(a.deposit), depositTaken := e.depositTaken.GetOr(a.depositTaken),
       remainder := e.remainder.GetOr(a.remainder), remainderTaken := e.remainderTaken.GetOr(a.remainderTaken),
       discount := e.discount.GetOr(a.discount))
  }

  /** The webhook's booking branch: below the deposit it only flags, at or above it it confirms. */
  function PaidOnline(a: Account, amount: int): Account {
    if amount < a.deposit then
      if a.status == PendingDeposit then a.(status := PendingVerification, deposit := amount, depositTaken := true) else a
    else
      a.(status := Confirmed, deposit := amount, depositTaken := true,
         depositStatus := if amount >= NonNegative(a.total - a.discount) then FullyPaid else DepositPaid,
         payment := if amount >= NonNegative(a.total - a.discount) then PaidInFull else DepositApproved)
  }

  function CancelledAccount(a: Account, d: Decision): Account {
    var closed := a.(status := Cancelled, decision := Some(d), refundAmount := if d == RefundAll then Collected(a) else 0);
    match d
    case RefundAll => closed.(payment := FullyRefunded, refunded := Collected(a))
    case KeepAll => closed.(payment := Forfeited)
    case NothingToRefund => closed
  }

  function CancelRows(a: Account, b: nat, d: Decision): seq<LedgerRow> {
    match d
    case RefundAll => [LedgerRow(b, RefundDebit, Collected(a))]
    case KeepAll => [LedgerRow(b, ForfeitIncome, Collected(a))]
    case NothingToRefund => []
  }

  function ApprovedAccount(a: Account, approvedAfter: int): Account {
    a.(payment := if approvedAfter >= Collected(a) then FullyRefunded else PartiallyRefunded, refunded := approvedAfter)
  }

  /** Steps that touch neither refunds nor the ledger. */
  predicate AccountOnly(e: Event) {
    e.Settle? || e.VerifyDeposit? || e.UploadReceipt? || e.OnlinePayment? || e.MoveOn? || e.DeleteBooking?
  }

  /** What such a step makes of the account it names. */
  function AccountAfter(a: Account, e: Event): Account
    requires AccountOnly(e)
  {
    match e
    case Settle(_, _, _, _, _, _) => Settled(a, e)
    case VerifyDeposit(_, approve) =>
      if approve then a.(status := Confirmed, payment := DepositApproved) else a.(payment := DepositRejected)
    case UploadReceipt(_) =>
      a.(status := PendingVerification, payment := if a.payment == DepositRejected then DepositPending else a.payment)
    case OnlinePayment(_, amount) => PaidOnline(a, amount)
    case MoveOn(_, to) => a.(status := to)
    case DeleteBooking(_) => a.(status := Cancelled, deleted := true)
  }

  function Apply(books: Books, e: Event): Books
    requires Accepts(books, e)
  {
    match e
    case Open(a) => books.(accounts := books.accounts + [a])
    case RequestRefund(b, amount) => books.(refunds := books.refunds + [Refund(b, amount, Pending)])
    case ApproveRefund(r) =>
      var b, amount := books.refunds[r].booking, books.refunds[r].amount;
      Books(books.accounts[b := ApprovedAccount(books.accounts[b], RefundTotal(books.refunds, b, Approved) + amount)],
            books.refunds[r := books.refunds[r].(status := Approved)],
            books.ledger + [LedgerRow(b, RefundDebit, amount)])
    case RejectRefund(r) => books.(refunds := books.refunds[r := books.refunds[r].(status := Rejected)])
    case CancelBooking(b, actor, override, deadlineHours, now) =>
      var d := DecisionFor(books.accounts[b], actor, override, deadlineHours, now);
      books.(accounts := books.accounts[b := CancelledAccount(books.accounts[b], d)],
             ledger := books.ledger + CancelRows(books.accounts[b], b, d))
    case _ => books.(accounts := books.accounts[e.booking := AccountAfter(books.accounts[e.booking], e)])
  }

  /** Refused events leave the books alone. */
  function Step(books: Books, e: Event): Books {
    if Accepts(books, e) then Apply(books, e) else books
  }

  function Run(books: Books, events: seq<Event>): Books
    decreases |events|
  {
    if events == [] then books else Run(Step(books, events[0]), events[1..])
  }

  // ---- How the sums change ----

  lemma {:induction false} RefundTotalUpdate(refunds: seq<Refund>, r: nat, x: Refund, b: nat, s: RefundStatus)
    requires r < |refunds|
    ensures RefundTotal(refunds[r := x], b, s) == RefundTotal(refunds, b, s) - RefundPart(refunds[r], b, s) + RefundPart(x, b, s)
  {
    var n := |refunds| - 1;
    if r < n {
      assert refunds[r := x][..n] == refunds[..n][r := x];
      RefundTotalUpdate(refunds[..n], r, x, b, s);
    } else {
      assert refunds[r := x][..n] == refunds[..n];
    }
  }

  lemma RefundTotalAppend(refunds: seq<Refund>, x: Refund, b: nat, s: RefundStatus)
    ensures RefundTotal(refunds + [x], b, s) == RefundTotal(refunds, b, s) + RefundPart(x, b, s)
  {
    assert (refunds + [x])[..|refunds|] == refunds;
  }

  lemma LedgerAppend(ledger: seq<LedgerRow>, x: LedgerRow, b: nat, k: EntryType)
    ensures LedgerTotal(ledger + [x], b, k) == LedgerTotal(ledger, b, k) + LedgerPart(x, b, k)
    ensures RowsOf(ledger + [x], b) == RowsOf(ledger, b) + if x.booking == b then 1 else 0
  {
    assert (ledger + [x])[..|ledger|] == ledger;
  }

  predicate PositiveRefunds(refunds: seq<Refund>) {
    forall r :: 0 <= r < |refunds| ==> refunds[r].amount > 0
  }

  /** One pending refund is part of the pending total. */
  lemma {:induction false} RefundTotalBounds(refunds: seq<Refund>, b: nat, s: RefundStatus, r: nat)
    requires PositiveRefunds(refunds)
    ensures RefundTotal(refunds, b, s) >= 0
    ensures r < |refunds| && refunds[r].booking == b && refunds[r].status == s ==> refunds[r].amount <= RefundTotal(refunds, b, s)
  {
    if refunds != [] {
      RefundTotalBounds(refunds[..|refunds| - 1], b, s, r);
    }
  }

  lemma {:induction false} NoRefundsNoTotal(refunds: seq<Refund>, b: nat, s: RefundStatus)
    requires forall r :: 0 <= r < |refunds| ==> refunds[r].booking != b
    ensures RefundTotal(refunds, b, s) == 0
  {
    if refunds != [] { NoRefundsNoTotal(refunds[..|refunds| - 1], b, s); }
  }
}
