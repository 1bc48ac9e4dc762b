// What holds of the money after any run: refunds are recorded, what is left can be requested, each cancellation is
// booked once and for all, the ledger conserves; and exactly when more has been paid back than was collected.

module MoneyTheorems {
  import opened Options
  import opened Instants
  import opened BookingStatus
  import opened Finance
  import opened FinanceRuns

  const NO_BOOKS := Books([], [], [])

  /** What any run whatever leaves of booking b. */
  lemma SoundRun(events: seq<Event>, b: nat)
    requires b < |Run(NO_BOOKS, events).accounts|
    ensures BooksSound(Run(NO_BOOKS, events)) && SoundAt(Run(NO_BOOKS, events), b)
  {
    RunsKeepBooks(NO_BOOKS, events);
  }

  /** A settlement made while refunds are pending can strand them: approval survives it exactly when the
      new amounts still cover the refund on top of those approved before. */
  lemma ApprovalAfterSettlementIff(books: Books, e: Event, r: nat)
    requires WellFormed(books) && e.Settle? && Accepts(books, e)
    requires r < |books.refunds| && books.refunds[r].status == Pending && books.refunds[r].booking == e.booking
    ensures Accepts(Apply(books, e), ApproveRefund(r)) <==>
      RefundTotal(books.refunds, e.booking, Approved) + books.refunds[r].amount <= Collected(Settled(books.accounts[e.booking], e))
  {
    assert books.refunds[r].amount > 0;
    RefundTotalBounds(books.refunds, e.booking, Approved, r);
  }

  /** Unless a cancellation settled the payment, it records what was approved, the REFUND debits are just that, and
      it is marked as refunded, in part or in full, exactly when something was. */
  lemma RefundsAreRecorded(events: seq<Event>, b: nat)
    requires b < |Run(NO_BOOKS, events).accounts| && Run(NO_BOOKS, events).accounts[b].decision == None
    ensures var books := Run(NO_BOOKS, events); var a, debits := books.accounts[b], LedgerTotal(books.ledger, b, RefundDebit);
      && a.refunded == RefundTotal(books.refunds, b, Approved) == debits
      && (a.payment in {PartiallyRefunded, FullyRefunded} <==> debits > 0)
  {
    SoundRun(events, b);
  }

  /** In any run a refund can be requested for exactly what is left, and only while the payment has not been
      refunded at all. */
  lemma RequestableAmounts(events: seq<Event>, b: nat, amount: int)
    requires b < |Run(NO_BOOKS, events).accounts|
    ensures var books := Run(NO_BOOKS, events);
      Accepts(books, RequestRefund(b, amount)) <==>
        Refundable(books.accounts[b].payment) && 0 < amount <= Collected(books.accounts[b]) - Claimed(books.refunds, b)
    ensures var books := Run(NO_BOOKS, events); var approved := RefundTotal(books.refunds, b, Approved);
      Accepts(books, RequestRefund(b, amount)) && books.accounts[b].decision == None ==> approved == 0
  {
    SoundRun(events, b);
  }

  // ---- What a step leaves alone ----

  /** The booking a step is about. */
  function About(books: Books, e: Event): nat
    requires Accepts(books, e)
  {
    match e
    case Open(_) => |books.accounts|
    case ApproveRefund(r) => books.refunds[r].booking
    case RejectRefund(r) => books.refunds[r].booking
    case _ => e.booking
  }

  /** No step touches another booking's account, refunds or ledger rows; check-in, no-show and expiry change nothing of
      their own booking but its status. */
  lemma OnlyItsBooking(books: Books, e: Event, b: nat)
    requires WellFormed(books) && Accepts(books, e) && b < |books.accounts|
    ensures About(books, e) != b ==>
      Apply(books, e).accounts[b] == books.accounts[b] && SumsOf(Apply(books, e), b) == SumsOf(books, b)
    ensures e.MoveOn? && e.booking == b ==>
      Apply(books, e) == books.(accounts := books.accounts[b := books.accounts[b].(status := e.to)])
  {
    if e.RequestRefund? { RequestSums(books, e, b); }
    if e.RejectRefund? { RejectSums(books, e.refund, b); }
    if e.ApproveRefund? { ApproveSums(books, e.refund, b); }
    if e.CancelBooking? { CancelSums(books, e, b); }
  }

  // ---- Cancellation ----

  /** A cancellation's decision, and the money it was about, never change again, whatever is done later. */
  lemma {:induction false} CancellationIsFinal(books: Books, events: seq<Event>, b: nat)
    requires b < |books.accounts| && books.accounts[b].decision.Some? && books.accounts[b].status == Cancelled
    ensures var after := Run(books, events);
      && b < |after.accounts|
      && after.accounts[b].decision == books.accounts[b].decision
      && after.accounts[b].refundAmount == books.accounts[b].refundAmount
      && Collected(after.accounts[b]) == Collected(books.accounts[b])
      && after.accounts[b].status == Cancelled
    decreases |events|
  {
    if events != [] { CancellationIsFinal(Step(books, events[0]), events[1..], b); }
  }

  /** Without manual refunds a cancelled booking has exactly one ledger row if money was collected, none
      otherwise, and that row is for all of it. */
  lemma CancellationIsBookedOnce(events: seq<Event>, b: nat)
    requires b < |Run(NO_BOOKS, events).accounts|
    requires Run(NO_BOOKS, events).accounts[b].decision.Some?
    requires forall r :: 0 <= r < |Run(NO_BOOKS, events).refunds| ==> Run(NO_BOOKS, events).refunds[r].booking != b
    ensures var books := Run(NO_BOOKS, events); var a := books.accounts[b];
      && RowsOf(books.ledger, b) == (if Collected(a) > 0 then 1 else 0)
      && LedgerTotal(books.ledger, b, RefundDebit) + LedgerTotal(books.ledger, b, ForfeitIncome) == Collected(a)
      && (LedgerTotal(books.ledger, b, RefundDebit) == 0 || LedgerTotal(books.ledger, b, ForfeitIncome) == 0)
  {
    SoundRun(events, b);
    var books := Run(NO_BOOKS, events);
    NoRefundsNoTotal(books.refunds, b, Approved);
    NoRefundsNoTotal(books.refunds, b, Pending);
    NothingForBooking(books.refunds, [], b);
    match books.accounts[b].decision.value
    case NothingToRefund =>
    case RefundAll =>
    case KeepAll =>
  }

  // ---- The whole ledger ----

  function LedgerSum(ledger: seq<LedgerRow>): int {
    if ledger == [] then 0 else LedgerSum(ledger[..|ledger| - 1]) + ledger[|ledger| - 1].amount
  }

  function ApprovedSum(refunds: seq<Refund>): int {
    if refunds == [] then 0 else
      var last := refunds[|refunds| - 1];
      ApprovedSum(refunds[..|refunds| - 1]) + if last.status == Approved then last.amount else 0
  }

  function CancelledMoney(a: Account): int {
    if a.decision.Some? then NonNegative(Collected(a)) else 0
  }

  function CancelledSum(accounts: seq<Account>): int {
    if accounts == [] then 0 else
      CancelledSum(accounts[..|accounts| - 1]) + CancelledMoney(accounts[|accounts| - 1])
  }

  lemma {:induction false} ApprovedSumUpdate(refunds: seq<Refund>, r: nat, s: RefundStatus)
    requires r < |refunds| && refunds[r].status == Pending
    ensures ApprovedSum(refunds[r := refunds[r].(status := s)]) ==
      ApprovedSum(refunds) + if s == Approved then refunds[r].amount else 0
  {
    var n, x := |refunds| - 1, refunds[r].(status := s);
    if r < n {
      assert refunds[r := x][..n] == refunds[..n][r := x];
      ApprovedSumUpdate(refunds[..n], r, s);
    } else {
      assert refunds[r := x][..n] == refunds[..n];
    }
  }

  lemma {:induction false} CancelledSumUpdate(accounts: seq<Account>, b: nat, a: Account)
    requires b < |accounts|
    ensures CancelledSum(accounts[b := a]) == CancelledSum(accounts) - CancelledMoney(accounts[b]) + CancelledMoney(a)
  {
    var n := |accounts| - 1;
    if b < n {
      assert accounts[b := a][..n] == accounts[..n][b := a];
      CancelledSumUpdate(accounts[..n], b, a);
    } else {
      assert accounts[b := a][..n] == accounts[..n];
    }
  }

  /** Decided bookings are cancelled, and the ledger is the approved refunds plus what cancellations disposed of. */
  ghost predicate LedgerAccountsForAll(books: Books) {
    && (forall b :: 0 <= b < |books.accounts| && books.accounts[b].decision.Some? ==> books.accounts[b].status == Cancelled)
    && LedgerSum(books.ledger) == ApprovedSum(books.refunds) + CancelledSum(books.accounts)
  }

  lemma ApproveKeepsLedger(books: Books, r: nat)
    requires LedgerAccountsForAll(books) && Accepts(books, ApproveRefund(r))
    ensures LedgerAccountsForAll(Apply(books, ApproveRefund(r)))
  {
    var b, row := books.refunds[r].booking, LedgerRow(books.refunds[r].booking, RefundDebit, books.refunds[r].amount);
    ApprovedSumUpdate(books.refunds, r, Approved);
    CancelledSumUpdate(books.accounts, b, Apply(books, ApproveRefund(r)).accounts[b]);
    assert (books.ledger + [row])[..|books.ledger|] == books.ledger;
  }

  lemma CancelRowsSum(ledger: seq<LedgerRow>, a: Account, b: nat, d: Decision)
    ensures LedgerSum(ledger + CancelRows(a, b, d)) == LedgerSum(ledger) + if d == NothingToRefund then 0 else Collected(a)
  {
    if d == NothingToRefund {
      assert ledger + [] == ledger;
    } else {
      assert (ledger + CancelRows(a, b, d))[..|ledger|] == ledger;
    }
  }

  lemma CancelKeepsLedger(books: Books, e: Event)
    requires LedgerAccountsForAll(books) && e.CancelBooking? && Accepts(books, e)
    ensures LedgerAccountsForAll(Apply(books, e))
  {
    var a := books.accounts[e.booking];
    var d := DecisionFor(a, e.actor, e.override, e.deadlineHours, e.now);
    CancelledSumUpdate(books.accounts, e.booking, CancelledAccount(a, d));
    CancelRowsSum(books.ledger, a, e.booking, d);
    assert a.decision == None;
    assert CancelledMoney(CancelledAccount(a, d)) == NonNegative(Collected(a));
  }

  lemma AccountStepKeepsLedger(books: Books, e: Event)
    requires LedgerAccountsForAll(books) && AccountOnly(e) && Accepts(books, e)
    ensures LedgerAccountsForAll(Apply(books, e))
  {
    var a := books.accounts[e.booking];
    CancelledSumUpdate(books.accounts, e.booking, AccountAfter(a, e));
    assert CancelledMoney(AccountAfter(a, e)) == CancelledMoney(a);
  }

  lemma StepKeepsLedger(books: Books, e: Event)
    requires LedgerAccountsForAll(books)
    ensures LedgerAccountsForAll(Step(books, e))
  {
    if !Accepts(books, e) {
    } else if AccountOnly(e) {
      AccountStepKeepsLedger(books, e);
    } else if e.Open? {
      assert (books.accounts + [e.account])[..|books.accounts|] == books.accounts;
    } else if e.RequestRefund? {
      assert (books.refunds + [Refund(e.booking, e.amount, Pending)])[..|books.refunds|] == books.refunds;
    } else if e.RejectRefund? {
      ApprovedSumUpdate(books.refunds, e.refund, Rejected);
    } else if e.ApproveRefund? {
      ApproveKeepsLedger(books, e.refund);
    } else {
      CancelKeepsLedger(books, e);
    }
  }

  /** After any run at all, the ledger's rows sum to the approved manual refunds plus everything that had been
      collected for the bookings cancelled through cancelBooking: refunded or kept, none lost, none twice. */
  lemma {:induction false} LedgerConserves(books: Books, events: seq<Event>)
    requires LedgerAccountsForAll(books)
    ensures LedgerAccountsForAll(Run(books, events))
    decreases |events|
  {
    if events != [] {
      StepKeepsLedger(books, events[0]);
      LedgerConserves(Step(books, events[0]), events[1..]);
    }
  }

  /** The ledger is append-only: whatever happens, its rows stay as they were written. */
  lemma {:induction false} LedgerOnlyGrows(books: Books, events: seq<Event>)
    ensures books.ledger <= Run(books, events).ledger
    decreases |events|
  {
    if events != [] { LedgerOnlyGrows(Step(books, events[0]), events[1..]); }
  }

  // ---- Manual refunds and a cancellation together ----

  /** After any run, a customer has been paid back more than was collected exactly when a cancellation refunded
      everything although some refund was, before or after it, approved by hand, or when, nothing being refunded by
      a cancellation, settlements left less than was approved. */
  lemma OverpaidIff(events: seq<Event>, b: nat)
    requires b < |Run(NO_BOOKS, events).accounts|
    ensures var books := Run(NO_BOOKS, events); var a, approved := books.accounts[b], RefundTotal(books.refunds, b, Approved);
      LedgerTotal(books.ledger, b, RefundDebit) > Collected(a) <==>
        if a.decision == Some(RefundAll) then approved > 0 else approved > Collected(a)
  {
    SoundRun(events, b);
  }

  lemma OnePending(x: int)
    ensures RefundTotal([Refund(0, x, Pending)], 0, Approved) == 0
  {
    RefundTotalAppend([], Refund(0, x, Pending), 0, Approved);
    assert [] + [Refund(0, x, Pending)] == [Refund(0, x, Pending)];
  }

  lemma TwoDebits(x: int, y: int)
    ensures LedgerTotal([LedgerRow(0, RefundDebit, x)] + [LedgerRow(0, RefundDebit, y)], 0, RefundDebit) == x + y
  {
    LedgerAppend([], LedgerRow(0, RefundDebit, x), 0, RefundDebit);
    assert [] + [LedgerRow(0, RefundDebit, x)] == [LedgerRow(0, RefundDebit, x)];
    LedgerAppend([LedgerRow(0, RefundDebit, x)], LedgerRow(0, RefundDebit, y), 0, RefundDebit);
  }

  lemma {:induction false} RunMore(books: Books, events: seq<Event>, e: Event)
    ensures Run(books, events + [e]) == Step(Run(books, events), e)
    decreases |events|
  {
    if events == [] {
      assert [] + [e] == [e] && [e][1..] == [];
    } else {
      assert (events + [e])[1..] == events[1..] + [e];
      RunMore(Step(books, events[0]), events[1..], e);
    }
  }

  /** A paid booking with a refund of x requested by hand. */
  lemma RequestedRun(a: Account, x: int)
    requires Fresh(a) && Refundable(a.payment) && 0 < x <= Collected(a)
    ensures var events := [] + [Open(a)] + [RequestRefund(0, x)];
      Run(NO_BOOKS, events) == Books([a], [Refund(0, x, Pending)], [])
  {
    ManualRequest(a, x);
    RunMore(NO_BOOKS, [], Open(a));
    RunMore(NO_BOOKS, [] + [Open(a)], RequestRefund(0, x));
  }

  lemma ManualRequest(a: Account, x: int)
    requires Fresh(a) && Refundable(a.payment) && 0 < x <= Collected(a)
    ensures Step(NO_BOOKS, Open(a)) == Books([a], [], [])
    ensures Step(Books([a], [], []), RequestRefund(0, x)) == Books([a], [Refund(0, x, Pending)], [])
  {
    assert Claimed([], 0) == 0;
    assert [] + [a] == [a] && [] + [Refund(0, x, Pending)] == [Refund(0, x, Pending)];
  }

  lemma ManualApproval(a: Account, x: int)
    requires 0 < x <= Collected(a)
    ensures var after := Step(Books([a], [Refund(0, x, Pending)], []), ApproveRefund(0));
      after.accounts == [ApprovedAccount(a, x)] && after.ledger == [LedgerRow(0, RefundDebit, x)]
  {
    OnePending(x);
    assert [] + [LedgerRow(0, RefundDebit, x)] == [LedgerRow(0, RefundDebit, x)];
  }

  /** A paid booking, a refund of x approved by hand, then a cancellation within the deadline: the customer gets
      x back on top of everything that was collected. With 100 collected and x = 40, 140 goes out. */
  lemma RefundThenCancelOverpays(a: Account, x: int, deadlineHours: int, now: int) returns (events: seq<Event>)
    requires Fresh(a) && Refundable(a.payment) && 0 < x <= Collected(a) && now <= a.start - deadlineHours * HOUR_MS
    ensures |Run(NO_BOOKS, events).accounts| == 1
    ensures var books := Run(NO_BOOKS, events);
      Collected(books.accounts[0]) == Collected(a) && LedgerTotal(books.ledger, 0, RefundDebit) == Collected(a) + x
  {
    var cancel := CancelBooking(0, CustomerSelf(a.customer), Auto, deadlineHours, now);
    events := [] + [Open(a)] + [RequestRefund(0, x)] + [ApproveRefund(0)] + [cancel];
    RequestedRun(a, x);
    RunMore(NO_BOOKS, [] + [Open(a)] + [RequestRefund(0, x)], ApproveRefund(0));
    RunMore(NO_BOOKS, [] + [Open(a)] + [RequestRefund(0, x)] + [ApproveRefund(0)], cancel);
    ThenCancelled(a, x, cancel);
  }

  lemma ThenCancelled(a: Account, x: int, cancel: Event)
    requires Fresh(a) && Refundable(a.payment) && 0 < x <= Collected(a)
    requires cancel.CancelBooking? && cancel.booking == 0 && cancel.actor == CustomerSelf(a.customer) && cancel.now <= a.start - cancel.deadlineHours * HOUR_MS
    ensures var after := Step(Step(Books([a], [Refund(0, x, Pending)], []), ApproveRefund(0)), cancel);
      |after.accounts| == 1 && Collected(after.accounts[0]) == Collected(a) &&
      LedgerTotal(after.ledger, 0, RefundDebit) == Collected(a) + x
  {
    ManualApproval(a, x);
    var books := Step(Books([a], [Refund(0, x, Pending)], []), ApproveRefund(0));
    assert Step(books, cancel).ledger == books.ledger + [LedgerRow(0, RefundDebit, Collected(a))];
    TwoDebits(x, Collected(a));
  }

  /** Without any cancellation: a paid booking, a refund of x approved by hand, then a settlement to nothing. */
  lemma SettledToNothingOverpays(a: Account, x: int) returns (events: seq<Event>)
    requires Fresh(a) && Refundable(a.payment) && 0 < x <= Collected(a)
    ensures |Run(NO_BOOKS, events).accounts| == 1
    ensures var books := Run(NO_BOOKS, events);
      && books.accounts[0].decision == None && Collected(books.accounts[0]) == 0
      && LedgerTotal(books.ledger, 0, RefundDebit) == x
  {
    var requested, settle := [] + [Open(a)] + [RequestRefund(0, x)], Settle(0, Some(0), None, Some(0), None, None);
    events := requested + [ApproveRefund(0)] + [settle];
    RequestedRun(a, x);
    RunMore(NO_BOOKS, requested, ApproveRefund(0));
    RunMore(NO_BOOKS, requested + [ApproveRefund(0)], settle);
    ManualApproval(a, x);
    LedgerAppend([], LedgerRow(0, RefundDebit, x), 0, RefundDebit);
    assert [] + [LedgerRow(0, RefundDebit, x)] == [LedgerRow(0, RefundDebit, x)];
  }
}
