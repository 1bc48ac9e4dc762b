// The schedule writers never deadlock: every transaction takes its locks in one global order
// (courts in scan order, the customer, equipment by id), and nobody ever waits for a hold row.

module LockOrder {
  import opened Options
  import opened Schedule
  import opened Interleaving
  import opened Programs

  // ---- The global order ----

  function Position(courts: seq<CourtId>, c: CourtId): nat {
    if courts == [] || courts[0] == c then 0 else 1 + Position(courts[1..], c)
  }

  function Stage(l: Lock): nat {
    match l
    case CourtLock(_) => 0
    case CustomerLock(_) => 1
    case HoldLock(_) => 2
    case EquipmentLock(_) => 3
  }

  function Index(courts: seq<CourtId>, l: Lock): nat {
    match l
    case CourtLock(c) => Position(courts, c)
    case CustomerLock(u) => u
    case HoldLock(h) => h
    case EquipmentLock(e) => e
  }

  predicate Before(courts: seq<CourtId>, l: Lock, l': Lock) {
    Stage(l) < Stage(l') || (Stage(l) == Stage(l') && Index(courts, l) < Index(courts, l'))
  }

  predicate SameOrBefore(courts: seq<CourtId>, l: Lock, l': Lock) {
    l == l' || Before(courts, l, l')
  }

  predicate AllAfter(courts: seq<CourtId>, l: Lock, stmts: seq<Stmt>) {
    forall st :: st in stmts && st.Acquire? ==> SameOrBefore(courts, l, st.lock)
  }

  /** The locks a statement list acquires come in the global order. */
  predicate Ascending(courts: seq<CourtId>, stmts: seq<Stmt>) {
    stmts == [] ||
    ((stmts[0].Acquire? ==> AllAfter(courts, stmts[0].lock, stmts[1..])) && Ascending(courts, stmts[1..]))
  }

  // ---- Every program acquires in the global order ----

  predicate AcquiresOnly(stmts: seq<Stmt>, stage: nat) {
    forall st :: st in stmts && st.Acquire? ==> Stage(st.lock) == stage
  }

  lemma {:induction false} AscendingConcat(courts: seq<CourtId>, a: seq<Stmt>, b: seq<Stmt>)
    requires Ascending(courts, a) && Ascending(courts, b)
    requires forall st :: st in a && st.Acquire? ==> AllAfter(courts, st.lock, b)
    ensures Ascending(courts, a + b)
  {
    if a == [] {
      assert a + b == b;
    } else {
      assert (a + b)[1..] == a[1..] + b;
      AscendingConcat(courts, a[1..], b);
    }
  }

  lemma {:induction false} NoAcquiresAscend(courts: seq<CourtId>, stmts: seq<Stmt>)
    requires forall st :: st in stmts ==> !st.Acquire?
    ensures Ascending(courts, stmts)
  {
    if stmts != [] { NoAcquiresAscend(courts, stmts[1..]); }
  }

  predicate Sorted(lines: seq<Line>) {
    forall i, j :: 0 <= i < j < |lines| ==> lines[i].equipment <= lines[j].equipment
  }

  lemma {:induction false} InsertLineKeepsAll(line: Line, sorted: seq<Line>)
    ensures multiset(InsertLine(line, sorted)) == multiset(sorted) + multiset{line}
    decreases |sorted|
  {
    if sorted != [] && line.equipment >= sorted[0].equipment {
      assert sorted == [sorted[0]] + sorted[1..];
      InsertLineKeepsAll(line, sorted[1..]);
    }
  }

  lemma {:induction false} InsertLineSorts(line: Line, sorted: seq<Line>)
    requires Sorted(sorted)
    ensures Sorted(InsertLine(line, sorted))
    decreases |sorted|
  {
    if sorted != [] && line.equipment >= sorted[0].equipment {
      var rest := InsertLine(line, sorted[1..]);
      InsertLineSorts(line, sorted[1..]);
      InsertLineKeepsAll(line, sorted[1..]);
      forall j | 0 <= j < |rest|
        ensures sorted[0].equipment <= rest[j].equipment
      {
        assert rest[j] in multiset(rest);
        assert rest[j] == line || rest[j] in sorted[1..];
      }
    }
  }

  /** The requested lines, in ascending item order, none lost and none invented. */
  lemma {:induction false} SortLinesSorts(lines: seq<Line>)
    ensures Sorted(SortLines(lines)) && multiset(SortLines(lines)) == multiset(lines)
  {
    if lines != [] {
      var n := |lines| - 1;
      SortLinesSorts(lines[..n]);
      InsertLineSorts(lines[n], SortLines(lines[..n]));
      InsertLineKeepsAll(lines[n], SortLines(lines[..n]));
      assert lines == lines[..n] + [lines[n]];
    }
  }

  lemma {:induction false} LineAcquires(lines: seq<Line>, claim: Row, st: Stmt)
    requires st in LineStatements(lines, claim) && st.Acquire?
    ensures exists j :: 0 <= j < |lines| && st.lock == EquipmentLock(lines[j].equipment)
  {
    if st in LineStatements(lines[1..], claim) {
      LineAcquires(lines[1..], claim, st);
      var j :| 0 <= j < |lines[1..]| && st.lock == EquipmentLock(lines[1..][j].equipment);
      assert lines[j + 1] == lines[1..][j];
    } else {
      assert st.lock == EquipmentLock(lines[0].equipment);
    }
  }

  lemma {:induction false} LinesAscend(courts: seq<CourtId>, lines: seq<Line>, claim: Row)
    requires Sorted(lines)
    ensures Ascending(courts, LineStatements(lines, claim))
  {
    if lines != [] {
      var rest := LineStatements(lines[1..], claim);
      var all := LineStatements(lines, claim);
      LinesAscend(courts, lines[1..], claim);
      assert all[1..][1..] == rest;
      forall st | st in rest && st.Acquire?
        ensures SameOrBefore(courts, EquipmentLock(lines[0].equipment), st.lock)
      {
        LineAcquires(lines[1..], claim, st);
      }
    }
  }

  lemma {:induction false} PositionOf(courts: seq<CourtId>, i: nat)
    requires DistinctCourts(courts) && i < |courts|
    ensures Position(courts, courts[i]) == i
  {
    if i > 0 {
      assert courts[i] == courts[1..][i - 1];
      PositionOf(courts[1..], i - 1);
    }
  }

  lemma {:induction false} CourtsAscend(courts: seq<CourtId>, from: nat)
    requires DistinctCourts(courts) && from <= |courts|
    ensures Ascending(courts, CourtAcquisitions(courts[from..]))
    decreases |courts| - from
  {
    if from < |courts| {
      var all := CourtAcquisitions(courts[from..]);
      CourtsAscend(courts, from + 1);
      assert all[1..] == CourtAcquisitions(courts[from + 1..]);
      forall st | st in all[1..] && st.Acquire?
        ensures SameOrBefore(courts, CourtLock(courts[from]), st.lock)
      {
        var j :| 0 <= j < |all[1..]| && all[1..][j] == st;
        PositionOf(courts, from);
        PositionOf(courts, from + 1 + j);
      }
    }
  }

  lemma BlockAscends(courts: seq<CourtId>, req: Request, now: int)
    requires DistinctCourts(courts) && req.BlockRequest?
    ensures Ascending(courts, Program(req, courts, now))
  {
    var own := CourtsOfBlock(courts, req.scope);
    var claim := Blocked(req.scope, req.start, req.end, false);
    var head, locks, checks := [CheckNonEmpty(req.start, req.end)], CourtAcquisitions(own), [CheckBookings(claim), CheckBlocks(claim)];
    if own == courts {
      CourtsAscend(courts, 0);
      assert courts[0..] == courts;
    } else if own != [] {
      assert locks == [Acquire(CourtLock(own[0]))];
      assert locks[1..] == [];
    }
    NoAcquiresAscend(courts, checks);
    NoAcquiresAscend(courts, head);
    AscendingConcat(courts, head, locks);
    AscendingConcat(courts, head + locks, checks);
    assert Program(req, courts, now) == (head + locks) + checks;
  }

  lemma CapAscends(courts: seq<CourtId>, req: Request)
    requires req.BookingRequest?
    ensures Ascending(courts, CapStatements(req)) && AcquiresOnly(CapStatements(req), 1)
  {
    var cap := CapStatements(req);
    if cap != [] {
      assert cap[1..] == [cap[1], cap[2]] && cap[1..][1..] == [cap[2]];
      assert Ascending(courts, cap[1..][1..]);
      assert Ascending(courts, cap[1..]);
    }
  }

  lemma StagesConcat(courts: seq<CourtId>, a: seq<Stmt>, b: seq<Stmt>, stage: nat, stage': nat)
    requires Ascending(courts, a) && Ascending(courts, b)
    requires AcquiresOnly(a, stage) && AcquiresOnly(b, stage') && stage < stage'
    ensures Ascending(courts, a + b)
  {
    AscendingConcat(courts, a, b);
  }

  lemma LinesAcquireItems(lines: seq<Line>, claim: Row)
    ensures AcquiresOnly(LineStatements(lines, claim), 3)
  {
    forall st | st in LineStatements(lines, claim) && st.Acquire?
      ensures Stage(st.lock) == 3
    {
      LineAcquires(lines, claim, st);
    }
  }

  function SlotChecks(req: Request, now: int): seq<Stmt>
    requires req.BookingRequest?
  {
    Validation(NewBooking(req, now), req.minutes, req.role != Customer) + [ReadHolds(NewBooking(req, now), req.role, req.token)]
  }

  lemma BookingParts(courts: seq<CourtId>, req: Request, now: int)
    requires req.BookingRequest?
    ensures Program(req, courts, now) == [Acquire(CourtLock(req.court))]
      + (CapStatements(req) + (SlotChecks(req, now) + LineStatements(SortLines(req.lines), NewBooking(req, now))))
  {
  }

  lemma SlotChecksAcquireNothing(req: Request, now: int, st: Stmt)
    requires req.BookingRequest? && st in SlotChecks(req, now)
    ensures !st.Acquire?
  {
  }

  lemma BookingAscends(courts: seq<CourtId>, req: Request, now: int)
    requires req.BookingRequest?
    ensures Ascending(courts, Program(req, courts, now))
  {
    var claim, sorted := NewBooking(req, now), SortLines(req.lines);
    CapAscends(courts, req);
    SortLinesSorts(req.lines);
    LinesAscend(courts, sorted, claim);
    LinesAcquireItems(sorted, claim);
    forall st | st in SlotChecks(req, now)
      ensures !st.Acquire?
    {
      SlotChecksAcquireNothing(req, now, st);
    }
    BookingAscendsInParts(courts, [Acquire(CourtLock(req.court))], CapStatements(req), SlotChecks(req, now), LineStatements(sorted, claim));
    BookingParts(courts, req, now);
  }

  lemma BookingAscendsInParts(courts: seq<CourtId>, lock: seq<Stmt>, cap: seq<Stmt>, checks: seq<Stmt>, lines: seq<Stmt>)
    requires |lock| == 1 && AcquiresOnly(lock, 0)
    requires Ascending(courts, cap) && AcquiresOnly(cap, 1)
    requires forall st :: st in checks ==> !st.Acquire?
    requires Ascending(courts, lines) && AcquiresOnly(lines, 3)
    ensures Ascending(courts, lock + (cap + (checks + lines)))
  {
    NoAcquiresAscend(courts, checks);
    StagesConcat(courts, checks, lines, 2, 3);
    StagesConcat(courts, cap, checks + lines, 1, 3);
    assert lock[1..] == [];
    AscendingConcat(courts, lock, cap + (checks + lines));
  }

  lemma SubscriptionAscends(courts: seq<CourtId>, req: Request, now: int)
    requires req.SubscriptionRequest?
    ensures Ascending(courts, Program(req, courts, now))
  {
    var head := [CheckTerm(req.months), CheckFuture(req.start)];
    var lock, checks := [Acquire(CourtLock(req.court))], OccurrenceChecks(req, now, 0);
    forall st | st in checks
      ensures !st.Acquire?
    {
      OccurrenceStatementKinds(req, now, 0, st);
    }
    NoAcquiresAscend(courts, checks);
    NoAcquiresAscend(courts, head);
    assert lock[1..] == [];
    AscendingConcat(courts, lock, checks);
    AscendingConcat(courts, head, lock + checks);
    assert Program(req, courts, now) == head + (lock + checks);
  }

  lemma ProgramsAscend(courts: seq<CourtId>, req: Request, now: int)
    requires DistinctCourts(courts)
    ensures Ascending(courts, Program(req, courts, now))
  {
    match req
    case BookingRequest(_, _, _, _, _, _, _, _, _) => BookingAscends(courts, req, now);
    case SubscriptionRequest(_, _, _, _, _, _) => SubscriptionAscends(courts, req, now);
    case BlockRequest(_, _, _) => BlockAscends(courts, req, now);
  }

  // ---- The lock invariant ----

  /** A hold row is locked only under the lock of its court. */
  predicate HoldUnderCourt(holds: seq<Hold>, locks: set<Lock>, l: Lock) {
    l.HoldLock? ==> l.hold < |holds| && CourtLock(holds[l.hold].court) in locks
  }

  ghost predicate Orderly(db: Tables, txn: Txn) {
    && WellOrdered(db.courts, txn.done, txn.todo)
    && Ascending(db.courts, txn.todo)
    && (forall l :: l in txn.locks && !l.HoldLock? ==> AllAfter(db.courts, l, txn.todo))
    && (forall l :: l in txn.locks ==> HoldUnderCourt(db.holds, txn.locks, l))
    && (forall l :: Acquire(l) in txn.done ==> l in txn.locks)
  }

  ghost predicate LockInv(s: State) {
    && DistinctCourts(s.db.courts)
    && Exclusive(s)
    && forall t :: t in s.txns ==> Orderly(s.db, s.txns[t])
  }

  /** Courts never change, and no hold moves to another court. */
  predicate SameLocks(db: Tables, db': Tables) {
    db'.courts == db.courts && |db'.holds| >= |db.holds| &&
    forall h :: 0 <= h < |db.holds| ==> db'.holds[h].court == db.holds[h].court
  }

  lemma NextKeepsLocks(s: State, a: Action)
    requires Enabled(s, a)
    ensures SameLocks(s.db, Next(s, a).db)
  {
  }

  lemma OrderlyStays(db: Tables, db': Tables, txn: Txn)
    requires Orderly(db, txn) && SameLocks(db, db')
    ensures Orderly(db', txn)
  {
    forall l | l in txn.locks
      ensures HoldUnderCourt(db'.holds, txn.locks, l)
    {
      assert HoldUnderCourt(db.holds, txn.locks, l);
    }
  }

  lemma ExecutedIsOrderly(db: Tables, txn: Txn)
    requires Orderly(db, txn) && txn.todo != []
    ensures Orderly(db, Executed(db, txn))
  {
    var st, txn' := txn.todo[0], Executed(db, txn);
    forall l | l in txn'.locks && !l.HoldLock?
      ensures AllAfter(db.courts, l, txn'.todo)
    {
      if l in txn.locks { assert AllAfter(db.courts, l, txn.todo); }
    }
    forall l | l in txn'.locks
      ensures HoldUnderCourt(db.holds, txn'.locks, l)
    {
      if l in txn.locks {
        assert HoldUnderCourt(db.holds, txn.locks, l);
      } else if st.ReadHolds? {
        assert st.claim.booking.court in CourtsNeeded(db.courts, st.claim);
        assert Acquire(CourtLock(st.claim.booking.court)) in txn.done;
      }
    }
  }

  lemma ActionKeepsLockInv(s: State, a: Action)
    requires LockInv(s) && Enabled(s, a)
    ensures LockInv(Next(s, a))
  {
    var s' := Next(s, a);
    NextKeepsLocks(s, a);
    if a.Begin? {
      ProgramsAreWellOrdered(s.db.courts, a.req, s.db.now);
      ProgramsAscend(s.db.courts, a.req, s.db.now);
    }
    forall t | t in s'.txns
      ensures Orderly(s'.db, s'.txns[t])
    {
      if t in s.txns {
        if s'.txns[t] != s.txns[t] { ExecutedIsOrderly(s.db, s.txns[t]); }
        OrderlyStays(s.db, s'.db, s'.txns[t]);
      }
    }
    forall t, t' | t in s'.txns && t' in s'.txns && t != t'
      ensures s'.txns[t].locks !! s'.txns[t'].locks
    {
      if a.Step? && t == a.txn { StepTakesFreeLocks(s, t, t'); }
      if a.Step? && t' == a.txn { StepTakesFreeLocks(s, t', t); }
    }
  }

  lemma StepTakesFreeLocks(s: State, t: nat, t': nat)
    requires t in s.txns && t' in s.txns && t != t' && !Waits(s, t) && Exclusive(s)
    ensures (s.txns[t].locks + Wanted(s.db, s.txns[t])) !! s.txns[t'].locks
  {
    forall l | l in Wanted(s.db, s.txns[t])
      ensures l !in s.txns[t'].locks
    {
      assert !HeldByOther(s, t, l);
    }
  }

  lemma {:induction false} RunsKeepLockInv(s: State, actions: seq<Action>)
    requires LockInv(s) && Run(s, actions)
    ensures LockInv(Exec(s, actions))
    decreases |actions|
  {
    if actions != [] {
      ActionKeepsLockInv(s, actions[0]);
      RunsKeepLockInv(Next(s, actions[0]), actions[1..]);
    }
  }

  // ---- Nobody waits for a hold row; no cycle; someone can always move ----

  predicate WaitsFor(s: State, t: nat, t': nat) {
    t in s.txns && t' in s.txns && t != t' && exists l :: l in Wanted(s.db, s.txns[t]) && l in s.txns[t'].locks
  }

  /** The lock a transaction asks for next. */
  function Asks(txn: Txn): Option<Lock> {
    if txn.todo != [] && txn.todo[0].Acquire? then Some(txn.todo[0].lock) else None
  }

  predicate AsksEarlier(courts: seq<CourtId>, txn: Txn, txn': Txn) {
    Asks(txn).Some? && Asks(txn').Some? && Before(courts, Asks(txn).value, Asks(txn').value)
  }

  /** Hold rows are never contended: they are locked only under their court's lock. */
  lemma HoldRowsAreFree(s: State, t: nat, t': nat, l: Lock)
    requires LockInv(s) && t in s.txns && t' in s.txns && t != t'
    requires l in Wanted(s.db, s.txns[t]) && s.txns[t].todo[0].ReadHolds?
    ensures l !in s.txns[t'].locks
  {
    var txn, other := s.txns[t], s.txns[t'];
    assert Orderly(s.db, txn) && Ready(s.db.courts, txn.todo[0], txn.done);
    var c := txn.todo[0].claim.booking.court;
    assert c in CourtsNeeded(s.db.courts, txn.todo[0].claim);
    assert Acquire(CourtLock(c)) in txn.done;
    assert Orderly(s.db, other) && (l in other.locks ==> HoldUnderCourt(s.db.holds, other.locks, l));
  }

  /** Nobody ever waits for a hold row: a transaction waits only for the lock of an Acquire. */
  lemma WaitingIsAcquiring(s: State, t: nat, t': nat)
    requires LockInv(s) && WaitsFor(s, t, t')
    ensures Asks(s.txns[t]).Some? && !Asks(s.txns[t]).value.HoldLock?
    ensures Asks(s.txns[t]).value in s.txns[t'].locks
  {
    var l :| l in Wanted(s.db, s.txns[t]) && l in s.txns[t'].locks;
    if s.txns[t].todo[0].ReadHolds? { HoldRowsAreFree(s, t, t', l); }
    assert Orderly(s.db, s.txns[t]);
    assert Ready(s.db.courts, s.txns[t].todo[0], s.txns[t].done);
  }

  /** Whoever holds the lock another waits for waits, if at all, only for a later lock. */
  lemma WaitsGoUp(s: State, t: nat, t': nat, t'': nat)
    requires LockInv(s) && WaitsFor(s, t, t') && WaitsFor(s, t', t'')
    ensures AsksEarlier(s.db.courts, s.txns[t], s.txns[t'])
  {
    WaitingIsAcquiring(s, t, t');
    WaitingIsAcquiring(s, t', t'');
    var held, txn := Asks(s.txns[t]).value, s.txns[t'];
    assert Orderly(s.db, txn) && AllAfter(s.db.courts, held, txn.todo);
    assert txn.todo[0] in txn.todo && SameOrBefore(s.db.courts, held, txn.todo[0].lock);
    assert Asks(txn).value in s.txns[t''].locks && held !in s.txns[t''].locks;
  }

  predicate WaitChain(s: State, chain: seq<nat>) {
    |chain| >= 2 && forall i :: 0 <= i < |chain| - 1 ==> WaitsFor(s, chain[i], chain[i + 1])
  }

  lemma {:induction false} ChainGoesUp(s: State, chain: seq<nat>, next: nat)
    requires LockInv(s) && WaitChain(s, chain) && WaitsFor(s, chain[|chain| - 1], next)
    ensures chain[0] in s.txns && chain[|chain| - 1] in s.txns
    ensures AsksEarlier(s.db.courts, s.txns[chain[0]], s.txns[chain[|chain| - 1]])
    decreases |chain|
  {
    var n := |chain|;
    assert WaitsFor(s, chain[n - 2], chain[n - 1]) && WaitsFor(s, chain[0], chain[1]);
    WaitsGoUp(s, chain[n - 2], chain[n - 1], next);
    if n > 2 {
      assert WaitChain(s, chain[..n - 1]);
      ChainGoesUp(s, chain[..n - 1], chain[n - 1]);
    }
  }

  /** No run of any number of concurrent writers, statement by statement, ever reaches a wait-for cycle. */
  lemma NoDeadlock(s: State, actions: seq<Action>, chain: seq<nat>)
    requires Initial(s) && Run(s, actions) && WaitChain(Exec(s, actions), chain)
    ensures chain[0] != chain[|chain| - 1]
  {
    RunsKeepLockInv(s, actions);
    if chain[0] == chain[|chain| - 1] {
      assert WaitsFor(Exec(s, actions), chain[0], chain[1]);
      ChainGoesUp(Exec(s, actions), chain, chain[1]);
    }
  }

  /** Among transactions that all wait, one asks for a lock no other asks after. */
  lemma {:induction false} LastAsker(s: State, ts: set<nat>) returns (t: nat)
    requires ts != {} && ts <= s.txns.Keys && forall t :: t in ts ==> Asks(s.txns[t]).Some?
    ensures t in ts && forall t' :: t' in ts ==> !AsksEarlier(s.db.courts, s.txns[t], s.txns[t'])
    decreases |ts|
  {
    t :| t in ts;
    var rest := ts - {t};
    if rest != {} {
      var first := t;
      var r := LastAsker(s, rest);
      if AsksEarlier(s.db.courts, s.txns[t], s.txns[r]) { t := r; }
      forall t' | t' in ts
        ensures !AsksEarlier(s.db.courts, s.txns[t], s.txns[t'])
      {
        AskOrder(s.db.courts, s.txns[t], s.txns[r], s.txns[t']);
        assert t' == first || t' in rest;
      }
    } else {
      forall t' | t' in ts
        ensures t' == t
      {
        assert t' !in rest;
      }
    }
  }

  lemma AskOrder(courts: seq<CourtId>, a: Txn, b: Txn, c: Txn)
    requires Asks(b).Some?
    ensures AsksEarlier(courts, a, c) ==> AsksEarlier(courts, a, b) || AsksEarlier(courts, b, c)
    ensures !AsksEarlier(courts, a, b) || !AsksEarlier(courts, b, a)
    ensures !AsksEarlier(courts, a, a)
  {
  }

  /** While any transaction is open, one of them can take its next step. */
  lemma SomeoneCanStep(s: State, actions: seq<Action>) returns (t: nat)
    requires Initial(s) && Run(s, actions) && Exec(s, actions).txns != map[]
    ensures Enabled(Exec(s, actions), Step(t))
  {
    RunsKeepLockInv(s, actions);
    var s' := Exec(s, actions);
    assert s'.txns.Keys != {};
    if u :| u in s'.txns && !Waits(s', u) {
      t := u;
    } else {
      forall u | u in s'.txns
        ensures Asks(s'.txns[u]).Some?
      {
        var holder := HolderOf(s', u);
        WaitingIsAcquiring(s', u, holder);
      }
      t := LastAsker(s', s'.txns.Keys);
      var t' := HolderOf(s', t);
      var t'' := HolderOf(s', t');
      WaitsGoUp(s', t, t', t'');
      assert false;
    }
  }

  lemma HolderOf(s: State, t: nat) returns (t': nat)
    requires Waits(s, t)
    ensures WaitsFor(s, t, t')
  {
    var l :| l in Wanted(s.db, s.txns[t]) && HeldByOther(s, t, l);
    t' :| t' in s.txns && t' != t && l in s.txns[t'].locks;
  }
}
