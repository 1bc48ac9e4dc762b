// Where the guarantees stop: blocks that lock no court row, and holds that expire while their claimant's
// booking is under way. Each limit is shown by a run of the machine, and met by an exact condition.

module ScheduleLimits {
  import opened Options
  import opened Instants
  import opened BookingStatus
  import opened Schedule
  import opened Interleaving
  import opened ScheduleSafety
  import opened ScheduleRuns
  import opened Serving
  import opened ServedRequests
  import WorkingHours

  // ---- Blocks that lock nothing ----

  predicate OnlyScopes(actions: seq<Action>, scopes: set<Option<CourtId>>) {
    forall i :: 0 <= i < |actions| && actions[i].Begin? && actions[i].req.BlockRequest? ==> actions[i].req.scope in scopes
  }

  ghost predicate AlwaysDisjoint(s: State, scopes: set<Option<CourtId>>) {
    forall actions :: Run(s, actions) && OnlyScopes(actions, scopes) ==> Disjoint(Exec(s, actions).db.rows)
  }

  function Block(scope: Option<CourtId>): Request {
    BlockRequest(scope, 0, 1)
  }

  function BlockRow(scope: Option<CourtId>): Row {
    Blocked(scope, 0, 1, false)
  }

  lemma UnlockedBlockProgram(db: Tables, scope: Option<CourtId>)
    requires CourtsOfBlock(db.courts, scope) == [] && db.rows == []
    ensures var txn := Started(db, Block(scope));
      AllPass(db, txn.todo) && Ran(db, txn).todo == [] && Ran(db, txn).req == Block(scope) && Ran(db, txn).claimed == None
  {
    var txn := Started(db, Block(scope));
    assert txn.todo == [CheckNonEmpty(0, 1), CheckBookings(BlockRow(scope)), CheckBlocks(BlockRow(scope))];
    RanKeepsRequest(db, txn);
    NoHoldsNoClaim(db, txn);
  }

  lemma {:induction false} NoHoldsNoClaim(db: Tables, txn: Txn)
    requires txn.claimed == None && forall st :: st in txn.todo ==> !st.ReadHolds?
    ensures Ran(db, txn).claimed == None
    decreases |txn.todo|
  {
    if txn.todo != [] { NoHoldsNoClaim(db, Executed(db, txn)); }
  }

  lemma {:induction false} NoLocksTaken(db: Tables, txn: Txn)
    requires txn.locks == {} && forall st :: st in txn.todo ==> !st.ReadHolds? && !st.Acquire?
    ensures Ran(db, txn).locks == {}
    decreases |txn.todo|
  {
    if txn.todo != [] { NoLocksTaken(db, Executed(db, txn)); }
  }

  predicate NoOtherBlocks(actions: seq<Action>, scope: Option<CourtId>) {
    forall i :: 0 <= i < |actions| && actions[i].Begin? ==> actions[i].req == Block(scope)
  }

  /** Two actions in a row. */
  lemma RunTwo(s: State, a: Action, b: Action)
    requires Enabled(s, a) && Enabled(Next(s, a), b)
    ensures Run(s, [a, b]) && Exec(s, [a, b]) == Next(Next(s, a), b)
  {
    RunOne(s, a);
    RunOne(Next(s, a), b);
    RunConcat(s, [a], [b]);
    assert [a] + [b] == [a, b];
  }

  lemma BothBegin(s: State, req: Request)
    requires s.txns == map[]
    ensures var txn := Started(s.db, req);
      Run(s, [Begin(0, req), Begin(1, req)]) &&
      Exec(s, [Begin(0, req), Begin(1, req)]) == State(s.db, map[0 := txn, 1 := txn])
  {
    RunTwo(s, Begin(0, req), Begin(1, req));
  }

  lemma BothRun(s: State, txn: Txn) returns (actions: seq<Action>)
    requires s.txns == map[0 := txn, 1 := txn] && txn.began == s.db.now && AllPass(s.db, txn.todo) && txn.locks == {} && Ran(s.db, txn).locks == {}
    ensures Run(s, actions) && Exec(s, actions) == State(s.db, map[0 := Ran(s.db, txn), 1 := Ran(s.db, txn)])
    ensures forall i :: 0 <= i < |actions| ==> actions[i].Step?
  {
    var n, ran := |txn.todo|, Ran(s.db, txn);
    var mid := State(s.db, map[0 := ran, 1 := txn]);
    assert s.txns[0 := ran] == mid.txns;
    AllStepsPass(s, 0);
    assert mid.txns[1 := ran] == map[0 := ran, 1 := ran];
    AllStepsPass(mid, 1);
    RunConcat(s, Steps(0, n), Steps(1, n));
    actions := Steps(0, n) + Steps(1, n);
  }

  lemma BothCommit(s: State, ran: Txn, scope: Option<CourtId>)
    requires s.db.rows == [] && s.txns == map[0 := ran, 1 := ran]
    requires ran.todo == [] && ran.req == Block(scope) && ran.claimed == None
    ensures Run(s, [Step(0), Step(1)])
    ensures Exec(s, [Step(0), Step(1)]).db.rows == [BlockRow(scope), BlockRow(scope)]
  {
    var mid := State(s.db.(rows := [BlockRow(scope)]), map[1 := ran]);
    assert Wanted(s.db, ran) == {} && Wanted(mid.db, ran) == {};
    assert Claims(ran.req, ran.began) == [BlockRow(scope)];
    assert Next(s, Step(0)) == mid by { assert s.txns - {0} == mid.txns; }
    RunTwo(s, Step(0), Step(1));
  }

  lemma BothRunAndCommit(s: State, db: Tables, scope: Option<CourtId>) returns (actions: seq<Action>)
    requires CourtsOfBlock(db.courts, scope) == [] && db.rows == []
    requires s == State(db, map[0 := Started(db, Block(scope)), 1 := Started(db, Block(scope))])
    ensures Run(s, actions) && Exec(s, actions).db.rows == [BlockRow(scope), BlockRow(scope)]
    ensures forall i :: 0 <= i < |actions| ==> actions[i].Step?
  {
    var txn, commit := Started(db, Block(scope)), [Step(0), Step(1)];
    UnlockedBlockProgram(db, scope);
    NoLocksTaken(db, txn);
    var middle := BothRun(s, txn);
    BothCommit(Exec(s, middle), Ran(db, txn), scope);
    RunConcat(s, middle, commit);
    actions := middle + commit;
  }

  /** Two blocks over the same slot, checked one after the other before either commits. */
  lemma UnlockedBlocksCollide(s: State, scope: Option<CourtId>) returns (actions: seq<Action>)
    requires Initial(s) && CourtsOfBlock(s.db.courts, scope) == []
    ensures Run(s, actions) && NoOtherBlocks(actions, scope) && !Disjoint(Exec(s, actions).db.rows)
  {
    var begin := [Begin(0, Block(scope)), Begin(1, Block(scope))];
    BothBegin(s, Block(scope));
    var rest := BothRunAndCommit(Exec(s, begin), s.db, scope);
    RunConcat(s, begin, rest);
    actions := begin + rest;
    CollidingBlocks(Exec(s, actions).db.rows, scope);
  }

  lemma CollidingBlocks(rows: seq<Row>, scope: Option<CourtId>)
    requires rows == [BlockRow(scope), BlockRow(scope)]
    ensures !Disjoint(rows)
  {
    assert Conflict(rows[0], rows[1]);
  }

  /** Blocks keep the schedule free of double bookings, over all interleavings with all other writers, if and
      only if every scope in use locks a court row: a court of this club, or the whole club when it has courts. */
  lemma BlocksAreSafeIffTheyLock(s: State, scopes: set<Option<CourtId>>)
    requires Initial(s)
    ensures AlwaysDisjoint(s, scopes) <==> forall scope :: scope in scopes ==> CourtsOfBlock(s.db.courts, scope) != []
  {
    if scope :| scope in scopes && CourtsOfBlock(s.db.courts, scope) == [] {
      var actions := UnlockedBlocksCollide(s, scope);
      assert OnlyScopes(actions, scopes);
    } else {
      forall actions: seq<Action> | Run(s, actions) && OnlyScopes(actions, scopes)
        ensures Disjoint(Exec(s, actions).db.rows)
      {
        forall i | 0 <= i < |actions| && actions[i].Begin?
          ensures LocksACourt(s.db.courts, actions[i].req)
        {
        }
        NoDoubleBooking(s, actions);
      }
    }
  }

  // ---- Holds that expire under way ----

  /** One court, open around the clock. */
  function Week(n: nat): seq<WorkingHours.Row> {
    seq(n, d requires 0 <= d < n => WorkingHours.Row(d, WorkingHours.Time(0, 0, 0), WorkingHours.Time(0, 0, 0), false))
  }

  lemma {:induction false} WeekByDay(n: nat, d: nat)
    requires d < n
    ensures d in WorkingHours.ByDay(Week(n)) && WorkingHours.ByDay(Week(n))[d] == Week(n)[d]
  {
    assert Week(n)[..n - 1] == Week(n - 1);
    if d < n - 1 { WeekByDay(n - 1, d); }
  }

  lemma WeekIsOpen(start: int, end: int)
    ensures WorkingHours.OpenThroughout(Week(7), 0, start, end)
  {
    forall d | 0 <= d < 7
      ensures d in WorkingHours.ByDay(Week(7)) && WorkingHours.AllDayRow(WorkingHours.ByDay(Week(7))[d])
    {
      WeekByDay(7, d);
    }
    forall t | start <= t < end
      ensures WorkingHours.OpenAt(Week(7), 0, t)
    {
      WorkingHours.AlwaysOpen(Week(7), 0, t);
    }
  }

  /** Everybody wants the same hour of the same court. */
  function DeskRequest(prepaid: bool): Request {
    BookingRequest(Receptionist, 9, 0, 0, 60, [], None, prepaid, 0)
  }

  function DeskStatus(prepaid: bool): Status {
    if prepaid then Confirmed else Draft
  }

  function MemberRequest(): Request {
    BookingRequest(Customer, 1, 0, 0, 60, [], Some(7), false, 1000)
  }

  function EntryOf(user: UserId, fulfilled: bool): Entry {
    Entry(user, None, 0, HOUR_MS, fulfilled, false)
  }

  function HoldOf(user: UserId, token: nat, expiresAt: int, entry: nat): Hold {
    Hold(0, user, 0, HOUR_MS, token, expiresAt, None, entry)
  }

  function DeskRow(status: Status): Row {
    Reserved(Booking(0, 9, false, 0, HOUR_MS, status, false, [], None, 0, None))
  }

  function TablesOf(rows: seq<Row>, holds: seq<Hold>, waitlist: seq<Entry>): Tables {
    Tables([0], {0}, Week(7), 0, rows, holds, waitlist, map[], 0)
  }

  lemma DeskPasses(db: Tables, rows: seq<Row>, holds: seq<Hold>, waitlist: seq<Entry>, prepaid: bool)
    requires db == TablesOf(rows, holds, waitlist)
    requires forall i :: 0 <= i < |rows| ==> rows[i] == DeskRow(Cancelled)
    ensures NewBooking(DeskRequest(prepaid), 0) == DeskRow(DeskStatus(prepaid))
    ensures BookingPasses(db, DeskRequest(prepaid))
  {
    var claim := DeskRow(DeskStatus(prepaid));
    assert SortLines([]) == [];
    ValidationPasses(db, claim, 60, true);
  }

  /** The desk books the hour; it may override a hold. */
  lemma DeskBooks(s: State, rows: seq<Row>, holds: seq<Hold>, waitlist: seq<Entry>, prepaid: bool) returns (actions: seq<Action>)
    requires s == State(TablesOf(rows, holds, waitlist), map[])
    requires forall i :: 0 <= i < |rows| ==> rows[i] == DeskRow(Cancelled)
    requires forall h :: 0 <= h < |holds| ==> holds[h].user != 9
    ensures Run(s, actions) && Exec(s, actions) == State(TablesOf(rows + [DeskRow(DeskStatus(prepaid))], holds, waitlist), map[])
  {
    DeskPasses(s.db, rows, holds, waitlist, prepaid);
    assert DistinctItems(SortLines([]));
    ServedBooking(s.db, DeskRequest(prepaid));
    actions := ServedAlone(s, 0, DeskRequest(prepaid));
  }

  /** The desk's booking is cancelled and the hour held for the waitlisted user. */
  lemma DeskCancels(s: State, rows: seq<Row>, holds: seq<Hold>, waitlist: seq<Entry>, j: nat, token: nat, until: int)
    requires s == State(TablesOf(rows + [DeskRow(Draft)], holds, waitlist), map[])
    requires j < |waitlist| && waitlist[j] == EntryOf(waitlist[j].user, false) && waitlist[j].user != 9
    ensures var a := CancelBooking(|rows|, Some(j), token, until);
      Run(s, [a]) && Exec(s, [a]) == State(
        TablesOf(rows + [DeskRow(Cancelled)], holds + [HoldOf(waitlist[j].user, token, until, j)],
                 waitlist[j := EntryOf(waitlist[j].user, true)]), map[])
  {
    var all := rows + [DeskRow(Draft)];
    assert all[|rows|] == DeskRow(Draft);
    assert all[|rows| := DeskRow(Cancelled)] == rows + [DeskRow(Cancelled)];
    RunOne(s, CancelBooking(|rows|, Some(j), token, until));
  }

  function Contested(): State {
    var gone := DeskRow(Cancelled);
    State(TablesOf([gone, gone], [HoldOf(1, 7, 10, 0), HoldOf(2, 8, 1000, 1)], [EntryOf(1, true), EntryOf(2, true)]), map[])
  }

  /** Twice the hour is booked at the desk and cancelled; it ends up held for user 1, then for user 2. */
  lemma HourBecomesContested() returns (s: State, actions: seq<Action>)
    ensures Initial(s) && Run(s, actions) && Exec(s, actions) == Contested()
  {
    s := State(TablesOf([], [], []), map[]);
    var e1, e2, gone := EntryOf(1, false), EntryOf(2, false), DeskRow(Cancelled);
    var joins := [Join(e1), Join(e2)];
    RunTwo(s, Join(e1), Join(e2));
    var s1 := Exec(s, joins);
    assert s1 == State(TablesOf([], [], [e1, e2]), map[]);
    var book1 := DeskBooks(s1, [], [], [e1, e2], false);
    var s2 := Exec(s1, book1);
    DeskCancels(s2, [], [], [e1, e2], 0, 7, 10);
    var cancel1 := [CancelBooking(0, Some(0), 7, 10)];
    var s3 := Exec(s2, cancel1);
    var h1, waitlist := HoldOf(1, 7, 10, 0), [EntryOf(1, true), e2];
    assert s3 == State(TablesOf([gone], [h1], waitlist), map[]);
    var book2 := DeskBooks(s3, [gone], [h1], waitlist, false);
    var s4 := Exec(s3, book2);
    DeskCancels(s4, [gone], [h1], waitlist, 1, 8, 1000);
    var cancel2 := [CancelBooking(1, Some(1), 8, 1000)];
    assert Exec(s4, cancel2) == Contested();
    RunConcat(s3, book2, cancel2);
    RunConcat(s2, cancel1, book2 + cancel2);
    RunConcat(s1, book1, cancel1 + (book2 + cancel2));
    RunConcat(s, joins, book1 + (cancel1 + (book2 + cancel2)));
    actions := joins + (book1 + (cancel1 + (book2 + cancel2)));
  }

  /** User 1 is let in by their own hold, which expires before they commit: by then the earliest active hold
      over the hour is user 2's. */
  lemma ExpiredHoldLetsOneIn() returns (s: State, actions: seq<Action>)
    ensures Initial(s) && Run(s, actions)
    ensures var s' := Exec(s, actions);
      && 0 in s'.txns && s'.txns[0].todo == [] && s'.txns[0].req == MemberRequest() && s'.txns[0].began == 0
      && (var h := HoldFor(s'.db, NewBooking(MemberRequest(), 0), s'.db.now);
          h.Some? && s'.db.holds[h.value].user != MemberRequest().customer)
      && Enabled(s', Step(0)) && |Next(s', Step(0)).db.rows| == |s'.db.rows| + 1
  {
    var before: seq<Action>;
    s, before := HourBecomesContested();
    var s0, req := Contested(), MemberRequest();
    var s1 := Next(s0, Begin(0, req));
    var txn := s1.txns[0];
    MemberPasses();
    AllStepsPass(s1, 0);
    RanKeepsRequest(s0.db, txn);
    var s2 := Exec(s1, Steps(0, |txn.todo|));
    var s3 := Next(s2, Tick(50));
    RunOne(s0, Begin(0, req));
    RunOne(s2, Tick(50));
    RunConcat(s1, Steps(0, |txn.todo|), [Tick(50)]);
    RunConcat(s0, [Begin(0, req)], Steps(0, |txn.todo|) + [Tick(50)]);
    RunConcat(s, before, [Begin(0, req)] + (Steps(0, |txn.todo|) + [Tick(50)]));
    actions := before + ([Begin(0, req)] + (Steps(0, |txn.todo|) + [Tick(50)]));
    assert Wanted(s3.db, s3.txns[0]) == {};
    MemberIsBehind(s3.db);
  }

  lemma MemberIsBehind(db: Tables)
    requires db == Contested().db.(now := 50)
    ensures var h := HoldFor(db, NewBooking(MemberRequest(), 0), db.now);
      h.Some? && db.holds[h.value].user == 2
    ensures DistinctItems(SortLines(MemberRequest().lines)) && |Claims(MemberRequest(), 0)| == 1
  {
    assert SortLines([]) == [];
    assert !HoldMatches(db.holds[0], 0, 0, HOUR_MS, 50) && HoldMatches(db.holds[1], 0, 0, HOUR_MS, 50);
  }

  lemma MemberHours(db: Tables)
    requires db == Contested().db
    ensures Passes(db, db.now, CheckHours(0, HOUR_MS))
  {
    WeekIsOpen(0, HOUR_MS);
  }

  lemma MemberFirstChecks(db: Tables, st: Stmt)
    requires db == Contested().db
    requires st in [Acquire(CourtLock(0)), CheckFuture(0), Acquire(CustomerLock(1)), CheckUnpaid(1), CheckDuration(60), CheckAvailable(0)]
    ensures Passes(db, db.now, st)
  {
  }

  lemma MemberSlotChecks(db: Tables, claim: Row)
    requires db == Contested().db && claim == NewBooking(MemberRequest(), 0)
    ensures Passes(db, db.now, CheckBlocks(claim)) && Passes(db, db.now, CheckBookings(claim)) && Passes(db, db.now, ReadHolds(claim, Customer, Some(7)))
  {
    assert HoldMatches(db.holds[0], 0, 0, HOUR_MS, 0);
  }

  lemma MemberPasses()
    ensures AllPass(Contested().db, Started(Contested().db, MemberRequest()).todo)
  {
    var db, claim := Contested().db, NewBooking(MemberRequest(), 0);
    assert SortLines([]) == [];
    var first := [Acquire(CourtLock(0)), CheckFuture(0), Acquire(CustomerLock(1)), CheckUnpaid(1), CheckDuration(60), CheckAvailable(0)];
    var rest := [CheckHours(0, HOUR_MS), CheckBlocks(claim), CheckBookings(claim), ReadHolds(claim, Customer, Some(7))];
    assert Started(db, MemberRequest()).todo == first + rest;
    MemberHours(db);
    MemberSlotChecks(db, claim);
    forall st | st in first + rest
      ensures Passes(db, db.now, st)
    {
      if st in first { MemberFirstChecks(db, st); }
    }
  }

  // ---- A checked-in booking can be cancelled ----

  lemma CheckedInRow(s: State)
    requires s == State(TablesOf([DeskRow(Confirmed)], [], []), map[])
    ensures Run(s, [Write(CheckIn(0))]) && Exec(s, [Write(CheckIn(0))]).db.rows == [DeskRow(CheckedIn)]
  {
    RunOne(s, Write(CheckIn(0)));
  }

  lemma CheckedInCanBeCancelled(s: State)
    requires s.db.rows == [DeskRow(CheckedIn)]
    ensures Enabled(s, CancelBooking(0, None, 0, 0))
    ensures Next(s, CancelBooking(0, None, 0, 0)).db.rows == [DeskRow(Cancelled)]
  {
  }

  /** Booked and paid at the desk, checked in, then cancelled: a move the documented edges do not have. */
  lemma CheckedInThenCancelled() returns (s: State, actions: seq<Action>, s': State)
    ensures Initial(s) && Run(s, actions) && Exec(s, actions) == s'
    ensures s'.db.rows == [DeskRow(CheckedIn)] && Enabled(s', CancelBooking(0, None, 0, 0))
    ensures Next(s', CancelBooking(0, None, 0, 0)).db.rows == [DeskRow(Cancelled)]
    ensures !Reaches(CheckedIn, Cancelled)
  {
    s := State(TablesOf([], [], []), map[]);
    var book := DeskBooks(s, [], [], [], true);
    assert [] + [DeskRow(Confirmed)] == [DeskRow(Confirmed)];
    CheckedInRow(Exec(s, book));
    RunConcat(s, book, [Write(CheckIn(0))]);
    actions := book + [Write(CheckIn(0))];
    s' := Exec(s, actions);
    CheckedInCanBeCancelled(s');
    CheckedInOnlyCompletes(Cancelled);
  }

  lemma CheckedInOnlyCompletes(to: Status)
    ensures Reaches(CheckedIn, to) ==> to == CheckedIn || to == Completed
  {
    if Reaches(CheckedIn, to) {
      var path :| IsPath(path) && path[0] == CheckedIn && path[|path| - 1] == to;
      assert |path| > 1 ==> CanTransition(path[0], path[1]);
      assert |path| > 2 ==> CanTransition(path[1], path[2]);
    }
  }
}
