// What serving each kind of request amounts to: the checks it has to pass and the rows it leaves behind.

module ServedRequests {
  import opened Options
  import opened BookingStatus
  import opened Schedule
  import opened Interleaving
  import opened Programs
  import opened Serving
  import opened ScheduleSafety
  import opened ScheduleRuns

  // ---- When a statement list passes ----

  lemma PassConcat(db: Tables, a: seq<Stmt>, b: seq<Stmt>)
    ensures AllPass(db, a + b) <==> AllPass(db, a) && AllPass(db, b)
  {
    assert forall st :: st in a + b <==> st in a || st in b;
  }

  lemma {:induction false} LinesPass(db: Tables, lines: seq<Line>, claim: Row)
    ensures AllPass(db, LineStatements(lines, claim)) <==>
      forall j :: 0 <= j < |lines| ==> Passes(db, db.now, CheckStock(lines[j], claim))
  {
    if lines != [] {
      var rest := LineStatements(lines[1..], claim);
      LinesPass(db, lines[1..], claim);
      PassConcat(db, [Acquire(EquipmentLock(lines[0].equipment)), CheckStock(lines[0], claim)], rest);
      assert lines == [lines[0]] + lines[1..];
      assert AllPass(db, [Acquire(EquipmentLock(lines[0].equipment)), CheckStock(lines[0], claim)]) <==>
        Passes(db, db.now, CheckStock(lines[0], claim));
    }
  }

  ghost predicate CapPasses(db: Tables, req: Request)
    requires req.BookingRequest?
  {
    req.role == Customer ==> req.start >= db.now && NoUnpaid(db.rows, req.customer, db.now)
  }

  lemma CapStatementsPass(db: Tables, req: Request)
    requires req.BookingRequest?
    ensures AllPass(db, CapStatements(req)) <==> CapPasses(db, req)
  {
    var cap := CapStatements(req);
    if req.role == Customer {
      assert cap[0] == CheckFuture(req.start) && cap[2] == CheckUnpaid(req.customer);
      assert cap == [cap[0], cap[1], cap[2]];
      assert AllPass(db, cap) <==> Passes(db, db.now, cap[0]) && Passes(db, db.now, cap[1]) && Passes(db, db.now, cap[2]);
    }
  }

  /** The slot validation, check by check. */
  lemma ValidationPasses(db: Tables, claim: Row, minutes: int, bypass: bool)
    requires claim.Reserved?
    ensures AllPass(db, Validation(claim, minutes, bypass)) <==>
      && Passes(db, db.now, CheckDuration(minutes)) && Passes(db, db.now, CheckAvailable(claim.booking.court))
      && (bypass || Passes(db, db.now, CheckHours(claim.booking.start, claim.booking.end)))
      && Passes(db, db.now, CheckBlocks(claim)) && Passes(db, db.now, CheckBookings(claim))
  {
    var slot := Validation(claim, minutes, bypass);
    assert slot[0] == CheckDuration(minutes) && slot[1] == CheckAvailable(claim.booking.court);
    assert slot[|slot| - 2] == CheckBlocks(claim) && slot[|slot| - 1] == CheckBookings(claim);
    if !bypass { assert slot[2] == CheckHours(claim.booking.start, claim.booking.end); }
  }

  /** Everything a booking is checked for. */
  ghost predicate BookingPasses(db: Tables, req: Request)
    requires req.BookingRequest?
  {
    var claim := NewBooking(req, db.now);
    && req.court in db.courts
    && CapPasses(db, req)
    && AllPass(db, Validation(claim, req.minutes, req.role != Customer))
    && Passes(db, db.now, ReadHolds(claim, req.role, req.token))
    && forall j :: 0 <= j < |claim.booking.lines| ==> Passes(db, db.now, CheckStock(claim.booking.lines[j], claim))
  }

  lemma BookingProgramPasses(db: Tables, req: Request)
    requires req.BookingRequest?
    ensures AllPass(db, Program(req, db.courts, db.now)) <==> BookingPasses(db, req)
  {
    var claim := NewBooking(req, db.now);
    var lock, cap := [Acquire(CourtLock(req.court))], CapStatements(req);
    var slot := Validation(claim, req.minutes, req.role != Customer);
    var holds, lines := [ReadHolds(claim, req.role, req.token)], LineStatements(SortLines(req.lines), claim);
    PassConcat(db, lock + cap + slot + holds, lines);
    PassConcat(db, lock + cap + slot, holds);
    PassConcat(db, lock + cap, slot);
    PassConcat(db, lock, cap);
    CapStatementsPass(db, req);
    LinesPass(db, SortLines(req.lines), claim);
    assert holds[0] in holds && lock[0] in lock;
    assert Program(req, db.courts, db.now) == lock + cap + slot + holds + lines;
  }

  lemma {:induction false} NoMoreHolds(db: Tables, txn: Txn)
    requires forall st :: st in txn.todo ==> !st.ReadHolds?
    ensures Ran(db, txn).claimed == txn.claimed
    decreases |txn.todo|
  {
    if txn.todo != [] { NoMoreHolds(db, Executed(db, txn)); }
  }

  /** The claimed hold is what the one reading of the holds found. */
  lemma {:induction false} RanClaims(db: Tables, txn: Txn, read: Stmt)
    requires read in txn.todo && read.ReadHolds? && read.claim.Reserved?
    requires forall st :: st in txn.todo && st.ReadHolds? ==> st == read
    ensures Ran(db, txn).claimed == ClaimedBy(db, txn, read)
    decreases |txn.todo|
  {
    var next := Executed(db, txn);
    if read in txn.todo[1..] {
      RanClaims(db, next, read);
    } else {
      NoMoreHolds(db, next);
    }
  }

  lemma BookingClaims(db: Tables, req: Request)
    requires req.BookingRequest?
    ensures var claim := NewBooking(req, db.now);
      Ran(db, Started(db, req)).claimed == ClaimedBy(db, Started(db, req), ReadHolds(claim, req.role, req.token))
  {
    BookingIsChecked(db.courts, req, db.now);
    forall st | st in Program(req, db.courts, db.now) && st.ReadHolds?
      ensures st == ReadHolds(NewBooking(req, db.now), req.role, req.token)
    {
      OneReadHolds(db.courts, req, db.now, st);
    }
    RanClaims(db, Started(db, req), ReadHolds(NewBooking(req, db.now), req.role, req.token));
  }

  /** What serving a booking leaves behind. */
  lemma ServedBooking(db: Tables, req: Request)
    requires req.BookingRequest?
    ensures !BookingPasses(db, req) || !DistinctItems(SortLines(req.lines)) ==> Served(db, req) == db
    ensures BookingPasses(db, req) && DistinctItems(SortLines(req.lines)) ==>
      (var claim := NewBooking(req, db.now);
       var claimed := ClaimedBy(db, Started(db, req), ReadHolds(claim, req.role, req.token));
       Served(db, req) == db.(
         rows := db.rows + [claim],
         holds := if claimed.Some? then db.holds[claimed.value := db.holds[claimed.value].(claimedBy := Some(|db.rows|))] else db.holds))
  {
    BookingProgramPasses(db, req);
    BookingClaims(db, req);
    RanKeepsRequest(db, Started(db, req));
  }

  ghost predicate BookingAccepted(db: Tables, req: Request)
    requires req.BookingRequest?
  {
    BookingPasses(db, req) && DistinctItems(SortLines(req.lines))
  }

  lemma BookingRefused(db: Tables, req: Request)
    requires req.BookingRequest? && !BookingAccepted(db, req)
    ensures Served(db, req) == db
  {
    ServedBooking(db, req);
  }

  lemma BookingCommitted(before: Tables, after: Tables, req: Request, claimed: Option<nat>)
    requires req.BookingRequest? && BookingAccepted(before, req)
    requires claimed == ClaimedBy(before, Started(before, req), ReadHolds(NewBooking(req, before.now), req.role, req.token))
    requires claimed.Some? ==> claimed.value < |before.holds|
    requires after == before.(
      rows := before.rows + [NewBooking(req, before.now)],
      holds := if claimed.Some? then before.holds[claimed.value := before.holds[claimed.value].(claimedBy := Some(|before.rows|))] else before.holds)
    ensures after == Served(before, req)
  {
    ServedBooking(before, req);
  }

  // ---- Subscriptions and blocks ----

  lemma FirstWeekPasses(db: Tables, req: Request, from: nat)
    requires req.SubscriptionRequest? && from < 4 * req.months
    ensures AllPass(db, OccurrenceChecks(req, db.now, from)) <==>
      WeekPasses(db, req, from) && AllPass(db, OccurrenceChecks(req, db.now, from + 1))
  {
    PassConcat(db, Validation(Occurrence(req, from, db.now), req.minutes, true), OccurrenceChecks(req, db.now, from + 1));
  }

  lemma {:induction false} WeeksPass(db: Tables, req: Request, from: nat)
    requires req.SubscriptionRequest? && from <= 4 * req.months
    ensures AllPass(db, OccurrenceChecks(req, db.now, from)) <==>
      forall i :: from <= i < 4 * req.months ==> WeekPasses(db, req, i)
    decreases 4 * req.months - from
  {
    if from < 4 * req.months {
      FirstWeekPasses(db, req, from);
      WeeksPass(db, req, from + 1);
    }
  }

  ghost predicate WeekPasses(db: Tables, req: Request, i: int)
    requires req.SubscriptionRequest?
  {
    AllPass(db, Validation(Occurrence(req, i, db.now), req.minutes, true))
  }

  ghost predicate SubscriptionPasses(db: Tables, req: Request)
    requires req.SubscriptionRequest?
  {
    && (req.months == 1 || req.months == 3)
    && req.start >= db.now
    && req.court in db.courts
    && forall i :: 0 <= i < 4 * req.months ==> WeekPasses(db, req, i)
  }

  lemma ServedSubscription(db: Tables, req: Request)
    requires req.SubscriptionRequest?
    ensures Served(db, req) ==
      if SubscriptionPasses(db, req) then db.(rows := db.rows + Claims(req, db.now)) else db
  {
    var head := [CheckTerm(req.months), CheckFuture(req.start), Acquire(CourtLock(req.court))];
    PassConcat(db, head, OccurrenceChecks(req, db.now, 0));
    WeeksPass(db, req, 0);
    assert AllPass(db, head) <==> Passes(db, db.now, head[0]) && Passes(db, db.now, head[1]) && Passes(db, db.now, head[2]);
    forall st | st in Program(req, db.courts, db.now)
      ensures !st.ReadHolds?
    {
      if st.ReadHolds? { OneReadHolds(db.courts, req, db.now, st); }
    }
    NoMoreHolds(db, Started(db, req));
    RanKeepsRequest(db, Started(db, req));
  }

  lemma SubscriptionRefused(db: Tables, req: Request)
    requires req.SubscriptionRequest? && !SubscriptionPasses(db, req)
    ensures Served(db, req) == db
  {
    ServedSubscription(db, req);
  }

  lemma SubscriptionCommitted(before: Tables, after: Tables, req: Request)
    requires req.SubscriptionRequest? && SubscriptionPasses(before, req)
    requires after == before.(rows := before.rows + Claims(req, before.now))
    ensures after == Served(before, req)
  {
    ServedSubscription(before, req);
  }

  ghost predicate BlockPasses(db: Tables, req: Request)
    requires req.BlockRequest?
  {
    var claim := Blocked(req.scope, req.start, req.end, false);
    req.start < req.end && ClearOfBookings(db.rows, claim) && ClearOfBlocks(db.rows, claim)
  }

  lemma BlockProgramPasses(db: Tables, req: Request)
    requires req.BlockRequest?
    ensures AllPass(db, Program(req, db.courts, db.now)) <==> BlockPasses(db, req)
  {
    var claim := Blocked(req.scope, req.start, req.end, false);
    var own := CourtsOfBlock(db.courts, req.scope);
    var head, locks, checks := [CheckNonEmpty(req.start, req.end)], CourtAcquisitions(own), [CheckBookings(claim), CheckBlocks(claim)];
    assert Program(req, db.courts, db.now) == head + locks + checks;
    PassConcat(db, head + locks, checks);
    PassConcat(db, head, locks);
    assert AllPass(db, checks) <==> Passes(db, db.now, checks[0]) && Passes(db, db.now, checks[1]);
    assert AllPass(db, head) <==> Passes(db, db.now, head[0]);
    forall st | st in locks
      ensures Passes(db, db.now, st)
    {
      var i :| 0 <= i < |locks| && locks[i] == st;
      assert own[i] in db.courts;
    }
  }

  lemma ServedBlock(db: Tables, req: Request)
    requires req.BlockRequest?
    ensures Served(db, req) ==
      if BlockPasses(db, req) then db.(rows := db.rows + [Blocked(req.scope, req.start, req.end, false)]) else db
  {
    BlockProgramPasses(db, req);
    forall st | st in Program(req, db.courts, db.now)
      ensures !st.ReadHolds?
    {
      if st.ReadHolds? { OneReadHolds(db.courts, req, db.now, st); }
    }
    NoMoreHolds(db, Started(db, req));
    RanKeepsRequest(db, Started(db, req));
  }

  /** Serving a request one at a time keeps the whole schedule sound. */
  lemma ServingKeepsTables(db: Tables, req: Request)
    requires TablesOk(db) && LocksACourt(db.courts, req)
    ensures TablesOk(Served(db, req)) && Served(db, req).courts == db.courts
  {
    var s := State(db, map[]);
    var actions := ServedAlone(s, 0, req);
    assert actions[0].req == req;
    RunsKeepInv(s, actions);
  }
}
