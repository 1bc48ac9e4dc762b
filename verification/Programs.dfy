// What the statement lists of the schedule writers guarantee about the order of locks and checks.

module Programs {
  import opened BookingStatus
  import opened Schedule
  import opened Interleaving

  // ---- Locks come before the checks they protect ----

  function CourtsNeeded(courts: seq<CourtId>, r: Row): set<CourtId> {
    if r.Reserved? then {r.booking.court} else set c | c in CourtsOfBlock(courts, r.court)
  }

  predicate CourtsLocked(courts: seq<CourtId>, r: Row, done: set<Stmt>) {
    forall c :: c in CourtsNeeded(courts, r) ==> Acquire(CourtLock(c)) in done
  }

  /** Everything that must precede a statement is done. */
  predicate Ready(courts: seq<CourtId>, st: Stmt, done: set<Stmt>) {
    match st
    case Acquire(l) => !l.HoldLock?
    case CheckBlocks(claim) => CourtsLocked(courts, claim, done)
    case CheckBookings(claim) => CourtsLocked(courts, claim, done)
    case CheckUnpaid(u) => Acquire(CustomerLock(u)) in done
    case ReadHolds(claim, _, _) => claim.Reserved? && CheckBookings(claim) in done && CourtsLocked(courts, claim, done)
    case CheckStock(line, _) => Acquire(EquipmentLock(line.equipment)) in done
    case _ => true
  }

  predicate WellOrdered(courts: seq<CourtId>, done: set<Stmt>, todo: seq<Stmt>)
    decreases |todo|
  {
    todo == [] || (Ready(courts, todo[0], done) && WellOrdered(courts, done + {todo[0]}, todo[1..]))
  }

  ghost function Elements(stmts: seq<Stmt>): set<Stmt> {
    set st | st in stmts
  }

  lemma ReadyMono(courts: seq<CourtId>, st: Stmt, done: set<Stmt>, done': set<Stmt>)
    requires Ready(courts, st, done) && done <= done'
    ensures Ready(courts, st, done')
  {
  }

  lemma {:induction false} WellOrderedConcat(courts: seq<CourtId>, done: set<Stmt>, a: seq<Stmt>, b: seq<Stmt>)
    requires WellOrdered(courts, done, a) && WellOrdered(courts, done + Elements(a), b)
    ensures WellOrdered(courts, done, a + b)
    decreases |a|
  {
    if a == [] {
      assert a + b == b && done + Elements(a) == done;
    } else {
      assert (a + b)[1..] == a[1..] + b;
      assert done + {a[0]} + Elements(a[1..]) == done + Elements(a);
      WellOrderedConcat(courts, done + {a[0]}, a[1..], b);
    }
  }

  /** A list none of whose statements needs anything it does not already have. */
  lemma {:induction false} AllReady(courts: seq<CourtId>, done: set<Stmt>, stmts: seq<Stmt>)
    requires forall st :: st in stmts ==> Ready(courts, st, done)
    ensures WellOrdered(courts, done, stmts)
    decreases |stmts|
  {
    if stmts != [] {
      forall st | st in stmts[1..]
        ensures Ready(courts, st, done + {stmts[0]})
      {
        ReadyMono(courts, st, done, done + {stmts[0]});
      }
      AllReady(courts, done + {stmts[0]}, stmts[1..]);
    }
  }

  lemma {:induction false} LinesOrdered(courts: seq<CourtId>, done: set<Stmt>, lines: seq<Line>, claim: Row)
    ensures WellOrdered(courts, done, LineStatements(lines, claim))
    decreases |lines|
  {
    if lines != [] {
      var all := LineStatements(lines, claim);
      var lock, check := all[0], all[1];
      assert all[1..][1..] == LineStatements(lines[1..], claim);
      LinesOrdered(courts, done + {lock} + {check}, lines[1..], claim);
      assert WellOrdered(courts, done + {lock}, all[1..]);
    }
  }

  lemma ValidationOrdered(courts: seq<CourtId>, done: set<Stmt>, claim: Row, minutes: int, bypass: bool)
    requires claim.Reserved? && Acquire(CourtLock(claim.booking.court)) in done
    ensures WellOrdered(courts, done, Validation(claim, minutes, bypass))
    ensures CheckBookings(claim) in Validation(claim, minutes, bypass)
  {
    AllReady(courts, done, Validation(claim, minutes, bypass));
  }

  lemma {:induction false} OccurrencesOrdered(courts: seq<CourtId>, done: set<Stmt>, req: Request, now: int, from: nat)
    requires req.SubscriptionRequest? && from <= 4 * req.months && Acquire(CourtLock(req.court)) in done
    ensures WellOrdered(courts, done, OccurrenceChecks(req, now, from))
    decreases 4 * req.months - from
  {
    if from < 4 * req.months {
      var head := Validation(Occurrence(req, from, now), req.minutes, true);
      ValidationOrdered(courts, done, Occurrence(req, from, now), req.minutes, true);
      OccurrencesOrdered(courts, done + Elements(head), req, now, from + 1);
      WellOrderedConcat(courts, done, head, OccurrenceChecks(req, now, from + 1));
    }
  }

  lemma CapOrdered(courts: seq<CourtId>, done: set<Stmt>, req: Request)
    requires req.BookingRequest?
    ensures WellOrdered(courts, done, CapStatements(req))
  {
    if req.role == Customer {
      var cap := CapStatements(req);
      assert cap[1..][1..] == [CheckUnpaid(req.customer)];
      AllReady(courts, done + {cap[0]} + {cap[1]}, cap[1..][1..]);
      assert WellOrdered(courts, done + {cap[0]}, cap[1..]);
    }
  }

  function BookingHead(req: Request, now: int): seq<Stmt>
    requires req.BookingRequest?
  {
    [Acquire(CourtLock(req.court))] + CapStatements(req)
    + Validation(NewBooking(req, now), req.minutes, req.role != Customer)
  }

  lemma BookingHeadOrdered(courts: seq<CourtId>, req: Request, now: int)
    requires req.BookingRequest?
    ensures WellOrdered(courts, {}, BookingHead(req, now))
    ensures Acquire(CourtLock(req.court)) in BookingHead(req, now)
    ensures CheckBookings(NewBooking(req, now)) in BookingHead(req, now)
  {
    var claim := NewBooking(req, now);
    var lock, cap := [Acquire(CourtLock(req.court))], CapStatements(req);
    var slot := Validation(claim, req.minutes, req.role != Customer);
    AllReady(courts, {}, lock);
    CapOrdered(courts, {} + Elements(lock), req);
    WellOrderedConcat(courts, {}, lock, cap);
    assert lock[0] in lock + cap;
    ValidationOrdered(courts, {} + Elements(lock + cap), claim, req.minutes, req.role != Customer);
    WellOrderedConcat(courts, {}, lock + cap, slot);
  }

  lemma BookingOrdered(courts: seq<CourtId>, req: Request, now: int)
    requires req.BookingRequest?
    ensures WellOrdered(courts, {}, Program(req, courts, now))
  {
    var claim := NewBooking(req, now);
    var head := BookingHead(req, now);
    var holds := [ReadHolds(claim, req.role, req.token)];
    var lines := LineStatements(SortLines(req.lines), claim);
    BookingHeadOrdered(courts, req, now);
    AllReady(courts, {} + Elements(head), holds);
    WellOrderedConcat(courts, {}, head, holds);
    LinesOrdered(courts, {} + Elements(head + holds), SortLines(req.lines), claim);
    WellOrderedConcat(courts, {}, head + holds, lines);
    assert Program(req, courts, now) == head + holds + lines;
  }

  lemma SubscriptionOrdered(courts: seq<CourtId>, req: Request, now: int)
    requires req.SubscriptionRequest?
    ensures WellOrdered(courts, {}, Program(req, courts, now))
  {
    var head := [CheckTerm(req.months), CheckFuture(req.start), Acquire(CourtLock(req.court))];
    AllReady(courts, {}, head);
    assert head[2] in head;
    OccurrencesOrdered(courts, {} + Elements(head), req, now, 0);
    WellOrderedConcat(courts, {}, head, OccurrenceChecks(req, now, 0));
  }

  lemma BlockOrdered(courts: seq<CourtId>, req: Request, now: int)
    requires req.BlockRequest?
    ensures WellOrdered(courts, {}, Program(req, courts, now))
  {
    var claim := Blocked(req.scope, req.start, req.end, false);
    var own := CourtsOfBlock(courts, req.scope);
    var head, locks, checks := [CheckNonEmpty(req.start, req.end)], CourtAcquisitions(own), [CheckBookings(claim), CheckBlocks(claim)];
    assert Program(req, courts, now) == (head + locks) + checks;
    AllReady(courts, {}, head + locks);
    forall c | c in CourtsNeeded(courts, claim)
      ensures Acquire(CourtLock(c)) in head + locks
    {
      var i :| 0 <= i < |own| && own[i] == c;
      assert locks[i] == Acquire(CourtLock(c));
    }
    AllReady(courts, {} + Elements(head + locks), checks);
    WellOrderedConcat(courts, {}, head + locks, checks);
  }

  /** Every writer takes its locks before the checks that rely on them. */
  lemma ProgramsAreWellOrdered(courts: seq<CourtId>, req: Request, now: int)
    ensures WellOrdered(courts, {}, Program(req, courts, now))
  {
    match req
    case BookingRequest(_, _, _, _, _, _, _, _, _) => BookingOrdered(courts, req, now);
    case SubscriptionRequest(_, _, _, _, _, _) => SubscriptionOrdered(courts, req, now);
    case BlockRequest(_, _, _) => BlockOrdered(courts, req, now);
  }

  // ---- Every claim is checked ----

  lemma {:induction false} OccurrenceIsChecked(req: Request, now: int, from: nat, i: nat)
    requires req.SubscriptionRequest? && from <= i < 4 * req.months
    ensures CheckBlocks(Occurrence(req, i, now)) in OccurrenceChecks(req, now, from)
    ensures CheckBookings(Occurrence(req, i, now)) in OccurrenceChecks(req, now, from)
    ensures CheckDuration(req.minutes) in OccurrenceChecks(req, now, from)
    decreases i - from
  {
    var head := Validation(Occurrence(req, from, now), req.minutes, true);
    assert head[0] == CheckDuration(req.minutes) && head[2] == CheckBlocks(Occurrence(req, from, now))
        && head[3] == CheckBookings(Occurrence(req, from, now));
    if from < i { OccurrenceIsChecked(req, now, from + 1, i); }
  }

  /** Every row a request would insert is checked against blocks and bookings, and has a valid length. */
  lemma ClaimsAreChecked(courts: seq<CourtId>, req: Request, now: int, i: nat)
    requires i < |Claims(req, now)|
    ensures var claim, program := Claims(req, now)[i], Program(req, courts, now);
      && CheckBlocks(claim) in program && CheckBookings(claim) in program
      && (claim.Blocked? <==> req.BlockRequest?)
      && (claim.Reserved? ==> CheckDuration(req.minutes) in program && claim.booking.court == req.court)
      && (claim.Blocked? ==> CheckNonEmpty(StartOf(claim), EndOf(claim)) in program)
  {
    match req
    case BookingRequest(role, customer, court, start, minutes, lines, token, _, _) =>
      var claim := NewBooking(req, now);
      var slot := Validation(claim, minutes, role != Customer);
      assert slot[0] == CheckDuration(minutes) && slot[|slot| - 2] == CheckBlocks(claim) && slot[|slot| - 1] == CheckBookings(claim);
      assert forall st :: st in slot ==> st in Program(req, courts, now);
    case SubscriptionRequest(_, _, _, _, _, _) =>
      OccurrenceIsChecked(req, now, 0, i);
    case BlockRequest(_, _, _) =>
  }

  lemma {:induction false} OccurrenceChecksAreOfClaims(req: Request, now: int, from: nat, st: Stmt)
    requires req.SubscriptionRequest? && from <= 4 * req.months && st in OccurrenceChecks(req, now, from)
    requires st.CheckBlocks? || st.CheckBookings?
    ensures st.claim in Claims(req, now)
    decreases 4 * req.months - from
  {
    if from < 4 * req.months {
      assert Claims(req, now)[from] == Occurrence(req, from, now);
      if st in OccurrenceChecks(req, now, from + 1) { OccurrenceChecksAreOfClaims(req, now, from + 1, st); }
    }
  }

  /** Only rows that would be inserted are checked. */
  lemma ChecksAreOfClaims(courts: seq<CourtId>, req: Request, now: int, st: Stmt)
    requires st in Program(req, courts, now) && (st.CheckBlocks? || st.CheckBookings?)
    ensures st.claim in Claims(req, now)
  {
    match req
    case BookingRequest(_, _, _, _, _, lines, _, _, _) =>
      if st in LineStatements(SortLines(lines), NewBooking(req, now)) {
        LineStatementKinds(SortLines(lines), NewBooking(req, now), st);
      }
    case SubscriptionRequest(_, _, _, _, _, _) =>
      if st in OccurrenceChecks(req, now, 0) { OccurrenceChecksAreOfClaims(req, now, 0, st); }
    case BlockRequest(_, _, _) =>
  }

  lemma {:induction false} LineIsChecked(lines: seq<Line>, claim: Row, j: nat)
    requires j < |lines|
    ensures CheckStock(lines[j], claim) in LineStatements(lines, claim)
  {
    if j > 0 { LineIsChecked(lines[1..], claim, j - 1); }
  }

  /** A customer's booking is checked against the cap, and any booking against the holds and the stock. */
  lemma BookingIsChecked(courts: seq<CourtId>, req: Request, now: int)
    requires req.BookingRequest?
    ensures var claim, program := NewBooking(req, now), Program(req, courts, now);
      && ReadHolds(claim, req.role, req.token) in program
      && (req.role == Customer ==> CheckUnpaid(req.customer) in program)
      && forall j :: 0 <= j < |claim.booking.lines| ==> CheckStock(claim.booking.lines[j], claim) in program
  {
    var claim := NewBooking(req, now);
    forall j | 0 <= j < |claim.booking.lines|
      ensures CheckStock(claim.booking.lines[j], claim) in Program(req, courts, now)
    {
      LineIsChecked(claim.booking.lines, claim, j);
    }
  }

  // ---- The holds are read once ----

  lemma {:induction false} LineStatementKinds(lines: seq<Line>, claim: Row, st: Stmt)
    requires st in LineStatements(lines, claim)
    ensures (st.Acquire? && st.lock.EquipmentLock?) || st.CheckStock?
  {
    if st in LineStatements(lines[1..], claim) { LineStatementKinds(lines[1..], claim, st); }
  }

  lemma {:induction false} OccurrenceStatementKinds(req: Request, now: int, from: nat, st: Stmt)
    requires req.SubscriptionRequest? && from <= 4 * req.months && st in OccurrenceChecks(req, now, from)
    ensures !st.ReadHolds? && !st.Acquire?
    decreases 4 * req.months - from
  {
    if from < 4 * req.months && st in OccurrenceChecks(req, now, from + 1) {
      OccurrenceStatementKinds(req, now, from + 1, st);
    }
  }

  lemma OneReadHolds(courts: seq<CourtId>, req: Request, now: int, st: Stmt)
    requires st in Program(req, courts, now) && st.ReadHolds?
    ensures req.BookingRequest? && st == ReadHolds(NewBooking(req, now), req.role, req.token)
  {
    match req
    case BookingRequest(_, _, _, _, _, lines, _, _, _) =>
      if st in LineStatements(SortLines(lines), NewBooking(req, now)) {
        LineStatementKinds(SortLines(lines), NewBooking(req, now), st);
      }
    case SubscriptionRequest(_, _, _, _, _, _) =>
      if st in OccurrenceChecks(req, now, 0) { OccurrenceStatementKinds(req, now, 0, st); }
    case BlockRequest(_, _, _) =>
  }
}
