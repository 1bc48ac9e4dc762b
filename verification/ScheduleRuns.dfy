// Commits keep the joint invariant; hence every run does.

module ScheduleRuns {
  import opened Options
  import opened Instants
  import opened BookingStatus
  import opened Schedule
  import opened RowLemmas
  import opened Interleaving
  import opened Programs
  import opened ScheduleSafety

  /** Ready to commit: every statement of its program has been executed. */
  ghost predicate Finished(db: Tables, txn: Txn) {
    TxnOk(db, txn) && txn.todo == [] && Insertable(txn)
  }

  // ---- The rows being inserted ----

  /** A row about to be inserted conflicts with nothing stored. */
  lemma ClaimIsClear(db: Tables, txn: Txn, k: nat)
    requires Finished(db, txn) && k < |Claims(txn.req, txn.began)|
    ensures var r := Claims(txn.req, txn.began)[k];
      ClearOfBookings(db.rows, r) && ClearOfBlocks(db.rows, r)
    ensures txn.req.BlockRequest? || ValidDuration(txn.req.minutes)
  {
    ClaimsAreChecked(db.courts, txn.req, txn.began, k);
    var r := Claims(txn.req, txn.began)[k];
    assert Post(db, txn, CheckBlocks(r)) && Post(db, txn, CheckBookings(r));
    if !txn.req.BlockRequest? {
      assert Post(db, txn, CheckDuration(txn.req.minutes));
    }
  }

  /** Weekly occurrences of a valid length never overlap each other. */
  lemma WeeksApart(req: Request, now: int, i: nat, j: nat)
    requires req.SubscriptionRequest? && ValidDuration(req.minutes) && i < j
    ensures !Conflict(Occurrence(req, i, now), Occurrence(req, j, now))
  {
    assert i * WEEK_MS + WEEK_MS <= j * WEEK_MS;
  }

  lemma ClaimsAreDisjoint(req: Request, now: int)
    requires req.BlockRequest? || ValidDuration(req.minutes)
    ensures Disjoint(Claims(req, now))
  {
    forall i, j | 0 <= i < j < |Claims(req, now)|
      ensures !Conflict(Claims(req, now)[i], Claims(req, now)[j])
    {
      WeeksApart(req, now, i, j);
    }
  }

  lemma CommitKeepsDisjoint(db: Tables, txn: Txn)
    requires Finished(db, txn) && Disjoint(db.rows)
    ensures Disjoint(db.rows + Claims(txn.req, txn.began))
  {
    var claims := Claims(txn.req, txn.began);
    var rows := db.rows + claims;
    forall i, j | 0 <= i < j < |rows| && Live(rows[i]) && Live(rows[j])
      ensures !Conflict(rows[i], rows[j])
    {
      if j >= |db.rows| {
        ClaimIsClear(db, txn, j - |db.rows|);
        if i >= |db.rows| {
          ClaimsAreDisjoint(txn.req, txn.began);
          assert rows[i] == claims[i - |db.rows|] && rows[j] == claims[j - |db.rows|];
        }
      }
    }
  }

  // ---- Equipment ----

  lemma ClaimLines(req: Request, now: int, k: nat)
    requires k < |Claims(req, now)|
    ensures var r := Claims(req, now)[k];
      r.Reserved? ==> if req.BookingRequest? then r == NewBooking(req, now) && k == 0 else r.booking.lines == []
    ensures req.BookingRequest? ==> Claims(req, now) == [NewBooking(req, now)]
  {
  }

  /** The new booking's lines fit in the stock together with all that overlaps the booking. */
  lemma LinePassedStock(db: Tables, txn: Txn, j: nat)
    requires Finished(db, txn) && txn.req.BookingRequest? && j < |NewBooking(txn.req, txn.began).booking.lines|
    ensures var claim := NewBooking(txn.req, txn.began); var line := claim.booking.lines[j];
      && line.quantity > 0 && line.equipment in db.items
      && RentedOver(db.rows, line.equipment, StartOf(claim), EndOf(claim)) + line.quantity <= db.items[line.equipment].stock
  {
    BookingIsChecked(db.courts, txn.req, txn.began);
    var claim := NewBooking(txn.req, txn.began);
    assert Post(db, txn, CheckStock(claim.booking.lines[j], claim));
  }

  lemma CommitKeepsLines(db: Tables, txn: Txn)
    requires Finished(db, txn) && Positive(db.rows) && LinesKnown(db)
    ensures Positive(db.rows + Claims(txn.req, txn.began))
    ensures LinesKnown(Committed(db, txn))
  {
    var rows := Committed(db, txn).rows;
    forall i | 0 <= i < |rows|
      ensures PositiveRow(rows[i])
      ensures rows[i].Reserved? ==> forall j :: 0 <= j < |rows[i].booking.lines| ==> rows[i].booking.lines[j].equipment in db.items
    {
      if i < |db.rows| {
        assert rows[i] == db.rows[i] && PositiveRow(db.rows[i]);
      } else {
        ClaimLines(txn.req, txn.began, i - |db.rows|);
        if rows[i].Reserved? && txn.req.BookingRequest? {
          forall j | 0 <= j < |rows[i].booking.lines|
            ensures rows[i].booking.lines[j].quantity > 0 && rows[i].booking.lines[j].equipment in db.items
          {
            LinePassedStock(db, txn, j);
          }
        }
      }
    }
  }

  lemma ClaimsRent(req: Request, now: int, e: EquipmentId, start: int, end: int, t: int)
    ensures !req.BookingRequest? ==>
      RentedOver(Claims(req, now), e, start, end) == 0 && RentedAt(Claims(req, now), e, t) == 0
    ensures req.BookingRequest? ==>
      var r := NewBooking(req, now);
      && RentedOver(Claims(req, now), e, start, end) == (if Overlap(StartOf(r), EndOf(r), start, end) then Rented(r, e) else 0)
      && RentedAt(Claims(req, now), e, t) == if StartOf(r) <= t < EndOf(r) then Rented(r, e) else 0
  {
    if req.BookingRequest? {
      var claims := Claims(req, now);
      assert claims[..0] == [];
    } else {
      forall i | 0 <= i < |Claims(req, now)|
        ensures Rented(Claims(req, now)[i], e) == 0
      {
        ClaimLines(req, now, i);
      }
      NoLinesNoRent(Claims(req, now), e, start, end, t);
    }
  }

  /** The item is on one line of the new booking, or on none. */
  lemma NewBookingRents(db: Tables, txn: Txn, e: EquipmentId)
    requires Finished(db, txn) && txn.req.BookingRequest?
    ensures var r := NewBooking(txn.req, txn.began);
      Rented(r, e) == 0 ||
      (e in db.items && RentedOver(db.rows, e, StartOf(r), EndOf(r)) + Rented(r, e) <= db.items[e].stock)
  {
    var r := NewBooking(txn.req, txn.began);
    if j :| 0 <= j < |r.booking.lines| && r.booking.lines[j].equipment == e {
      LinePassedStock(db, txn, j);
      QuantityOfDistinct(r.booking.lines, j);
    } else {
      QuantityOfAbsent(r.booking.lines, e);
    }
  }

  lemma CommitKeepsStock(db: Tables, txn: Txn)
    requires Finished(db, txn) && Positive(db.rows) && StockRespected(db)
    ensures StockRespected(Committed(db, txn))
  {
    var claims := Claims(txn.req, txn.began);
    forall e, t | e in db.items
      ensures RentedAt(db.rows + claims, e, t) <= db.items[e].stock
    {
      RentedAtAppend(db.rows, claims, e, t);
      ClaimsRent(txn.req, txn.began, e, 0, 0, t);
      if txn.req.BookingRequest? {
        NewBookingRents(db, txn, e);
        var r := NewBooking(txn.req, txn.began);
        if StartOf(r) <= t < EndOf(r) {
          WindowSumBoundsInstant(db.rows, e, StartOf(r), EndOf(r), t);
        }
      }
    }
  }

  // ---- The cap ----

  lemma ClaimUnpaid(req: Request, now: int, k: nat, u: UserId, at: int)
    requires k < |Claims(req, now)|
    ensures var r := Claims(req, now)[k];
      r.Reserved? && r.booking.selfMade ==> req.BookingRequest? && req.role == Customer && r.booking.customer == req.customer
    ensures req.BookingRequest? ==> k == 0
  {
  }

  lemma CommitKeepsCap(db: Tables, txn: Txn)
    requires Finished(db, txn) && UnpaidCapped(db.rows, db.now)
    ensures UnpaidCapped(db.rows + Claims(txn.req, txn.began), db.now)
  {
    var rows := db.rows + Claims(txn.req, txn.began);
    forall i, j | 0 <= i < j < |rows|
      ensures !BothUnpaid(rows[i], rows[j], db.now)
    {
      if j < |db.rows| {
        assert !BothUnpaid(db.rows[i], db.rows[j], db.now);
      } else {
        ClaimUnpaid(txn.req, txn.began, j - |db.rows|, 0, 0);
        if rows[j].Reserved? && rows[j].booking.selfMade {
          BookingIsChecked(db.courts, txn.req, txn.began);
          assert Post(db, txn, CheckUnpaid(txn.req.customer));
        }
      }
    }
  }

  // ---- The holds ----

  lemma ClaimedHoldIsUsable(db: Tables, txn: Txn)
    requires TxnOk(db, txn) && txn.claimed.Some?
    ensures txn.req.BookingRequest? && HoldUsable(db, txn.claimed.value, NewBooking(txn.req, txn.began).booking)
    ensures Acquire(CourtLock(txn.req.court)) in txn.done && CourtLock(txn.req.court) in txn.locks
  {
    var st :| st in txn.done && st.ReadHolds?;
    OneReadHolds(db.courts, txn.req, txn.began, st);
    assert Post(db, txn, st) && Ready(db.courts, st, txn.done);
    assert txn.req.court in CourtsNeeded(db.courts, st.claim);
    assert Post(db, txn, Acquire(CourtLock(txn.req.court)));
  }

  /** An honest hold stays honest, and the one claimed now names the new booking. */
  lemma HoldStaysHonest(db: Tables, txn: Txn, h: nat)
    requires Finished(db, txn) && HoldsHonest(db) && h < |db.holds|
    ensures HoldHonest(Committed(db, txn), Committed(db, txn).holds[h])
  {
    assert HoldHonest(db, db.holds[h]);
    if txn.claimed == Some(h) {
      ClaimedHoldIsUsable(db, txn);
      assert Committed(db, txn).rows[|db.rows|] == NewBooking(txn.req, txn.began);
    }
  }

  lemma ClaimsStayDistinct(db: Tables, txn: Txn, h: nat, h': nat)
    requires HoldsHonest(db) && h < h' < |db.holds| && Committed(db, txn).holds[h].claimedBy.Some?
    ensures Committed(db, txn).holds[h].claimedBy != Committed(db, txn).holds[h'].claimedBy
  {
    assert HoldHonest(db, db.holds[h]) && HoldHonest(db, db.holds[h']);
  }

  lemma CommitKeepsHolds(db: Tables, txn: Txn)
    requires Finished(db, txn) && HoldsHonest(db)
    ensures HoldsHonest(Committed(db, txn))
  {
    var db' := Committed(db, txn);
    forall h | 0 <= h < |db'.holds|
      ensures HoldHonest(db', db'.holds[h])
    {
      HoldStaysHonest(db, txn, h);
    }
    forall h, h' | 0 <= h < h' < |db'.holds| && db'.holds[h].claimedBy.Some?
      ensures db'.holds[h].claimedBy != db'.holds[h'].claimedBy
    {
      ClaimsStayDistinct(db, txn, h, h');
    }
  }

  lemma CommitKeepsTables(db: Tables, txn: Txn)
    requires Finished(db, txn) && TablesOk(db)
    ensures TablesOk(Committed(db, txn))
  {
    CommitKeepsDisjoint(db, txn);
    CommitKeepsLines(db, txn);
    CommitKeepsStock(db, txn);
    CommitKeepsCap(db, txn);
    CommitKeepsHolds(db, txn);
    var rows := Committed(db, txn).rows;
    forall i | 0 <= i < |rows| && rows[i].Reserved? && rows[i].booking.deleted
      ensures rows[i].booking.status == Cancelled
    {
    }
  }

  // ---- What another transaction already checked stays true ----

  lemma ClaimsStayClear(s: State, t: nat, t': nat, st: Stmt)
    requires Inv(s) && t in s.txns && t' in s.txns && t != t' && Finished(s.db, s.txns[t])
    requires st in s.txns[t'].done && (st.CheckBlocks? || st.CheckBookings?)
    ensures forall r :: r in Claims(s.txns[t].req, s.txns[t].began) ==> !Conflict(r, st.claim)
  {
    var txn, other := s.txns[t], s.txns[t'];
    var claims := Claims(txn.req, txn.began);
    forall k | 0 <= k < |claims|
      ensures !Conflict(claims[k], st.claim)
    {
      if Conflict(claims[k], st.claim) {
        ClaimsAreChecked(s.db.courts, txn.req, txn.began, k);
        ClaimCourts(s.db, txn, CheckBlocks(claims[k]));
        ClaimCourts(s.db, other, st);
        var c := ConflictingClaimsShareACourt(s.db.courts, claims[k], st.claim);
        assert false;
      }
    }
  }

  lemma LineHoldsItem(db: Tables, txn: Txn, j: nat)
    requires Finished(db, txn) && txn.req.BookingRequest? && j < |NewBooking(txn.req, txn.began).booking.lines|
    ensures EquipmentLock(NewBooking(txn.req, txn.began).booking.lines[j].equipment) in txn.locks
  {
    BookingIsChecked(db.courts, txn.req, txn.began);
    var claim := NewBooking(txn.req, txn.began);
    assert Ready(db.courts, CheckStock(claim.booking.lines[j], claim), txn.done);
    assert Post(db, txn, Acquire(EquipmentLock(claim.booking.lines[j].equipment)));
  }

  lemma ClaimsLeaveStockCheck(s: State, t: nat, t': nat, st: Stmt)
    requires Inv(s) && t in s.txns && t' in s.txns && t != t' && Finished(s.db, s.txns[t])
    requires st in s.txns[t'].done && st.CheckStock?
    ensures RentedOver(Claims(s.txns[t].req, s.txns[t].began), st.line.equipment, StartOf(st.claim), EndOf(st.claim)) == 0
  {
    var txn, other, e := s.txns[t], s.txns[t'], st.line.equipment;
    ClaimsRent(txn.req, txn.began, e, StartOf(st.claim), EndOf(st.claim), 0);
    if txn.req.BookingRequest? {
      var r := NewBooking(txn.req, txn.began);
      assert Ready(s.db.courts, st, other.done) && Post(s.db, other, Acquire(EquipmentLock(e)));
      forall j | 0 <= j < |r.booking.lines|
        ensures r.booking.lines[j].equipment != e
      {
        LineHoldsItem(s.db, txn, j);
      }
      QuantityOfAbsent(r.booking.lines, e);
    }
  }

  lemma ClaimsLeaveUnpaidCheck(s: State, t: nat, t': nat, u: UserId)
    requires Inv(s) && t in s.txns && t' in s.txns && t != t' && Finished(s.db, s.txns[t])
    requires CheckUnpaid(u) in s.txns[t'].done
    ensures NoSelfUnpaid(Claims(s.txns[t].req, s.txns[t].began), u, s.db.now)
  {
    var txn, other := s.txns[t], s.txns[t'];
    var claims := Claims(txn.req, txn.began);
    forall k | 0 <= k < |claims| && claims[k].Reserved? && claims[k].booking.selfMade
      ensures !UnpaidAhead(claims[k], u, s.db.now)
    {
      ClaimUnpaid(txn.req, txn.began, k, u, s.db.now);
      BookingIsChecked(s.db.courts, txn.req, txn.began);
      assert Ready(s.db.courts, CheckUnpaid(txn.req.customer), txn.done);
      assert Post(s.db, txn, Acquire(CustomerLock(txn.req.customer)));
      assert Ready(s.db.courts, CheckUnpaid(u), other.done) && Post(s.db, other, Acquire(CustomerLock(u)));
    }
  }

  /** The hold a finished transaction consumes is over another court than any slot whose holds another has read. */
  lemma ClaimsAnotherCourt(s: State, t: nat, t': nat, st: Stmt)
    requires Inv(s) && t in s.txns && t' in s.txns && t != t' && s.txns[t].claimed.Some?
    requires st in s.txns[t'].done && st.ReadHolds?
    ensures st.claim.Reserved? && s.txns[t].claimed.value < |s.db.holds|
    ensures s.db.holds[s.txns[t].claimed.value].court != st.claim.booking.court
  {
    var txn, other := s.txns[t], s.txns[t'];
    assert Post(s.db, other, st) && Ready(s.db.courts, st, other.done);
    assert st.claim.booking.court in CourtsNeeded(s.db.courts, st.claim);
    assert Post(s.db, other, Acquire(CourtLock(st.claim.booking.court)));
    ClaimedHoldIsUsable(s.db, txn);
  }

  lemma StaysSettled(db: Tables, db': Tables, h: nat, row: nat, claimed: Option<nat>, b: Booking, role: Role)
    requires HoldsSettled(db, claimed, b, role) && h < |db.holds| && db.holds[h].court != b.court
    requires db'.holds == db.holds[h := db.holds[h].(claimedBy := Some(row))] && db'.now == db.now
    ensures HoldsSettled(db', claimed, b, role)
  {
    forall i | 0 <= i < |db'.holds| && HoldMatches(db'.holds[i], b.court, b.start, b.end, db'.now)
      ensures HoldMatches(db.holds[i], b.court, b.start, b.end, db.now)
    {
    }
  }

  lemma ClaimLeavesHolds(s: State, t: nat, t': nat, st: Stmt)
    requires Inv(s) && t in s.txns && t' in s.txns && t != t' && Finished(s.db, s.txns[t])
    requires st in s.txns[t'].done && st.ReadHolds?
    ensures Post(Committed(s.db, s.txns[t]), s.txns[t'], st)
  {
    var claimed, other := s.txns[t].claimed, s.txns[t'];
    assert Post(s.db, other, st);
    if claimed.Some? {
      ClaimsAnotherCourt(s, t, t', st);
      StaysSettled(s.db, Committed(s.db, s.txns[t]), claimed.value, |s.db.rows|, other.claimed, st.claim.booking, st.role);
    }
  }

  lemma CommitKeepsPost(s: State, t: nat, t': nat, st: Stmt)
    requires Inv(s) && t in s.txns && t' in s.txns && t != t' && Finished(s.db, s.txns[t])
    requires st in s.txns[t'].done
    ensures Post(Committed(s.db, s.txns[t]), s.txns[t'], st)
  {
    var txn, other := s.txns[t], s.txns[t'];
    var claims := Claims(txn.req, txn.began);
    assert Post(s.db, other, st);
    match st
    case CheckBlocks(claim) => ClaimsStayClear(s, t, t', st);
    case CheckBookings(claim) => ClaimsStayClear(s, t, t', st);
    case CheckStock(line, claim) =>
      ClaimsLeaveStockCheck(s, t, t', st);
      RentedOverAppend(s.db.rows, claims, line.equipment, StartOf(claim), EndOf(claim));
    case CheckUnpaid(u) => ClaimsLeaveUnpaidCheck(s, t, t', u);
    case ReadHolds(_, _, _) => ClaimLeavesHolds(s, t, t', st);
    case _ =>
  }

  lemma CommitKeepsInv(s: State, t: nat)
    requires Inv(s) && t in s.txns && s.txns[t].todo == []
    ensures Inv(State(Committed(s.db, s.txns[t]), s.txns - {t}))
  {
    var txn := s.txns[t];
    if Insertable(txn) {
      var db' := Committed(s.db, txn);
      CommitKeepsTables(s.db, txn);
      forall t' | t' in s.txns && t' != t
        ensures TxnOk(db', s.txns[t'])
      {
        var other := s.txns[t'];
        assert TxnOk(s.db, other);
        forall st | st in other.done
          ensures Post(db', other, st)
        {
          CommitKeepsPost(s, t, t', st);
        }
        forall l | l in other.locks
          ensures LockEarned(db', other, l)
        {
          assert LockEarned(s.db, other, l);
        }
      }
    }
  }

  // ---- Executing one statement ----

  lemma StatementEstablishesPost(db: Tables, txn: Txn)
    requires txn.began <= db.now && txn.todo != [] && Passes(db, txn.began, txn.todo[0])
    ensures Post(db, Executed(db, txn), txn.todo[0])
  {
    var st := txn.todo[0];
    if st.CheckUnpaid? {
      forall i | 0 <= i < |db.rows| && db.rows[i].Reserved? && db.rows[i].booking.selfMade
        ensures !UnpaidAhead(db.rows[i], st.customer, db.now)
      {
      }
    }
  }

  lemma ExecutedStaysOk(db: Tables, txn: Txn)
    requires TxnOk(db, txn) && txn.todo != [] && Passes(db, txn.began, txn.todo[0])
    ensures TxnOk(db, Executed(db, txn))
  {
    var st, txn' := txn.todo[0], Executed(db, txn);
    StatementEstablishesPost(db, txn);
    assert forall x :: x in txn.todo <==> x == st || x in txn'.todo;
    forall x | x in txn'.done
      ensures Ready(db.courts, x, txn'.done) && Post(db, txn', x)
    {
      if x == st {
        ReadyMono(db.courts, x, txn.done, txn'.done);
      } else {
        assert Ready(db.courts, x, txn.done) && Post(db, txn, x);
        ReadyMono(db.courts, x, txn.done, txn'.done);
        if x.ReadHolds? && st.ReadHolds? {
          OneReadHolds(db.courts, txn.req, txn.began, x);
          OneReadHolds(db.courts, txn.req, txn.began, st);
        }
      }
    }
    forall l | l in txn'.locks
      ensures LockEarned(db, txn', l)
    {
      if l in txn.locks { assert LockEarned(db, txn, l); }
      else if st.ReadHolds? {
        assert Ready(db.courts, st, txn.done);
        assert st.claim.booking.court in CourtsNeeded(db.courts, st.claim);
      }
    }
    if txn'.claimed.Some? && st.ReadHolds? { assert st in txn'.done; }
  }

  /** Statements that wait for nobody take only free locks. */
  lemma StepKeepsExclusive(s: State, t: nat)
    requires Exclusive(s) && t in s.txns && !Waits(s, t) && s.txns[t].todo != []
    ensures Exclusive(s.(txns := s.txns[t := Executed(s.db, s.txns[t])]))
  {
    forall l, t' | l in Wanted(s.db, s.txns[t]) && t' in s.txns && t' != t
      ensures l !in s.txns[t'].locks
    {
      assert !HeldByOther(s, t, l);
    }
  }

  lemma StepKeepsInv(s: State, t: nat)
    requires Inv(s) && Enabled(s, Step(t))
    ensures Inv(Next(s, Step(t)))
  {
    var txn := s.txns[t];
    if txn.todo == [] {
      CommitKeepsInv(s, t);
    } else if Passes(s.db, txn.began, txn.todo[0]) {
      ExecutedStaysOk(s.db, txn);
      StepKeepsExclusive(s, t);
    }
  }

  // ---- Every action, every run ----

  predicate OnlyRelaxes(a: Action) {
    !a.Begin? && !a.Step? && !a.Rollback? && !(a.CancelBooking? && a.offer.Some?)
  }

  lemma ActionRelaxes(s: State, a: Action)
    requires Enabled(s, a) && OnlyRelaxes(a)
    ensures Next(s, a) == s.(db := Next(s, a).db) && Relaxes(s.db, Next(s, a).db)
  {
    if a.Write? {
      WriteStatusRelaxes(s.db, a.write);
    } else if a.CancelBooking? {
      CancellableIsLive(s.db.rows[a.row]);
    }
  }

  lemma ActionKeepsInv(s: State, a: Action)
    requires Inv(s) && Enabled(s, a)
    requires a.Begin? ==> LocksACourt(s.db.courts, a.req)
    ensures Inv(Next(s, a)) && Next(s, a).db.courts == s.db.courts
  {
    if OnlyRelaxes(a) {
      ActionRelaxes(s, a);
      RelaxingKeepsInv(s, Next(s, a).db);
    } else if a.Begin? {
      ProgramsAreWellOrdered(s.db.courts, a.req, s.db.now);
    } else if a.Step? {
      StepKeepsInv(s, a.txn);
    } else if a.CancelBooking? {
      OfferKeepsInv(s, a.row, a.offer.value, a.token, a.holdUntil);
    }
  }

  /** Over every interleaving, from an empty schedule, with any mix of writers and status changes. */
  lemma {:induction false} RunsKeepInv(s: State, actions: seq<Action>)
    requires Inv(s) && Run(s, actions) && BlocksLock(s.db.courts, actions)
    ensures Inv(Exec(s, actions))
    decreases |actions|
  {
    if actions != [] {
      ActionKeepsInv(s, actions[0]);
      RunsKeepInv(Next(s, actions[0]), actions[1..]);
    }
  }

  lemma NoDoubleBooking(s: State, actions: seq<Action>)
    requires Initial(s) && Run(s, actions) && BlocksLock(s.db.courts, actions)
    ensures var db := Exec(s, actions).db;
      && Disjoint(db.rows)
      && StockRespected(db)
      && UnpaidCapped(db.rows, db.now)
      && HoldsHonest(db)
      && DeletedMeansCancelled(db.rows)
  {
    InitialOk(s);
    RunsKeepInv(s, actions);
  }
}
