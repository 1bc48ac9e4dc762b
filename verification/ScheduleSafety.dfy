// The joint invariant of the court schedule, kept by every step of every interleaving.

module ScheduleSafety {
  import opened Options
  import opened BookingStatus
  import opened Schedule
  import opened RowLemmas
  import opened Interleaving
  import opened Programs

  // ---- The invariant ----

  /** No self-made unpaid booking of u ahead. */
  predicate NoSelfUnpaid(rows: seq<Row>, u: UserId, now: int) {
    forall i :: 0 <= i < |rows| && rows[i].Reserved? && rows[i].booking.selfMade ==> !UnpaidAhead(rows[i], u, now)
  }

  predicate HoldUsable(db: Tables, h: nat, b: Booking) {
    h < |db.holds| && db.holds[h].claimedBy.None? && db.holds[h].user == b.customer &&
    db.holds[h].court == b.court && Overlap(db.holds[h].start, db.holds[h].end, b.start, b.end)
  }

  /** What reading the holds established: the claimed one is usable, and a customer is not behind an earlier one. */
  predicate HoldsSettled(db: Tables, claimed: Option<nat>, b: Booking, role: Role) {
    && (claimed.Some? ==> HoldUsable(db, claimed.value, b))
    && (role == Customer ==> forall h :: 0 <= h < |db.holds| && HoldMatches(db.holds[h], b.court, b.start, b.end, db.now) ==>
        claimed.Some? && claimed.value <= h)
  }

  /** What an executed statement established, still true later. */
  predicate Post(db: Tables, txn: Txn, st: Stmt) {
    match st
    case Acquire(l) => l in txn.locks && (l.CourtLock? ==> l.court in db.courts)
    case CheckTerm(months) => months == 1 || months == 3
    case CheckUnpaid(u) => NoSelfUnpaid(db.rows, u, db.now)
    case CheckDuration(minutes) => ValidDuration(minutes)
    case CheckNonEmpty(start, end) => start < end
    case CheckBlocks(claim) => ClearOfBlocks(db.rows, claim)
    case CheckBookings(claim) => ClearOfBookings(db.rows, claim)
    case ReadHolds(claim, role, _) => claim.Reserved? && HoldsSettled(db, txn.claimed, claim.booking, role)
    case CheckStock(line, claim) =>
      line.quantity > 0 && line.equipment in db.items &&
      RentedOver(db.rows, line.equipment, StartOf(claim), EndOf(claim)) + line.quantity <= db.items[line.equipment].stock
    case _ => true
  }

  /** A lock a transaction holds was taken by an executed statement; a hold row only under its court's lock. */
  predicate LockEarned(db: Tables, txn: Txn, l: Lock) {
    if l.HoldLock? then l.hold < |db.holds| && Acquire(CourtLock(db.holds[l.hold].court)) in txn.done
    else Acquire(l) in txn.done
  }

  ghost predicate TxnOk(db: Tables, txn: Txn) {
    var program := Program(txn.req, db.courts, txn.began);
    && LocksACourt(db.courts, txn.req)
    && txn.began <= db.now
    && (forall st :: st in program ==> st in txn.done || st in txn.todo)
    && (forall st :: st in txn.done || st in txn.todo ==> st in program)
    && WellOrdered(db.courts, txn.done, txn.todo)
    && (forall st :: st in txn.done ==> Ready(db.courts, st, txn.done))
    && (forall st :: st in txn.done ==> Post(db, txn, st))
    && (forall l :: l in txn.locks ==> LockEarned(db, txn, l))
    && (txn.claimed.Some? ==> exists st :: st in txn.done && st.ReadHolds?)
  }

  predicate LinesKnown(db: Tables) {
    forall i, j :: 0 <= i < |db.rows| && db.rows[i].Reserved? && 0 <= j < |db.rows[i].booking.lines| ==>
      db.rows[i].booking.lines[j].equipment in db.items
  }

  predicate DeletedMeansCancelled(rows: seq<Row>) {
    forall i :: 0 <= i < |rows| && rows[i].Reserved? && rows[i].booking.deleted ==> rows[i].booking.status == Cancelled
  }

  ghost predicate TablesOk(db: Tables) {
    && Disjoint(db.rows)
    && Positive(db.rows) && LinesKnown(db) && StockRespected(db)
    && UnpaidCapped(db.rows, db.now)
    && HoldsHonest(db)
    && DeletedMeansCancelled(db.rows)
  }

  ghost predicate Inv(s: State) {
    && TablesOk(s.db)
    && (forall t :: t in s.txns ==> TxnOk(s.db, s.txns[t]))
    && Exclusive(s)
  }

  lemma InitialOk(s: State)
    requires Initial(s)
    ensures Inv(s)
  {
  }

  // ---- Steps that only relax ----

  /** Rows give up, time passes, stock grows, waitlist entries are added, fulfilled or left. */
  predicate Relaxes(db: Tables, db': Tables) {
    && db'.courts == db.courts && db'.holds == db.holds
    && Relaxed(db.rows, db'.rows)
    && db'.now >= db.now
    && (forall e :: e in db.items ==> e in db'.items && db'.items[e].stock >= db.items[e].stock)
    && (forall e :: e in db'.items && e !in db.items ==> db'.items[e].stock >= 0)
    && |db'.waitlist| >= |db.waitlist|
    && (forall j :: 0 <= j < |db.waitlist| && db.waitlist[j].fulfilled ==> db'.waitlist[j].fulfilled)
  }

  lemma RelaxingKeepsPost(db: Tables, db': Tables, txn: Txn, st: Stmt)
    requires Relaxes(db, db') && Positive(db.rows) && Post(db, txn, st)
    ensures Post(db', txn, st)
  {
    match st
    case CheckUnpaid(u) =>
      forall i | 0 <= i < |db'.rows| && db'.rows[i].Reserved? && db'.rows[i].booking.selfMade
        ensures !UnpaidAhead(db'.rows[i], u, db'.now)
      {
        assert GivesUp(db.rows[i], db'.rows[i]);
        assert !UnpaidAhead(db.rows[i], u, db.now);
      }
    case CheckBlocks(claim) => RelaxedStaysClear(db.rows, db'.rows, claim);
    case CheckBookings(claim) => RelaxedStaysClear(db.rows, db'.rows, claim);
    case ReadHolds(claim, role, _) =>
      forall h | 0 <= h < |db'.holds| &&
          HoldMatches(db'.holds[h], claim.booking.court, claim.booking.start, claim.booking.end, db'.now)
        ensures HoldMatches(db.holds[h], claim.booking.court, claim.booking.start, claim.booking.end, db.now)
      {
      }
    case CheckStock(line, claim) =>
      RelaxedRentsNoMore(db.rows, db'.rows, line.equipment, StartOf(claim), EndOf(claim), 0);
    case _ =>
  }

  lemma RelaxingKeepsTables(db: Tables, db': Tables)
    requires Relaxes(db, db') && TablesOk(db)
    ensures TablesOk(db')
  {
    RelaxedStaysDisjoint(db.rows, db'.rows);
    forall i | 0 <= i < |db'.rows|
      ensures PositiveRow(db'.rows[i])
      ensures db'.rows[i].Reserved? ==> forall j :: 0 <= j < |db'.rows[i].booking.lines| ==> db'.rows[i].booking.lines[j].equipment in db'.items
      ensures db'.rows[i].Reserved? && db'.rows[i].booking.deleted ==> db'.rows[i].booking.status == Cancelled
    {
      assert GivesUp(db.rows[i], db'.rows[i]) && PositiveRow(db.rows[i]);
    }
    RelaxingKeepsStock(db, db');
    forall i, j | 0 <= i < j < |db'.rows|
      ensures !BothUnpaid(db'.rows[i], db'.rows[j], db'.now)
    {
      assert GivesUp(db.rows[i], db'.rows[i]) && GivesUp(db.rows[j], db'.rows[j]);
      assert !BothUnpaid(db.rows[i], db.rows[j], db.now);
    }
    forall h | 0 <= h < |db'.holds|
      ensures HoldHonest(db', db'.holds[h])
    {
      assert HoldHonest(db, db.holds[h]);
      if db.holds[h].claimedBy.Some? {
        var i := db.holds[h].claimedBy.value;
        assert GivesUp(db.rows[i], db'.rows[i]);
      }
    }
  }

  lemma RelaxingKeepsStock(db: Tables, db': Tables)
    requires Relaxes(db, db') && Positive(db.rows) && LinesKnown(db) && StockRespected(db)
    ensures StockRespected(db')
  {
    forall e, t | e in db'.items
      ensures RentedAt(db'.rows, e, t) <= db'.items[e].stock
    {
      RelaxedRentsNoMore(db.rows, db'.rows, e, 0, 0, t);
      if e !in db.items {
        UnknownItemUnrented(db, e, t);
      }
    }
  }

  lemma UnknownItemUnrented(db: Tables, e: EquipmentId, t: int)
    requires LinesKnown(db) && e !in db.items
    ensures RentedAt(db.rows, e, t) == 0
  {
    forall i | 0 <= i < |db.rows|
      ensures Rented(db.rows[i], e) == 0
    {
      if db.rows[i].Reserved? { QuantityOfAbsent(db.rows[i].booking.lines, e); }
    }
    NoLinesNoRent(db.rows, e, 0, 0, t);
  }

  lemma RelaxingKeepsInv(s: State, db': Tables)
    requires Inv(s) && Relaxes(s.db, db')
    ensures Inv(s.(db := db'))
  {
    RelaxingKeepsTables(s.db, db');
    forall t | t in s.txns
      ensures TxnOk(db', s.txns[t])
    {
      var txn := s.txns[t];
      assert TxnOk(s.db, txn);
      forall st | st in txn.done
        ensures Post(db', txn, st)
      {
        RelaxingKeepsPost(s.db, db', txn, st);
      }
      forall l | l in txn.locks
        ensures LockEarned(db', txn, l)
      {
        assert LockEarned(s.db, txn, l);
      }
    }
  }

  // ---- A cancellation that offers the slot to the waitlist ----

  /** A new hold over a slot that was occupied until now: nobody whose booking check has passed overlaps it. */
  lemma NewHoldIsNotInTheWay(db: Tables, i: nat, txn: Txn, st: Stmt)
    requires TxnOk(db, txn) && st in txn.done && st.ReadHolds?
    requires i < |db.rows| && LiveBooking(db.rows[i])
    ensures st.claim.Reserved?
    ensures st.claim.booking.court == db.rows[i].booking.court ==>
      !Overlap(db.rows[i].booking.start, db.rows[i].booking.end, st.claim.booking.start, st.claim.booking.end)
  {
    assert Ready(db.courts, st, txn.done);
    assert Post(db, txn, CheckBookings(st.claim));
    assert !Conflict(db.rows[i], st.claim);
  }

  lemma CancellableIsLive(r: Row)
    requires Cancellable(r)
    ensures LiveBooking(r)
  {
    var status := r.booking.status;
    assert status.Draft? || status.PendingDeposit? || status.PendingVerification? || status.Confirmed? || status.CheckedIn?;
  }

  /** What an open transaction has found out survives the new hold. */
  lemma OfferKeepsTxn(db: Tables, i: nat, offer: nat, token: nat, holdUntil: int, txn: Txn)
    requires i < |db.rows| && Cancellable(db.rows[i]) && offer < |db.waitlist|
    requires TxnOk(db, txn) && TxnOk(Cancel(db, i, None, token, holdUntil), txn)
    ensures TxnOk(Cancel(db, i, Some(offer), token, holdUntil), txn)
  {
    var freed, db' := Cancel(db, i, None, token, holdUntil), Cancel(db, i, Some(offer), token, holdUntil);
    CancellableIsLive(db.rows[i]);
    forall st | st in txn.done
      ensures Post(db', txn, st)
    {
      assert Post(freed, txn, st);
      if st.ReadHolds? {
        NewHoldIsNotInTheWay(db, i, txn, st);
        assert forall h :: 0 <= h < |freed.holds| ==> db'.holds[h] == freed.holds[h];
      }
    }
    forall l | l in txn.locks
      ensures LockEarned(db', txn, l)
    {
      assert LockEarned(db, txn, l);
    }
  }

  lemma OfferKeepsInv(s: State, i: nat, offer: nat, token: nat, holdUntil: int)
    requires Inv(s) && i < |s.db.rows| && Cancellable(s.db.rows[i])
    requires offer < |s.db.waitlist| && EntryMatches(s.db.waitlist[offer], s.db.rows[i].booking)
    ensures Inv(s.(db := Cancel(s.db, i, Some(offer), token, holdUntil)))
  {
    var freed := Cancel(s.db, i, None, token, holdUntil);
    CancellableIsLive(s.db.rows[i]);
    RelaxingKeepsInv(s, freed);
    forall t | t in s.txns
      ensures TxnOk(Cancel(s.db, i, Some(offer), token, holdUntil), s.txns[t])
    {
      OfferKeepsTxn(s.db, i, offer, token, holdUntil, s.txns[t]);
    }
    OfferKeepsTables(freed, Cancel(s.db, i, Some(offer), token, holdUntil), offer, s.db.rows[i].booking);
  }

  lemma OfferKeepsTables(db: Tables, db': Tables, offer: nat, b: Booking)
    requires TablesOk(db) && offer < |db.waitlist| && !db.waitlist[offer].fulfilled
    requires exists token, until :: db' == db.(
      holds := db.holds + [Hold(b.court, db.waitlist[offer].user, b.start, b.end, token, until, None, offer)],
      waitlist := db.waitlist[offer := db.waitlist[offer].(fulfilled := true)])
    ensures TablesOk(db')
  {
    forall h | 0 <= h < |db'.holds|
      ensures HoldHonest(db', db'.holds[h])
    {
      if h < |db.holds| { assert HoldHonest(db, db.holds[h]); }
    }
  }

  // ---- Two claims that conflict share a court lock ----

  lemma ConflictingClaimsShareACourt(courts: seq<CourtId>, r: Row, r': Row) returns (c: CourtId)
    requires Conflict(r, r')
    requires CourtsNeeded(courts, r) != {} && CourtsNeeded(courts, r') != {}
    requires r.Reserved? ==> r.booking.court in courts
    requires r'.Reserved? ==> r'.booking.court in courts
    ensures c in CourtsNeeded(courts, r) && c in CourtsNeeded(courts, r')
  {
    if CourtOf(r).Some? {
      c := CourtOf(r).value;
    } else if CourtOf(r').Some? {
      c := CourtOf(r').value;
    } else {
      c := courts[0];
    }
  }

  /** Every row a transaction would insert needs a court, and a booked court is one of the club's. */
  lemma ClaimCourts(db: Tables, txn: Txn, st: Stmt)
    requires TxnOk(db, txn) && st in txn.done && (st.CheckBlocks? || st.CheckBookings?)
    ensures st.claim in Claims(txn.req, txn.began)
    ensures CourtsNeeded(db.courts, st.claim) != {}
    ensures st.claim.Reserved? ==> st.claim.booking.court in db.courts
    ensures forall c :: c in CourtsNeeded(db.courts, st.claim) ==> CourtLock(c) in txn.locks
  {
    ChecksAreOfClaims(db.courts, txn.req, txn.began, st);
    assert Ready(db.courts, st, txn.done);
    forall c | c in CourtsNeeded(db.courts, st.claim)
      ensures CourtLock(c) in txn.locks && c in db.courts
    {
      assert Post(db, txn, Acquire(CourtLock(c)));
    }
    if st.claim.Blocked? {
      var own := CourtsOfBlock(db.courts, st.claim.court);
      assert own[0] in CourtsNeeded(db.courts, st.claim);
    } else {
      assert st.claim.booking.court in CourtsNeeded(db.courts, st.claim);
    }
  }

}
