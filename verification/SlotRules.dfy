// Overlap, conflicts and holds in terms of instants: what the interval tests of the statement lists decide.

module SlotRules {
  import opened Options
  import opened BookingStatus
  import opened Schedule

  // ---- Two slots at once ----

  predicate During(t: int, start: int, end: int) {
    start <= t < end
  }

  /** The two half-open ranges have an instant in common. */
  ghost predicate ShareInstant(start: int, end: int, start': int, end': int) {
    exists t :: During(t, start, end) && During(t, start', end')
  }

  /** Back-to-back slots share none. */
  lemma OverlapIffInstantShared(start: int, end: int, start': int, end': int)
    requires start < end && start' < end'
    ensures Overlap(start, end, start', end') <==> ShareInstant(start, end, start', end')
  {
    var later := if start < start' then start' else start;
    assert Overlap(start, end, start', end') <==> During(later, start, end) && During(later, start', end');
  }

  predicate RowNonEmpty(r: Row) {
    StartOf(r) < EndOf(r)
  }

  /** The tables' own constraints: bookings, blocks, holds and waitlist entries end after they start. */
  predicate SlotsNonEmpty(db: Tables) {
    && (forall i :: 0 <= i < |db.rows| ==> RowNonEmpty(db.rows[i]))
    && (forall h :: 0 <= h < |db.holds| ==> db.holds[h].start < db.holds[h].end)
    && (forall j :: 0 <= j < |db.waitlist| ==> db.waitlist[j].start < db.waitlist[j].end)
  }

  // ---- Who is in the way ----

  predicate HoldsCourt(r: Row) {
    r.Reserved? && !r.booking.deleted &&
    r.booking.status in {Draft, PendingDeposit, PendingVerification, Confirmed, CheckedIn}
  }

  /** A booking on this court, or on any if none is named, with an instant in the range. */
  ghost predicate BookingInTheWay(r: Row, court: Option<CourtId>, start: int, end: int) {
    HoldsCourt(r) && (court.None? || r.booking.court == court.value) && ShareInstant(start, end, r.booking.start, r.booking.end)
  }

  /** A block of this court or of the whole club, or any if no court is named, with an instant in the range. */
  ghost predicate BlockInTheWay(r: Row, court: Option<CourtId>, start: int, end: int) {
    r.Blocked? && !r.removed && (court.None? || r.court.None? || r.court == court) && ShareInstant(start, end, r.start, r.end)
  }

  ghost predicate FreeOfBookings(rows: seq<Row>, court: Option<CourtId>, start: int, end: int) {
    forall i :: 0 <= i < |rows| ==> !BookingInTheWay(rows[i], court, start, end)
  }

  ghost predicate FreeOfBlocks(rows: seq<Row>, court: Option<CourtId>, start: int, end: int) {
    forall i :: 0 <= i < |rows| ==> !BlockInTheWay(rows[i], court, start, end)
  }

  lemma InTheWayIff(r: Row, claim: Row)
    requires RowNonEmpty(r) && RowNonEmpty(claim)
    ensures LiveBooking(r) && Conflict(r, claim) <==> BookingInTheWay(r, CourtOf(claim), StartOf(claim), EndOf(claim))
    ensures LiveBlock(r) && Conflict(r, claim) <==> BlockInTheWay(r, CourtOf(claim), StartOf(claim), EndOf(claim))
  {
    OverlapIffInstantShared(StartOf(r), EndOf(r), StartOf(claim), EndOf(claim));
    OverlapIffInstantShared(StartOf(claim), EndOf(claim), StartOf(r), EndOf(r));
  }

  lemma ClearIffFree(rows: seq<Row>, claim: Row)
    requires RowNonEmpty(claim) && forall i :: 0 <= i < |rows| ==> RowNonEmpty(rows[i])
    ensures ClearOfBookings(rows, claim) <==> FreeOfBookings(rows, CourtOf(claim), StartOf(claim), EndOf(claim))
    ensures ClearOfBlocks(rows, claim) <==> FreeOfBlocks(rows, CourtOf(claim), StartOf(claim), EndOf(claim))
  {
    forall i | 0 <= i < |rows|
      ensures LiveBooking(rows[i]) && Conflict(rows[i], claim) <==>
        BookingInTheWay(rows[i], CourtOf(claim), StartOf(claim), EndOf(claim))
      ensures LiveBlock(rows[i]) && Conflict(rows[i], claim) <==>
        BlockInTheWay(rows[i], CourtOf(claim), StartOf(claim), EndOf(claim))
    {
      InTheWayIff(rows[i], claim);
    }
  }

  // ---- Holds ----

  /** An unclaimed hold of the court, still running, with an instant in the range. */
  ghost predicate ActiveHold(h: Hold, court: CourtId, start: int, end: int, now: int) {
    h.court == court && h.claimedBy == None && now < h.expiresAt && ShareInstant(start, end, h.start, h.end)
  }

  /** The active hold that was created first. */
  ghost predicate FirstActive(holds: seq<Hold>, i: int, court: CourtId, start: int, end: int, now: int) {
    0 <= i < |holds| && ActiveHold(holds[i], court, start, end, now) &&
    forall j :: 0 <= j < i ==> !ActiveHold(holds[j], court, start, end, now)
  }

  lemma EarliestHoldIff(db: Tables, court: CourtId, start: int, end: int, i: int)
    requires SlotsNonEmpty(db) && start < end
    ensures FirstActive(db.holds, i, court, start, end, db.now) <==>
      EarliestHold(db.holds, court, start, end, db.now).Some? && EarliestHold(db.holds, court, start, end, db.now).value == i
  {
    forall j | 0 <= j < |db.holds|
      ensures HoldMatches(db.holds[j], court, start, end, db.now) <==> ActiveHold(db.holds[j], court, start, end, db.now)
    {
      OverlapIffInstantShared(db.holds[j].start, db.holds[j].end, start, end);
      OverlapIffInstantShared(start, end, db.holds[j].start, db.holds[j].end);
    }
  }
}
