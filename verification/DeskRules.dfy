// What the schedule's use cases accept, in the words of the club: instants, the local clock, stored statuses and counts.
// Proved to be exactly what the statement lists let through.

module DeskRules {
  import opened Options
  import opened Instants
  import opened BookingStatus
  import opened Schedule
  import opened Interleaving
  import opened Serving
  import opened ServedRequests
  import opened SlotRules
  import opened StockRules
  import WorkingHours

  // ---- One slot ----

  ghost predicate OpenForMembers(db: Tables, start: int, end: int) {
    db.hours != [] && forall t :: start <= t < end ==> WorkingHours.OpenLocally(db.hours, db.offset, t)
  }

  /** A whole number of hours from one to twelve, on a court of the club that is open for booking, within the working
      hours unless the desk books, and with nobody in the way. */
  ghost predicate SlotAllowed(db: Tables, court: CourtId, start: int, minutes: int, desk: bool) {
    var end := start + minutes * 60000;
    && 60 <= minutes <= 720 && minutes % 60 == 0
    && court in db.courts && court in db.available
    && (!desk ==> OpenForMembers(db, start, end))
    && FreeOfBlocks(db.rows, Some(court), start, end)
    && FreeOfBookings(db.rows, Some(court), start, end)
  }

  lemma HoursCheckIff(db: Tables, start: int, end: int)
    ensures Passes(db, db.now, CheckHours(start, end)) <==> OpenForMembers(db, start, end)
  {
    WorkingHours.OpenLocallyThroughout(db.hours, db.offset, start, end);
  }

  lemma ValidationIff(db: Tables, claim: Row, minutes: int, desk: bool)
    requires SlotsNonEmpty(db) && claim.Reserved? && claim.booking.end == claim.booking.start + minutes * 60000
    ensures AllPass(db, Validation(claim, minutes, desk)) <==>
      SlotAllowed(db, claim.booking.court, claim.booking.start, minutes, desk)
  {
    ValidationPasses(db, claim, minutes, desk);
    HoursCheckIff(db, claim.booking.start, claim.booking.end);
    if 60 <= minutes { ClearIffFree(db.rows, claim); }
  }

  // ---- A booking ----

  /** Booked, not deleted, still unpaid and not over. */
  predicate AwaitsPayment(r: Row, u: UserId, now: int) {
    r.Reserved? && r.booking.customer == u && !r.booking.deleted && r.booking.status == PendingDeposit && now < r.booking.end
  }

  /** The first active hold is this customer's, and they present its token. */
  predicate OwnHold(h: Hold, customer: UserId, token: Option<nat>) {
    h.user == customer && token.Some? && token.value == h.token
  }

  /** The hold a booking consumes: the first active one, if it is the customer's own. */
  ghost predicate ClaimsHold(db: Tables, i: int, court: CourtId, start: int, end: int, customer: UserId, token: Option<nat>) {
    FirstActive(db.holds, i, court, start, end, db.now) && OwnHold(db.holds[i], customer, token)
  }

  ghost predicate NotHeldForOthers(db: Tables, court: CourtId, start: int, end: int, customer: UserId, token: Option<nat>) {
    forall i :: FirstActive(db.holds, i, court, start, end, db.now) ==> OwnHold(db.holds[i], customer, token)
  }

  ghost predicate LinesInStock(db: Tables, lines: seq<Line>, start: int, end: int) {
    && (forall j :: 0 <= j < |lines| ==> InStock(db, lines[j], start, end))
    && forall i, j :: 0 <= i < j < |lines| ==> lines[i].equipment != lines[j].equipment
  }

  /** The whole condition for a booking. Members alone are held to the clock, to one unpaid booking at a time, to the
      working hours and to the waitlist's holds. */
  ghost predicate MayBook(db: Tables, req: Request)
    requires req.BookingRequest?
  {
    var end := req.start + req.minutes * 60000;
    && SlotAllowed(db, req.court, req.start, req.minutes, req.role != Customer)
    && (req.role == Customer ==>
         && db.now <= req.start
         && (forall i :: 0 <= i < |db.rows| ==> !AwaitsPayment(db.rows[i], req.customer, db.now))
         && NotHeldForOthers(db, req.court, req.start, end, req.customer, req.token))
    && LinesInStock(db, req.lines, req.start, end)
  }

  lemma CapIff(db: Tables, req: Request)
    requires req.BookingRequest?
    ensures CapPasses(db, req) <==> (req.role == Customer ==>
      db.now <= req.start && forall i :: 0 <= i < |db.rows| ==> !AwaitsPayment(db.rows[i], req.customer, db.now))
  {
    forall i | 0 <= i < |db.rows|
      ensures UnpaidAhead(db.rows[i], req.customer, db.now) <==> AwaitsPayment(db.rows[i], req.customer, db.now)
    {
    }
  }

  lemma HoldsIff(db: Tables, claim: Row, role: Role, token: Option<nat>)
    requires SlotsNonEmpty(db) && claim.Reserved? && RowNonEmpty(claim)
    ensures Passes(db, db.now, ReadHolds(claim, role, token)) <==>
      (role == Customer ==>
        NotHeldForOthers(db, claim.booking.court, claim.booking.start, claim.booking.end, claim.booking.customer, token))
  {
    var b := claim.booking;
    forall i
      ensures FirstActive(db.holds, i, b.court, b.start, b.end, db.now) <==>
        HoldFor(db, claim, db.now).Some? && HoldFor(db, claim, db.now).value == i
    {
      EarliestHoldIff(db, b.court, b.start, b.end, i);
    }
  }

  lemma ClaimsHoldIff(db: Tables, claim: Row, token: Option<nat>)
    requires SlotsNonEmpty(db) && claim.Reserved? && RowNonEmpty(claim)
    ensures var h, b := HoldFor(db, claim, db.now), claim.booking;
      forall i :: ClaimsHold(db, i, b.court, b.start, b.end, b.customer, token) <==>
        h.Some? && h.value == i && OwnsHold(db.holds[h.value], claim, token)
  {
    var b := claim.booking;
    forall i
      ensures FirstActive(db.holds, i, b.court, b.start, b.end, db.now) <==>
        HoldFor(db, claim, db.now).Some? && HoldFor(db, claim, db.now).value == i
    {
      EarliestHoldIff(db, b.court, b.start, b.end, i);
    }
  }

  lemma LinesIff(db: Tables, lines: seq<Line>, claim: Row)
    requires SlotsNonEmpty(db) && RowNonEmpty(claim)
    ensures var sorted := SortLines(lines);
      (DistinctItems(sorted) && forall j :: 0 <= j < |sorted| ==> Passes(db, db.now, CheckStock(sorted[j], claim))) <==>
        LinesInStock(db, lines, StartOf(claim), EndOf(claim))
  {
    SortingKeepsLines(lines);
    forall l
      ensures Passes(db, db.now, CheckStock(l, claim)) <==> InStock(db, l, StartOf(claim), EndOf(claim))
    {
      StockCheckIff(db, l, claim);
    }
    assert forall l :: l in lines <==> l in SortLines(lines);
    assert (forall j :: 0 <= j < |lines| ==> InStock(db, lines[j], StartOf(claim), EndOf(claim))) <==>
      forall l :: l in lines ==> InStock(db, l, StartOf(claim), EndOf(claim));
    assert (forall j :: 0 <= j < |SortLines(lines)| ==> InStock(db, SortLines(lines)[j], StartOf(claim), EndOf(claim))) <==>
      forall l :: l in SortLines(lines) ==> InStock(db, l, StartOf(claim), EndOf(claim));
  }

  /** A booking passes its checks exactly when the club's rules allow it. */
  lemma MayBookIff(db: Tables, req: Request)
    requires SlotsNonEmpty(db) && req.BookingRequest?
    ensures BookingAccepted(db, req) <==> MayBook(db, req)
  {
    var claim := NewBooking(req, db.now);
    ValidationIff(db, claim, req.minutes, req.role != Customer);
    if 60 <= req.minutes {
      CapIff(db, req);
      HoldsIff(db, claim, req.role, req.token);
      LinesIff(db, req.lines, claim);
    }
  }

  /** The holds once the booking with that number is made: its own first active hold is claimed by it, nothing else
      changes. */
  ghost predicate HoldsAfterBooking(db: Tables, holds: seq<Hold>, req: Request, number: nat)
    requires req.BookingRequest?
  {
    |holds| == |db.holds| && forall i :: 0 <= i < |holds| ==> (holds[i] ==
      if ClaimsHold(db, i, req.court, req.start, req.start + req.minutes * 60000, req.customer, req.token)
      then db.holds[i].(claimedBy := Some(number)) else db.holds[i])
  }

  lemma HoldsAfterBookingIff(db: Tables, req: Request, claimed: Option<nat>)
    requires SlotsNonEmpty(db) && req.BookingRequest? && 60 <= req.minutes
    requires claimed == ClaimedBy(db, Started(db, req), ReadHolds(NewBooking(req, db.now), req.role, req.token))
    requires claimed.Some? ==> claimed.value < |db.holds|
    ensures HoldsAfterBooking(db,
      if claimed.Some? then db.holds[claimed.value := db.holds[claimed.value].(claimedBy := Some(|db.rows|))] else db.holds,
      req, |db.rows|)
  {
    ClaimsHoldIff(db, NewBooking(req, db.now), req.token);
  }

  // ---- A subscription ----

  /** The i-th week, seven times 24 hours after the one before. */
  ghost predicate WeekAllowed(db: Tables, req: Request, i: int)
    requires req.SubscriptionRequest?
  {
    SlotAllowed(db, req.court, req.start + i * 604800000, req.minutes, true)
  }

  ghost predicate MaySubscribe(db: Tables, req: Request)
    requires req.SubscriptionRequest?
  {
    && (req.months == 1 || req.months == 3) && db.now <= req.start && req.court in db.courts
    && forall i :: 0 <= i < 4 * req.months ==> WeekAllowed(db, req, i)
  }

  lemma WeeksIff(db: Tables, req: Request)
    requires SlotsNonEmpty(db) && req.SubscriptionRequest?
    ensures forall i :: WeekPasses(db, req, i) <==> WeekAllowed(db, req, i)
  {
    forall i
      ensures WeekPasses(db, req, i) <==> WeekAllowed(db, req, i)
    {
      WeekIff(db, req, i);
    }
  }

  lemma WeekIff(db: Tables, req: Request, i: int)
    requires SlotsNonEmpty(db) && req.SubscriptionRequest?
    ensures WeekPasses(db, req, i) <==> WeekAllowed(db, req, i)
  {
    ValidationIff(db, Occurrence(req, i, db.now), req.minutes, true);
  }

  lemma MaySubscribeIff(db: Tables, req: Request)
    requires SlotsNonEmpty(db) && req.SubscriptionRequest?
    ensures SubscriptionPasses(db, req) <==> MaySubscribe(db, req)
  {
    WeeksIff(db, req);
  }

  // ---- A block ----

  /** A non-empty range in which no booking and no block of the same court, or of the whole club, has an instant. */
  ghost predicate MayBlock(db: Tables, req: Request)
    requires req.BlockRequest?
  {
    req.start < req.end && FreeOfBookings(db.rows, req.scope, req.start, req.end) && FreeOfBlocks(db.rows, req.scope, req.start, req.end)
  }

  lemma MayBlockIff(db: Tables, req: Request)
    requires SlotsNonEmpty(db) && req.BlockRequest?
    ensures BlockPasses(db, req) <==> MayBlock(db, req)
  {
    if req.start < req.end { ClearIffFree(db.rows, Blocked(req.scope, req.start, req.end, false)); }
  }

  // ---- A freed slot ----

  /** A member still waiting for a slot like this one, other than the one who gives it up. */
  ghost predicate WaitsForSlot(e: Entry, b: Booking) {
    && !e.fulfilled && !e.left && e.user != b.customer
    && (e.court == None || e.court == Some(b.court))
    && ShareInstant(e.start, e.end, b.start, b.end)
  }

  ghost predicate FirstWaiting(waitlist: seq<Entry>, j: int, b: Booking) {
    0 <= j < |waitlist| && WaitsForSlot(waitlist[j], b) && forall k :: 0 <= k < j ==> !WaitsForSlot(waitlist[k], b)
  }

  /** What a cancellation leaves of the holds and the waitlist: an upcoming prime slot is held for the first member waiting
      for it, and for nobody if there is none. */
  ghost predicate SlotRouted(db: Tables, b: Booking, holds: seq<Hold>, waitlist: seq<Entry>, token: nat, until: int) {
    if db.now < b.start && PrimeSlot(b.start, db.offset) && exists j :: FirstWaiting(db.waitlist, j, b) then
      exists j :: FirstWaiting(db.waitlist, j, b) &&
        holds == db.holds + [Hold(b.court, db.waitlist[j].user, b.start, b.end, token, until, None, j)] &&
        waitlist == db.waitlist[j := db.waitlist[j].(fulfilled := true)]
    else holds == db.holds && waitlist == db.waitlist
  }

  lemma EntryMatchesIff(e: Entry, b: Booking)
    requires e.start < e.end && b.start < b.end
    ensures EntryMatches(e, b) <==> WaitsForSlot(e, b)
  {
    OverlapIffInstantShared(e.start, e.end, b.start, b.end);
  }

  lemma WaitingIff(db: Tables, b: Booking)
    requires SlotsNonEmpty(db) && b.start < b.end
    ensures forall j :: 0 <= j < |db.waitlist| ==> (EntryMatches(db.waitlist[j], b) <==> WaitsForSlot(db.waitlist[j], b))
  {
    forall j | 0 <= j < |db.waitlist|
      ensures EntryMatches(db.waitlist[j], b) <==> WaitsForSlot(db.waitlist[j], b)
    {
      EntryMatchesIff(db.waitlist[j], b);
    }
  }

  lemma RoutedIff(db: Tables, i: nat)
    requires i < |db.rows| && db.rows[i].Reserved?
    ensures SlotsNonEmpty(db) ==> forall j :: 0 <= j < |db.waitlist| ==>
      (EntryMatches(db.waitlist[j], db.rows[i].booking) <==> WaitsForSlot(db.waitlist[j], db.rows[i].booking))
    ensures WorkingHours.IsPrimeTime(db.rows[i].booking.start, db.offset) <==> PrimeSlot(db.rows[i].booking.start, db.offset)
  {
    PrimeTimeIff(db.rows[i].booking.start, db.offset);
    if SlotsNonEmpty(db) {
      assert RowNonEmpty(db.rows[i]);
      WaitingIff(db, db.rows[i].booking);
    }
  }

  /** Starts on a Friday or Saturday of the local calendar, or at five in the afternoon or later by the local clock. */
  predicate PrimeSlot(start: int, offset: int) {
    || WorkingHours.DayOfWeek(WorkingHours.CalendarDay(start, offset)) == 5
    || WorkingHours.DayOfWeek(WorkingHours.CalendarDay(start, offset)) == 6
    || ((start + offset) % 86400000) / 3600000 >= 17
  }

  lemma PrimeTimeIff(start: int, offset: int)
    ensures WorkingHours.IsPrimeTime(start, offset) <==> PrimeSlot(start, offset)
  {
  }

  // ---- The jobs ----

  /** Unpaid past its own deadline, or past the club's window if it has none. */
  predicate PaymentOverdue(r: Row, minutes: int, now: int) {
    r.Reserved? && r.booking.status == PendingDeposit &&
    match r.booking.expiresAt
    case Some(deadline) => deadline < now
    case None => r.booking.createdAt + minutes * 60000 < now
  }

  predicate DraftAbandoned(r: Row, minutes: int, now: int) {
    r.Reserved? && r.booking.status == Draft && r.booking.createdAt + minutes * 60000 < now
  }

  predicate NobodyCame(r: Row, grace: int, now: int) {
    r.Reserved? && r.booking.status == Confirmed && r.booking.start + grace * 60000 < now
  }

  /** A session of the subscription that has not begun. */
  predicate UpcomingSession(r: Row, subscription: nat, now: int) {
    && r.Reserved? && r.booking.subscription == Some(subscription) && !r.booking.deleted && now < r.booking.start
    && r.booking.status in {Draft, PendingDeposit, PendingVerification, Confirmed}
  }

  /** The row with its booking in another status. */
  function InStatus(r: Row, s: Status): Row {
    if r.Reserved? then Reserved(r.booking.(status := s)) else r
  }

  lemma BulkWritesIff(r: Row, i: nat, minutes: nat, subscription: nat, now: int)
    ensures Written(ExpirePending(minutes), i, r, now) == if PaymentOverdue(r, minutes, now) then InStatus(r, Expired) else r
    ensures Written(ExpireDrafts(minutes), i, r, now) == if DraftAbandoned(r, minutes, now) then InStatus(r, Expired) else r
    ensures Written(MarkNoShows(minutes), i, r, now) == if NobodyCame(r, minutes, now) then InStatus(r, NoShow) else r
    ensures Written(RevokeSubscription(subscription), i, r, now) ==
      if UpcomingSession(r, subscription, now) then InStatus(r, Cancelled) else r
  {
  }

  lemma BulkRules(rows: seq<Row>, minutes: nat, subscription: nat, now: int)
    ensures forall i: nat :: i < |rows| ==>
      var r := rows[i];
      && Written(ExpirePending(minutes), i, r, now) == (if PaymentOverdue(r, minutes, now) then InStatus(r, Expired) else r)
      && Written(ExpireDrafts(minutes), i, r, now) == (if DraftAbandoned(r, minutes, now) then InStatus(r, Expired) else r)
      && Written(MarkNoShows(minutes), i, r, now) == (if NobodyCame(r, minutes, now) then InStatus(r, NoShow) else r)
      && Written(RevokeSubscription(subscription), i, r, now) ==
           (if UpcomingSession(r, subscription, now) then InStatus(r, Cancelled) else r)
  {
    forall i: nat | i < |rows|
      ensures Written(ExpirePending(minutes), i, rows[i], now) ==
        if PaymentOverdue(rows[i], minutes, now) then InStatus(rows[i], Expired) else rows[i]
      ensures Written(ExpireDrafts(minutes), i, rows[i], now) ==
        if DraftAbandoned(rows[i], minutes, now) then InStatus(rows[i], Expired) else rows[i]
      ensures Written(MarkNoShows(minutes), i, rows[i], now) ==
        if NobodyCame(rows[i], minutes, now) then InStatus(rows[i], NoShow) else rows[i]
      ensures Written(RevokeSubscription(subscription), i, rows[i], now) ==
        if UpcomingSession(rows[i], subscription, now) then InStatus(rows[i], Cancelled) else rows[i]
    {
      BulkWritesIff(rows[i], i, minutes, subscription, now);
    }
  }
}
