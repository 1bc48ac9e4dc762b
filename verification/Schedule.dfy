// The tables behind the court schedule of one club, and what may be read from and written to them.
// Instants are milliseconds since the epoch.

module Schedule {
  import opened Options
  import opened Instants
  import opened BookingStatus
  import WorkingHours

  type CourtId = nat
  type UserId = nat
  type EquipmentId = nat

  datatype Line = Line(equipment: EquipmentId, quantity: int)

  datatype Booking = Booking(
    court: CourtId, customer: UserId, selfMade: bool, start: int, end: int,
    status: Status, deleted: bool, lines: seq<Line>, subscription: Option<nat>, createdAt: int, expiresAt: Option<int>)

  /** A row of the bookings table, or of the blocked-periods table (court None: the whole club).
      Rows are kept in the order they were inserted; removing a block leaves a dead row. */
  datatype Row =
    | Reserved(booking: Booking)
    | Blocked(court: Option<CourtId>, start: int, end: int, removed: bool)

  /** A reservation of a freed slot for one waitlisted user; the index of its waitlist entry is kept with it. */
  datatype Hold = Hold(
    court: CourtId, user: UserId, start: int, end: int, token: nat, expiresAt: int,
    claimedBy: Option<nat>, entry: nat)

  datatype Entry = Entry(user: UserId, court: Option<CourtId>, start: int, end: int, fulfilled: bool, left: bool)

  datatype Item = Item(stock: int, active: bool)

  /** courts lists the club's court rows in scan order; available, those open for booking. */
  datatype Tables = Tables(
    courts: seq<CourtId>, available: set<CourtId>, hours: seq<WorkingHours.Row>, offset: int,
    rows: seq<Row>, holds: seq<Hold>, waitlist: seq<Entry>, items: map<EquipmentId, Item>, now: int)

  // ---- Overlap ----

  function StartOf(r: Row): int {
    if r.Reserved? then r.booking.start else r.start
  }

  function EndOf(r: Row): int {
    if r.Reserved? then r.booking.end else r.end
  }

  function CourtOf(r: Row): Option<CourtId> {
    if r.Reserved? then Some(r.booking.court) else r.court
  }

  /** Half-open intervals share an instant. */
  predicate Overlap(start: int, end: int, start': int, end': int) {
    start < end' && start' < end
  }

  /** The overlap test of both schedule writers: same court, or either one takes the whole club. */
  predicate Conflict(r: Row, r': Row) {
    Overlap(StartOf(r), EndOf(r), StartOf(r'), EndOf(r')) &&
    (CourtOf(r) == CourtOf(r') || CourtOf(r).None? || CourtOf(r').None?)
  }

  predicate LiveBooking(r: Row) {
    r.Reserved? && !r.booking.deleted && Occupies(r.booking.status)
  }

  predicate LiveBlock(r: Row) {
    r.Blocked? && !r.removed
  }

  predicate Live(r: Row) {
    LiveBooking(r) || LiveBlock(r)
  }

  predicate ClearOfBookings(rows: seq<Row>, r: Row) {
    forall i :: 0 <= i < |rows| && LiveBooking(rows[i]) ==> !Conflict(rows[i], r)
  }

  predicate ClearOfBlocks(rows: seq<Row>, r: Row) {
    forall i :: 0 <= i < |rows| && LiveBlock(rows[i]) ==> !Conflict(rows[i], r)
  }

  /** No double-booking: bookings and blocks, pairwise. */
  predicate Disjoint(rows: seq<Row>) {
    forall i, j :: 0 <= i < j < |rows| && Live(rows[i]) && Live(rows[j]) ==> !Conflict(rows[i], rows[j])
  }

  // ---- Equipment ----

  function QuantityOf(lines: seq<Line>, e: EquipmentId): int {
    if lines == [] then 0 else
      (if lines[0].equipment == e then lines[0].quantity else 0) + QuantityOf(lines[1..], e)
  }

  function Rented(r: Row, e: EquipmentId): int {
    if LiveBooking(r) then QuantityOf(r.booking.lines, e) else 0
  }

  /** What the stock check sums: over all live bookings that overlap the window. */
  function RentedOver(rows: seq<Row>, e: EquipmentId, start: int, end: int): int {
    if rows == [] then 0 else
      var last := rows[|rows| - 1];
      RentedOver(rows[..|rows| - 1], e, start, end) +
      if Overlap(StartOf(last), EndOf(last), start, end) then Rented(last, e) else 0
  }

  /** What is really out at instant t. */
  function RentedAt(rows: seq<Row>, e: EquipmentId, t: int): int {
    if rows == [] then 0 else
      var last := rows[|rows| - 1];
      RentedAt(rows[..|rows| - 1], e, t) + if StartOf(last) <= t < EndOf(last) then Rented(last, e) else 0
  }

  ghost predicate StockRespected(db: Tables) {
    forall e, t :: e in db.items ==> RentedAt(db.rows, e, t) <= db.items[e].stock
  }

  /** The bookings table holds one line per item of a booking. */
  predicate DistinctItems(lines: seq<Line>) {
    forall i, j :: 0 <= i < j < |lines| ==> lines[i].equipment != lines[j].equipment
  }

  // ---- Unpaid bookings ----

  predicate UnpaidAhead(r: Row, u: UserId, now: int) {
    r.Reserved? && r.booking.customer == u && !r.booking.deleted &&
    r.booking.status == PendingDeposit && r.booking.end > now
  }

  predicate NoUnpaid(rows: seq<Row>, u: UserId, now: int) {
    forall i :: 0 <= i < |rows| ==> !UnpaidAhead(rows[i], u, now)
  }

  /** Two self-made bookings of one customer, both unpaid with their end still ahead. */
  predicate BothUnpaid(r: Row, r': Row, now: int) {
    r.Reserved? && r'.Reserved? && r.booking.selfMade && r'.booking.selfMade &&
    UnpaidAhead(r, r.booking.customer, now) && UnpaidAhead(r', r.booking.customer, now)
  }

  /** The anti-lockout cap: at most one self-made unpaid booking ahead per customer. */
  predicate UnpaidCapped(rows: seq<Row>, now: int) {
    forall i, j :: 0 <= i < j < |rows| ==> !BothUnpaid(rows[i], rows[j], now)
  }

  // ---- Waitlist holds ----

  predicate HoldMatches(h: Hold, court: CourtId, start: int, end: int, now: int) {
    h.court == court && h.claimedBy.None? && h.expiresAt > now && Overlap(h.start, h.end, start, end)
  }

  /** The earliest active hold over a slot, in creation order. */
  function EarliestHold(holds: seq<Hold>, court: CourtId, start: int, end: int, now: int): (h: Option<nat>)
    ensures h.Some? ==> h.value < |holds| && HoldMatches(holds[h.value], court, start, end, now)
    ensures forall i :: 0 <= i < |holds| && HoldMatches(holds[i], court, start, end, now) ==> h.Some? && h.value <= i
  {
    if holds == [] then None else
      var earlier := EarliestHold(holds[..|holds| - 1], court, start, end, now);
      if earlier.Some? then earlier
      else if HoldMatches(holds[|holds| - 1], court, start, end, now) then Some(|holds| - 1)
      else None
  }

  /** A claimed hold went to one booking, of its own user, over its own slot. */
  predicate HoldHonest(db: Tables, h: Hold) {
    h.claimedBy.Some? ==>
      var i := h.claimedBy.value;
      i < |db.rows| && db.rows[i].Reserved? && db.rows[i].booking.customer == h.user &&
      db.rows[i].booking.court == h.court && Overlap(h.start, h.end, StartOf(db.rows[i]), EndOf(db.rows[i]))
  }

  predicate HoldsHonest(db: Tables) {
    && (forall h :: 0 <= h < |db.holds| ==> HoldHonest(db, db.holds[h]))
    && (forall h :: 0 <= h < |db.holds| ==>
      db.holds[h].entry < |db.waitlist| && db.waitlist[db.holds[h].entry].fulfilled)
    && (forall h, h' :: 0 <= h < h' < |db.holds| ==> db.holds[h].entry != db.holds[h'].entry)
    && (forall h, h' :: 0 <= h < h' < |db.holds| && db.holds[h].claimedBy.Some? ==>
      db.holds[h].claimedBy != db.holds[h'].claimedBy)
  }

  // ---- Status writes ----

  /** Every statement that changes a booking's status, except cancellation (which also touches the waitlist). */
  datatype StatusWrite =
    | CheckIn(row: nat)
    | UploadReceipt(row: nat)
    | ApproveDeposit(row: nat)
    | WebhookFlag(row: nat)
    | WebhookConfirm(row: nat)
    | Delete(row: nat)
    | RevokeSubscription(subscription: nat)
    | ExpirePending(minutes: nat)
    | ExpireDrafts(minutes: nat)
    | MarkNoShows(graceMinutes: nat)

  /** A booking's own payment deadline; rows without one fall back to the club's window. */
  function Deadline(b: Booking, minutes: nat): int {
    if b.expiresAt.Some? then b.expiresAt.value else b.createdAt + minutes * MINUTE_MS
  }

  function StatusAfter(w: StatusWrite, i: nat, b: Booking, now: int): Status {
    match w
    case CheckIn(row) => if i == row && b.status == Confirmed then CheckedIn else b.status
    case UploadReceipt(row) =>
      if i == row && b.status in {PendingDeposit, PendingVerification} then PendingVerification else b.status
    case ApproveDeposit(row) => if i == row && b.status == PendingVerification then Confirmed else b.status
    case WebhookFlag(row) =>
      if i == row && !b.deleted && b.status == PendingDeposit then PendingVerification else b.status
    case WebhookConfirm(row) =>
      if i == row && !b.deleted && b.status in {PendingDeposit, PendingVerification} then Confirmed else b.status
    case Delete(row) => if i == row && !b.deleted then Cancelled else b.status
    case RevokeSubscription(sub) =>
      if b.subscription == Some(sub) && !b.deleted && b.start > now &&
         b.status in {Draft, PendingDeposit, PendingVerification, Confirmed}
      then Cancelled else b.status
    case ExpirePending(minutes) => if b.status == PendingDeposit && Deadline(b, minutes) < now then Expired else b.status
    case ExpireDrafts(minutes) =>
      if b.status == Draft && b.createdAt < now - minutes * MINUTE_MS then Expired else b.status
    case MarkNoShows(grace) =>
      if b.status == Confirmed && b.start < now - grace * MINUTE_MS then NoShow else b.status
  }

  function Written(w: StatusWrite, i: nat, r: Row, now: int): Row {
    if r.Reserved? then
      Reserved(r.booking.(status := StatusAfter(w, i, r.booking, now),
                          deleted := r.booking.deleted || (w.Delete? && w.row == i)))
    else r
  }

  function WriteStatus(db: Tables, w: StatusWrite): Tables {
    db.(rows := seq(|db.rows|, i requires 0 <= i < |db.rows| => Written(w, i, db.rows[i], db.now)))
  }

  predicate Cancellable(r: Row) {
    r.Reserved? && !r.booking.deleted && r.booking.status !in {Cancelled, Completed, NoShow, Expired}
  }

  /** The waitlist entry a freed slot is offered to. */
  predicate EntryMatches(e: Entry, b: Booking) {
    !e.fulfilled && !e.left && (e.court.None? || e.court == Some(b.court)) &&
    Overlap(e.start, e.end, b.start, b.end) && e.user != b.customer
  }

  /** Cancellation frees the slot and, when routed to a waitlist entry, holds it for that entry's user. */
  function Cancel(db: Tables, i: nat, offer: Option<nat>, token: nat, holdUntil: int): Tables
    requires i < |db.rows| && db.rows[i].Reserved?
    requires offer.Some? ==> offer.value < |db.waitlist|
  {
    var b := db.rows[i].booking;
    var freed := db.(rows := db.rows[i := Reserved(b.(status := Cancelled))]);
    if offer.None? then freed else
      freed.(
        holds := db.holds + [Hold(b.court, db.waitlist[offer.value].user, b.start, b.end, token, holdUntil, None, offer.value)],
        waitlist := db.waitlist[offer.value := db.waitlist[offer.value].(fulfilled := true)])
  }

  /** Each status write follows the documented edges. The exceptions are deletion, which cancels from any
      status, and (in cancelBooking) cancelling a checked-in booking. */
  lemma StatusWritesFollowEdges(w: StatusWrite, i: nat, b: Booking, now: int)
    ensures var s := StatusAfter(w, i, b, now);
      s == b.status || Reaches(b.status, s) || (w.Delete? && w.row == i && s == Cancelled)
  {
    var s := StatusAfter(w, i, b, now);
    if s != b.status && !w.Delete? {
      if w.WebhookConfirm? && b.status == PendingDeposit {
        assert IsPath([PendingDeposit, PendingVerification, Confirmed]);
      } else {
        assert CanTransition(b.status, s);
        ReachesByEdge(b.status, s);
      }
    }
  }

  /** cancelBooking accepts exactly the statuses with an edge to cancelled, and checked_in besides. */
  lemma CancelFollowsEdgesExceptCheckedIn(r: Row)
    requires r.Reserved? && !r.booking.deleted
    ensures Cancellable(r) <==> CanTransition(r.booking.status, Cancelled) || r.booking.status == CheckedIn
  {
  }
}
