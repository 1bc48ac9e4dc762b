// The schedule writers as concurrent transactions. A transaction is a list of statements; each statement runs
// atomically, locks are held until commit or rollback, and inserts become visible at commit (read committed).
// Everything that only rewrites existing rows is one atomic step. SQL's NOW() is the instant the transaction began.

module Interleaving {
  import opened Options
  import opened Instants
  import opened BookingStatus
  import opened Schedule
  import WorkingHours

  // ---- Requests and the rows they would insert ----

  datatype Role = Customer | Receptionist | Owner

  datatype Request =
    | BookingRequest(role: Role, customer: UserId, court: CourtId, start: int, minutes: int,
                     lines: seq<Line>, token: Option<nat>, prepaid: bool, expiresAt: int)
    | SubscriptionRequest(customer: UserId, court: CourtId, start: int, minutes: int, months: nat, id: nat)
    | BlockRequest(scope: Option<CourtId>, start: int, end: int)

  /** Staff money collected in person confirms at once; otherwise the desk drafts and others await a deposit. */
  function InitialStatus(role: Role, prepaid: bool): Status {
    if role != Customer && prepaid then Confirmed
    else if role == Receptionist then Draft
    else PendingDeposit
  }

  function Occurrence(req: Request, i: int, now: int): Row
    requires req.SubscriptionRequest?
  {
    var start := req.start + i * WEEK_MS;
    Reserved(Booking(req.court, req.customer, false, start, start + req.minutes * MINUTE_MS,
                     Confirmed, false, [], Some(req.id), now, None))
  }

  function NewBooking(req: Request, now: int): Row
    requires req.BookingRequest?
  {
    var status := InitialStatus(req.role, req.prepaid);
    Reserved(Booking(req.court, req.customer, req.role == Customer, req.start, req.start + req.minutes * MINUTE_MS,
                     status, false, SortLines(req.lines), None, now,
                     if status == PendingDeposit then Some(req.expiresAt) else None))
  }

  /** The rows a request inserts if every check passes. */
  function Claims(req: Request, now: int): seq<Row> {
    match req
    case BookingRequest(_, _, _, _, _, _, _, _, _) => [NewBooking(req, now)]
    case SubscriptionRequest(_, _, _, _, months, _) => seq(4 * months, i requires 0 <= i < 4 * months => Occurrence(req, i, now))
    case BlockRequest(scope, start, end) => [Blocked(scope, start, end, false)]
  }

  // ---- Statements ----

  datatype Lock =
    | CourtLock(court: CourtId) | CustomerLock(customer: UserId)
    | HoldLock(hold: nat) | EquipmentLock(equipment: EquipmentId)

  datatype Stmt =
    | Acquire(lock: Lock)
    | CheckFuture(at: int)
    | CheckTerm(months: nat)
    | CheckUnpaid(customer: UserId)
    | CheckDuration(minutes: int)
    | CheckAvailable(court: CourtId)
    | CheckHours(start: int, end: int)
    | CheckNonEmpty(start: int, end: int)
    | CheckBlocks(claim: Row)
    | CheckBookings(claim: Row)
    | ReadHolds(claim: Row, role: Role, token: Option<nat>)
    | CheckStock(line: Line, claim: Row)

  function InsertLine(line: Line, sorted: seq<Line>): seq<Line> {
    if sorted == [] || line.equipment < sorted[0].equipment then [line] + sorted
    else [sorted[0]] + InsertLine(line, sorted[1..])
  }

  /** The library's stable sort of the requested lines by item id. */
  function SortLines(lines: seq<Line>): seq<Line> {
    if lines == [] then [] else InsertLine(lines[|lines| - 1], SortLines(lines[..|lines| - 1]))
  }

  function LineStatements(lines: seq<Line>, claim: Row): seq<Stmt> {
    if lines == [] then [] else
      [Acquire(EquipmentLock(lines[0].equipment)), CheckStock(lines[0], claim)] + LineStatements(lines[1..], claim)
  }

  /** validateBookingSlot, statement by statement; staff skip the working hours. */
  function Validation(claim: Row, minutes: int, bypassHours: bool): seq<Stmt>
    requires claim.Reserved?
  {
    [CheckDuration(minutes), CheckAvailable(claim.booking.court)]
    + (if bypassHours then [] else [CheckHours(claim.booking.start, claim.booking.end)])
    + [CheckBlocks(claim), CheckBookings(claim)]
  }

  function CourtAcquisitions(courts: seq<CourtId>): seq<Stmt> {
    seq(|courts|, i requires 0 <= i < |courts| => Acquire(CourtLock(courts[i])))
  }

  /** The court rows a block locks: its own if it is one of the club's, or all of them. */
  function CourtsOfBlock(courts: seq<CourtId>, scope: Option<CourtId>): seq<CourtId> {
    if scope.None? then courts else if scope.value in courts then [scope.value] else []
  }

  function OccurrenceChecks(req: Request, now: int, from: nat): seq<Stmt>
    requires req.SubscriptionRequest? && from <= 4 * req.months
    decreases 4 * req.months - from
  {
    if from == 4 * req.months then [] else
      Validation(Occurrence(req, from, now), req.minutes, true) + OccurrenceChecks(req, now, from + 1)
  }

  /** The anti-lockout check, for customers only. */
  function CapStatements(req: Request): seq<Stmt>
    requires req.BookingRequest?
  {
    if req.role == Customer then [CheckFuture(req.start), Acquire(CustomerLock(req.customer)), CheckUnpaid(req.customer)] else []
  }

  function Program(req: Request, courts: seq<CourtId>, now: int): seq<Stmt> {
    match req
    case BookingRequest(role, _, court, _, minutes, lines, token, _, _) =>
      var claim := NewBooking(req, now);
      [Acquire(CourtLock(court))]
      + CapStatements(req)
      + Validation(claim, minutes, role != Customer)
      + [ReadHolds(claim, role, token)]
      + LineStatements(SortLines(lines), claim)
    case SubscriptionRequest(_, court, start, _, months, _) =>
      [CheckTerm(months), CheckFuture(start), Acquire(CourtLock(court))] + OccurrenceChecks(req, now, 0)
    case BlockRequest(scope, start, end) =>
      var claim := Blocked(scope, start, end, false);
      [CheckNonEmpty(start, end)] + CourtAcquisitions(CourtsOfBlock(courts, scope)) + [CheckBookings(claim), CheckBlocks(claim)]
  }

  // ---- Transactions and the machine ----

  /** began is the instant the transaction started; claimed is the hold it will consume. */
  datatype Txn = Txn(
    req: Request, began: int, done: set<Stmt>, todo: seq<Stmt>, locks: set<Lock>, claimed: Option<nat>)

  datatype State = State(db: Tables, txns: map<nat, Txn>)

  predicate ValidDuration(minutes: int) {
    60 <= minutes <= 720 && minutes % 60 == 0
  }

  /** Locks the next statement of t needs that it does not hold yet. */
  function Wanted(db: Tables, txn: Txn): set<Lock> {
    if txn.todo == [] then {}
    else match txn.todo[0]
      case Acquire(l) => {l} - txn.locks
      case ReadHolds(claim, _, _) =>
        (set h: nat | h < |db.holds| && claim.Reserved? &&
          HoldMatches(db.holds[h], claim.booking.court, claim.booking.start, claim.booking.end, txn.began) :: HoldLock(h)) - txn.locks
      case _ => {}
  }

  predicate HeldByOther(s: State, t: nat, l: Lock) {
    exists t' :: t' in s.txns && t' != t && l in s.txns[t'].locks
  }

  predicate Waits(s: State, t: nat) {
    t in s.txns && exists l :: l in Wanted(s.db, s.txns[t]) && HeldByOther(s, t, l)
  }

  /** The earliest hold over the claim that is active at instant at. */
  function HoldFor(db: Tables, claim: Row, at: int): Option<nat>
    requires claim.Reserved?
  {
    EarliestHold(db.holds, claim.booking.court, claim.booking.start, claim.booking.end, at)
  }

  predicate OwnsHold(h: Hold, claim: Row, token: Option<nat>)
    requires claim.Reserved?
  {
    h.user == claim.booking.customer && token == Some(h.token)
  }

  /** Does the statement succeed in a transaction that began at the given instant? A failing one rolls it back. */
  ghost predicate Passes(db: Tables, began: int, st: Stmt) {
    match st
    case Acquire(l) => l.CourtLock? ==> l.court in db.courts
    case CheckFuture(at) => at >= db.now
    case CheckTerm(months) => months == 1 || months == 3
    case CheckUnpaid(u) => NoUnpaid(db.rows, u, began)
    case CheckDuration(minutes) => ValidDuration(minutes)
    case CheckAvailable(court) => court in db.courts && court in db.available
    case CheckHours(start, end) => db.hours != [] && WorkingHours.OpenThroughout(db.hours, db.offset, start, end)
    case CheckNonEmpty(start, end) => start < end
    case CheckBlocks(claim) => ClearOfBlocks(db.rows, claim)
    case CheckBookings(claim) => ClearOfBookings(db.rows, claim)
    case ReadHolds(claim, role, token) =>
      claim.Reserved? &&
      (var h := HoldFor(db, claim, began); h.None? || role != Customer || OwnsHold(db.holds[h.value], claim, token))
    case CheckStock(line, claim) =>
      line.quantity > 0 && line.equipment in db.items && db.items[line.equipment].active &&
      RentedOver(db.rows, line.equipment, StartOf(claim), EndOf(claim)) + line.quantity <= db.items[line.equipment].stock
  }

  function ClaimedBy(db: Tables, txn: Txn, st: Stmt): Option<nat> {
    if st.ReadHolds? && st.claim.Reserved? then
      var h := HoldFor(db, st.claim, txn.began);
      if h.Some? && OwnsHold(db.holds[h.value], st.claim, st.token) then h else None
    else txn.claimed
  }

  ghost function Executed(db: Tables, txn: Txn): Txn
    requires txn.todo != []
  {
    var st := txn.todo[0];
    txn.(done := txn.done + {st}, todo := txn.todo[1..],
         locks := txn.locks + Wanted(db, txn), claimed := ClaimedBy(db, txn, st))
  }

  /** Duplicate items of one booking break a uniqueness constraint, which rolls the insert back. */
  predicate Insertable(txn: Txn) {
    txn.req.BookingRequest? ==> DistinctItems(SortLines(txn.req.lines))
  }

  function Committed(db: Tables, txn: Txn): Tables {
    if !Insertable(txn) then db else
      db.(rows := db.rows + Claims(txn.req, txn.began),
          holds := if txn.claimed.Some? && txn.claimed.value < |db.holds|
                   then db.holds[txn.claimed.value := db.holds[txn.claimed.value].(claimedBy := Some(|db.rows|))]
                   else db.holds)
  }

  datatype Action =
    | Begin(txn: nat, req: Request)
    | Step(txn: nat)
    | Rollback(txn: nat)
    | Write(write: StatusWrite)
    | CancelBooking(row: nat, offer: Option<nat>, token: nat, holdUntil: int)
    | RemoveBlock(row: nat)
    | Join(entry: Entry)
    | Leave(index: nat)
    | Tick(later: int)
    | SetAvailable(available: set<CourtId>)
    | SetHours(hours: seq<WorkingHours.Row>)
    | SetItem(equipment: EquipmentId, item: Item)

  predicate Enabled(s: State, a: Action) {
    match a
    case Begin(t, req) => t !in s.txns
    case Step(t) => t in s.txns && !Waits(s, t)
    case Rollback(t) => t in s.txns
    case Write(_) => true
    case CancelBooking(i, offer, _, _) =>
      i < |s.db.rows| && Cancellable(s.db.rows[i]) &&
      (offer.Some? ==> offer.value < |s.db.waitlist| && EntryMatches(s.db.waitlist[offer.value], s.db.rows[i].booking))
    case RemoveBlock(i) => i < |s.db.rows| && s.db.rows[i].Blocked?
    case Join(e) => !e.fulfilled && !e.left && e.start < e.end
    case Leave(j) => j < |s.db.waitlist| && !s.db.waitlist[j].fulfilled
    case Tick(later) => later >= s.db.now
    case SetAvailable(_) => true
    case SetHours(_) => true
    case SetItem(e, item) => item.stock >= 0 && (e in s.db.items ==> item.stock >= s.db.items[e].stock)
  }

  ghost function Next(s: State, a: Action): State
    requires Enabled(s, a)
  {
    match a
    case Begin(t, req) =>
      s.(txns := s.txns[t := Txn(req, s.db.now, {}, Program(req, s.db.courts, s.db.now), {}, None)])
    case Step(t) =>
      var txn := s.txns[t];
      if txn.todo == [] then State(Committed(s.db, txn), s.txns - {t})
      else if Passes(s.db, txn.began, txn.todo[0]) then s.(txns := s.txns[t := Executed(s.db, txn)])
      else s.(txns := s.txns - {t})
    case Rollback(t) => s.(txns := s.txns - {t})
    case Write(w) => s.(db := WriteStatus(s.db, w))
    case CancelBooking(i, offer, token, holdUntil) => s.(db := Cancel(s.db, i, offer, token, holdUntil))
    case RemoveBlock(i) => s.(db := s.db.(rows := s.db.rows[i := s.db.rows[i].(removed := true)]))
    case Join(e) => s.(db := s.db.(waitlist := s.db.waitlist + [e]))
    case Leave(j) => s.(db := s.db.(waitlist := s.db.waitlist[j := s.db.waitlist[j].(left := true)]))
    case Tick(later) => s.(db := s.db.(now := later))
    case SetAvailable(available) => s.(db := s.db.(available := available))
    case SetHours(hours) => s.(db := s.db.(hours := hours))
    case SetItem(e, item) => s.(db := s.db.(items := s.db.items[e := item]))
  }

  ghost predicate Run(s: State, actions: seq<Action>)
    decreases |actions|
  {
    actions == [] || (Enabled(s, actions[0]) && Run(Next(s, actions[0]), actions[1..]))
  }

  ghost function Exec(s: State, actions: seq<Action>): State
    requires Run(s, actions)
    decreases |actions|
  {
    if actions == [] then s else Exec(Next(s, actions[0]), actions[1..])
  }

  predicate DistinctCourts(courts: seq<CourtId>) {
    forall i, j :: 0 <= i < j < |courts| ==> courts[i] != courts[j]
  }

  /** An empty schedule, with whatever courts, hours and stock. Courts have distinct ids. */
  predicate Initial(s: State) {
    DistinctCourts(s.db.courts) &&
    s.txns == map[] && s.db.rows == [] && s.db.holds == [] && s.db.waitlist == [] &&
    forall e :: e in s.db.items ==> s.db.items[e].stock >= 0
  }

  /** No lock is held by two transactions. */
  predicate Exclusive(s: State) {
    forall t, t' :: t in s.txns && t' in s.txns && t != t' ==> s.txns[t].locks !! s.txns[t'].locks
  }

  /** A block that locks at least one court row. */
  predicate LocksACourt(courts: seq<CourtId>, req: Request) {
    req.BlockRequest? ==> CourtsOfBlock(courts, req.scope) != []
  }

  predicate BlocksLock(courts: seq<CourtId>, actions: seq<Action>) {
    forall i :: 0 <= i < |actions| && actions[i].Begin? ==> LocksACourt(courts, actions[i].req)
  }
}
