// The schedule's use cases as they run against the club's tables, one call at a time. Each is proved to do
// exactly what serving its statement list does, so what is proved of the interleaved machine is about these bodies.

module CourtDesk {
  import opened Options
  import opened Instants
  import opened BookingStatus
  import opened Schedule
  import opened Interleaving
  import opened Serving
  import opened ServedRequests
  import opened SlotRules
  import opened StockRules
  import opened DeskRules
  import LockOrder
  import ScheduleHistory
  import WorkingHours

  datatype SlotError = SlotOk | BadDuration | CourtNotAvailable | OutsideHours(why: WorkingHours.Outcome) | SlotBlocked | SlotTaken

  datatype Reason =
    | CourtNotFound | NotInFuture | AwaitingPayment | SlotRefused(error: SlotError) | HeldForAnother
    | BadQuantity | ItemUnavailable | NotEnoughStock | DuplicateItem
    | BadTerm | WeekRefused(week: nat, error: SlotError)
    | EmptyRange | ConflictsWithBooking | ConflictsWithBlock

  /** The stored booking is the one asked for: its slot, its owner, all its items in lock order, and a status that
      only the desk's collected money lifts to confirmed. */
  predicate BookedAs(r: Row, req: Request, now: int)
    requires req.BookingRequest?
  {
    && r.Reserved? && !r.booking.deleted && r.booking.subscription == None
    && r.booking.court == req.court && r.booking.customer == req.customer
    && r.booking.start == req.start && r.booking.end == req.start + req.minutes * 60000 && r.booking.createdAt == now
    && multiset(r.booking.lines) == multiset(req.lines) && LockOrder.Sorted(r.booking.lines)
    && (r.booking.status == Confirmed <==> req.role != Customer && req.prepaid)
    && (r.booking.status == Draft <==> req.role == Receptionist && !req.prepaid)
    && (r.booking.status in {Confirmed, Draft} || r.booking.status == PendingDeposit)
    && (r.booking.selfMade <==> req.role == Customer)
    && r.booking.expiresAt == (if r.booking.status == PendingDeposit then Some(req.expiresAt) else None)
  }

  lemma NewBookingIsAsAsked(req: Request, now: int)
    requires req.BookingRequest?
    ensures BookedAs(NewBooking(req, now), req, now)
  {
    LockOrder.SortLinesSorts(req.lines);
  }

  datatype StepOutcome = Stepped | NotFound | WrongStatus | HasRefunds | Forbidden

  /** A write that names one row changes only that row. */
  lemma OneRowWritten(db: Tables, w: StatusWrite, i: nat)
    requires i < |db.rows|
    requires w in {CheckIn(i), UploadReceipt(i), ApproveDeposit(i), Delete(i)}
    ensures WriteStatus(db, w).rows == db.rows[i := Written(w, i, db.rows[i], db.now)]
  {
    forall j | 0 <= j < |db.rows| && j != i
      ensures Written(w, j, db.rows[j], db.now) == db.rows[j]
    {
    }
  }

  /** The step of the interleaved machine that cancels booking i, making this offer. */
  ghost predicate IsCancelStep(db: Tables, db': Tables, i: nat, offer: Option<nat>, token: nat, until: int) {
    var cancel := CancelBooking(i, offer, token, until);
    Enabled(State(db, map[]), cancel) && Next(State(db, map[]), cancel) == State(db', map[])
  }

  /** The rows an update changed. */
  function ChangedRows(was: seq<Row>, are: seq<Row>): set<nat>
    requires |was| == |are|
  {
    set i: nat | i < |was| && was[i] != are[i]
  }

  /** One more row of a bulk update. */
  lemma ChangedRowsStep(was: seq<Row>, are: seq<Row>, i: nat, r: Row)
    requires |was| == |are| && i < |was| && forall j :: i <= j < |was| ==> are[j] == was[j]
    ensures |ChangedRows(was, are[i := r])| == |ChangedRows(was, are)| + if r != was[i] then 1 else 0
  {
    var before, after := ChangedRows(was, are), ChangedRows(was, are[i := r]);
    assert i !in before;
    assert after == if r != was[i] then before + {i} else before;
  }

  lemma AllWritten(db: Tables, w: StatusWrite, are: seq<Row>)
    requires |are| == |db.rows| && forall j :: 0 <= j < |are| ==> are[j] == Written(w, j, db.rows[j], db.now)
    ensures db.(rows := are) == WriteStatus(db, w)
  {
    assert are == WriteStatus(db, w).rows;
  }

  /** ids are the positions of the new rows. */
  datatype Outcome = Created(ids: seq<nat>) | Refused(reason: Reason)

  class Desk {
    var courts: seq<CourtId>
    var available: set<CourtId>
    var hours: seq<WorkingHours.Row>
    var offset: int
    var rows: seq<Row>
    var holds: seq<Hold>
    var waitlist: seq<Entry>
    var items: map<EquipmentId, Item>
    var now: int

    function Db(): Tables
      reads this
    {
      Tables(courts, available, hours, offset, rows, holds, waitlist, items, now)
    }

    predicate Bookable(court: CourtId)
      reads this
    {
      court in courts && court in available
    }

    /** The checks that come before the blocks and the bookings. */
    ghost predicate InTime(claim: Row, minutes: int, bypassHours: bool)
      requires claim.Reserved?
      reads this
    {
      60 <= minutes <= 720 && minutes % 60 == 0 && Bookable(claim.booking.court) &&
      (bypassHours || OpenForMembers(Db(), claim.booking.start, claim.booking.end))
    }

    method ValidateBookingSlot(claim: Row, minutes: int, bypassHours: bool) returns (error: SlotError)
      requires claim.Reserved? && claim.booking.end == claim.booking.start + minutes * 60000
      ensures error == SlotOk <==> AllPass(Db(), Validation(claim, minutes, bypassHours))
      ensures error == BadDuration <==> !(60 <= minutes <= 720 && minutes % 60 == 0)
      ensures error == CourtNotAvailable <==> 60 <= minutes <= 720 && minutes % 60 == 0 && !Bookable(claim.booking.court)
      ensures error.OutsideHours? <==> (
        60 <= minutes <= 720 && minutes % 60 == 0 && Bookable(claim.booking.court) &&
        !bypassHours && !OpenForMembers(Db(), claim.booking.start, claim.booking.end))
      ensures SlotsNonEmpty(Db()) ==> (error == SlotBlocked <==>
        InTime(claim, minutes, bypassHours) &&
        !FreeOfBlocks(rows, Some(claim.booking.court), claim.booking.start, claim.booking.end))
      ensures SlotsNonEmpty(Db()) ==> (error == SlotTaken <==>
        InTime(claim, minutes, bypassHours) &&
        FreeOfBlocks(rows, Some(claim.booking.court), claim.booking.start, claim.booking.end) &&
        !FreeOfBookings(rows, Some(claim.booking.court), claim.booking.start, claim.booking.end))
      ensures error.OutsideHours? ==> error.why != WorkingHours.WithinHours
    {
      ValidationPasses(Db(), claim, minutes, bypassHours);
      HoursCheckIff(Db(), claim.booking.start, claim.booking.end);
      if SlotsNonEmpty(Db()) && 60 <= minutes { ClearIffFree(rows, claim); }
      if minutes < 60 || minutes > 720 || minutes % 60 != 0 { return BadDuration; }
      if claim.booking.court !in courts || claim.booking.court !in available { return CourtNotAvailable; }
      if !bypassHours {
        var why := WorkingHours.AssertWithinWorkingHours(hours, offset, claim.booking.start, claim.booking.end);
        if why != WorkingHours.WithinHours { return OutsideHours(why); }
      }
      if !ClearOfBlocks(rows, claim) { return SlotBlocked; }
      if !ClearOfBookings(rows, claim) { return SlotTaken; }
      return SlotOk;
    }

    /** The one-unpaid-booking cap; staff are exempt. */
    method CheckCap(req: Request) returns (refusal: Option<Reason>)
      requires req.BookingRequest?
      ensures refusal.None? <==> CapPasses(Db(), req)
      ensures refusal == Some(NotInFuture) <==> req.role == Customer && req.start < now
      ensures refusal == Some(AwaitingPayment) <==>
        req.role == Customer && now <= req.start && exists i :: 0 <= i < |rows| && AwaitsPayment(rows[i], req.customer, now)
      ensures refusal.Some? ==> refusal.value in {NotInFuture, AwaitingPayment}
    {
      CapIff(Db(), req);
      if req.role == Customer {
        if req.start < now { return Some(NotInFuture); }
        if !NoUnpaid(rows, req.customer, now) { return Some(AwaitingPayment); }
      }
      return None;
    }

    /** Only the earliest active hold counts; its owner claims it by presenting its token. */
    method ConsultHolds(claim: Row, role: Role, token: Option<nat>) returns (allowed: bool, claimed: Option<nat>)
      requires claim.Reserved?
      ensures allowed <==> Passes(Db(), now, ReadHolds(claim, role, token))
      ensures claimed.Some? ==> claimed.value < |holds|
      ensures forall txn: Txn :: allowed && txn.began == now ==> claimed == ClaimedBy(Db(), txn, ReadHolds(claim, role, token))
      ensures SlotsNonEmpty(Db()) && RowNonEmpty(claim) ==> (allowed <==> (role == Customer ==>
        NotHeldForOthers(Db(), claim.booking.court, claim.booking.start, claim.booking.end, claim.booking.customer, token)))
      ensures SlotsNonEmpty(Db()) && RowNonEmpty(claim) ==> forall i :: claimed == Some(i) <==>
        allowed && ClaimsHold(Db(), i, claim.booking.court, claim.booking.start, claim.booking.end, claim.booking.customer, token)
    {
      if SlotsNonEmpty(Db()) && RowNonEmpty(claim) {
        HoldsIff(Db(), claim, role, token);
        ClaimsHoldIff(Db(), claim, token);
      }
      var hold := EarliestHold(holds, claim.booking.court, claim.booking.start, claim.booking.end, now);
      claimed := None;
      if hold.Some? {
        var owned := holds[hold.value].user == claim.booking.customer && token == Some(holds[hold.value].token);
        if role == Customer && !owned { return false, None; }
        if owned { claimed := hold; }
      }
      return true, claimed;
    }

    /** Each line, in item order: its stock against all that overlaps the booking. */
    method ResolveEquipment(sorted: seq<Line>, claim: Row) returns (lines: seq<Line>, refusal: Option<Reason>)
      ensures refusal.None? <==> forall j :: 0 <= j < |sorted| ==> Passes(Db(), now, CheckStock(sorted[j], claim))
      ensures SlotsNonEmpty(Db()) && RowNonEmpty(claim) ==> (refusal.None? <==>
        forall j :: 0 <= j < |sorted| ==> InStock(Db(), sorted[j], StartOf(claim), EndOf(claim)))
      ensures refusal.None? ==> lines == sorted
      ensures refusal.Some? ==> refusal.value in {BadQuantity, ItemUnavailable, NotEnoughStock}
    {
      forall j | 0 <= j < |sorted| && SlotsNonEmpty(Db()) && RowNonEmpty(claim)
        ensures Passes(Db(), now, CheckStock(sorted[j], claim)) <==> InStock(Db(), sorted[j], StartOf(claim), EndOf(claim))
      {
        StockCheckIff(Db(), sorted[j], claim);
      }
      lines := [];
      for i := 0 to |sorted|
        invariant lines == sorted[..i]
        invariant forall j :: 0 <= j < i ==> Passes(Db(), now, CheckStock(sorted[j], claim))
      {
        var line := sorted[i];
        if line.quantity <= 0 { return lines, Some(BadQuantity); }
        if line.equipment !in items || !items[line.equipment].active { return lines, Some(ItemUnavailable); }
        var reserved := RentedOver(rows, line.equipment, StartOf(claim), EndOf(claim));
        if line.quantity > items[line.equipment].stock - reserved { return lines, Some(NotEnoughStock); }
        lines := lines + [line];
      }
      return lines, None;
    }

    /** Every check of a booking, in order; nothing is written yet. */
    method CheckBooking(req: Request) returns (refusal: Option<Reason>, claimed: Option<nat>)
      requires req.BookingRequest?
      ensures refusal.None? <==> BookingAccepted(Db(), req)
      ensures refusal.None? ==>
        && claimed == ClaimedBy(Db(), Started(Db(), req), ReadHolds(NewBooking(req, now), req.role, req.token))
        && (claimed.Some? ==> claimed.value < |holds|)
      ensures refusal == Some(CourtNotFound) <==> req.court !in courts
      ensures SlotsNonEmpty(Db()) ==> (refusal.None? <==> MayBook(Db(), req))
    {
      if SlotsNonEmpty(Db()) { MayBookIff(Db(), req); }
      if req.court !in courts { return Some(CourtNotFound), None; }
      refusal := CheckCap(req);
      if refusal.Some? { return refusal, None; }
      var claim := NewBooking(req, now);
      var error := ValidateBookingSlot(claim, req.minutes, req.role != Customer);
      if error != SlotOk { return Some(SlotRefused(error)), None; }
      var allowed;
      allowed, claimed := ConsultHolds(claim, req.role, req.token);
      if !allowed { return Some(HeldForAnother), None; }
      var lines;
      lines, refusal := ResolveEquipment(SortLines(req.lines), claim);
      if refusal.Some? { return refusal, None; }
      if !DistinctItems(lines) { return Some(DuplicateItem), None; }
    }

    method CreateBooking(req: Request) returns (outcome: Outcome)
      requires req.BookingRequest?
      modifies this`rows, this`holds
      ensures Db() == Served(old(Db()), req)
      ensures SlotsNonEmpty(old(Db())) ==> (outcome.Created? <==> MayBook(old(Db()), req))
      ensures outcome.Created? <==> BookingAccepted(old(Db()), req)
      ensures outcome.Created? ==> outcome.ids == [|old(rows)|]
      ensures outcome.Created? ==> |rows| == |old(rows)| + 1 && rows[..|old(rows)|] == old(rows) && BookedAs(rows[|old(rows)|], req, now)
      ensures outcome.Created? && SlotsNonEmpty(old(Db())) ==> HoldsAfterBooking(old(Db()), holds, req, |old(rows)|)
      ensures outcome.Refused? ==> rows == old(rows) && holds == old(holds)
      ensures outcome == Refused(CourtNotFound) <==> req.court !in courts
    {
      ghost var before := Db();
      var refusal, claimed := CheckBooking(req);
      assert Db() == before;
      if refusal.Some? {
        BookingRefused(before, req);
        return Refused(refusal.value);
      }
      var id := InsertBooking(req, claimed);
      return Created([id]);
    }

    /** The writes of a booking that passed: its row, and the hold it consumes. */
    method InsertBooking(req: Request, claimed: Option<nat>) returns (id: nat)
      requires req.BookingRequest? && BookingAccepted(Db(), req)
      requires claimed == ClaimedBy(Db(), Started(Db(), req), ReadHolds(NewBooking(req, now), req.role, req.token))
      requires claimed.Some? ==> claimed.value < |holds|
      modifies this`rows, this`holds
      ensures Db() == Served(old(Db()), req)
      ensures id == |old(rows)| && |rows| == id + 1 && rows[..id] == old(rows) && BookedAs(rows[id], req, now)
      ensures SlotsNonEmpty(old(Db())) ==> HoldsAfterBooking(old(Db()), holds, req, id)
    {
      ghost var before := Db();
      if SlotsNonEmpty(before) {
        MayBookIff(before, req);
        HoldsAfterBookingIff(before, req, claimed);
      }
      rows := rows + [NewBooking(req, now)];
      id := |rows| - 1;
      if claimed.Some? {
        holds := holds[claimed.value := holds[claimed.value].(claimedBy := Some(id))];
      }
      BookingCommitted(before, Db(), req, claimed);
      NewBookingIsAsAsked(req, now);
    }

    method CreateSubscription(req: Request) returns (outcome: Outcome)
      requires req.SubscriptionRequest?
      modifies this`rows
      ensures Db() == Served(old(Db()), req)
      ensures outcome.Created? <==> SubscriptionPasses(old(Db()), req)
      ensures SlotsNonEmpty(old(Db())) ==> (outcome.Created? <==> MaySubscribe(old(Db()), req))
      ensures outcome.Created? ==>
        && |outcome.ids| == 4 * req.months
        && (forall i :: 0 <= i < |outcome.ids| ==> outcome.ids[i] == |old(rows)| + i)
        && |rows| == |old(rows)| + 4 * req.months && rows[..|old(rows)|] == old(rows)
        && forall i :: |old(rows)| <= i < |rows| ==>
             ScheduleHistory.WeeklyBooking(rows[i], req, i - |old(rows)|) &&
             ScheduleHistory.SameLocalTime(rows[i].booking.start, req.start, offset)
      ensures outcome.Refused? ==> rows == old(rows)
      ensures outcome == Refused(BadTerm) <==> req.months != 1 && req.months != 3
      ensures outcome == Refused(NotInFuture) <==> (req.months == 1 || req.months == 3) && req.start < now
      ensures SlotsNonEmpty(old(Db())) && outcome.Refused? && outcome.reason.WeekRefused? ==>
        outcome.reason.week < 4 * req.months && !WeekAllowed(old(Db()), req, outcome.reason.week) &&
        forall j :: 0 <= j < outcome.reason.week ==> WeekAllowed(old(Db()), req, j)
    {
      ghost var before := Db();
      var refusal := CheckSubscription(req);
      assert Db() == before;
      if refusal.Some? {
        SubscriptionRefused(before, req);
        return Refused(refusal.value);
      }
      var ids := InsertWeeks(req);
      assert Db() == before.(rows := before.rows + Claims(req, before.now));
      SubscriptionCommitted(before, Db(), req);
      return Created(ids);
    }

    /** Every check of a subscription, in order; nothing is written yet. */
    method CheckSubscription(req: Request) returns (refusal: Option<Reason>)
      requires req.SubscriptionRequest?
      ensures refusal.None? <==> SubscriptionPasses(Db(), req)
      ensures SlotsNonEmpty(Db()) ==> (refusal.None? <==> MaySubscribe(Db(), req))
      ensures refusal == Some(BadTerm) <==> req.months != 1 && req.months != 3
      ensures refusal == Some(NotInFuture) <==> (req.months == 1 || req.months == 3) && req.start < now
      ensures SlotsNonEmpty(Db()) && refusal.Some? && refusal.value.WeekRefused? ==>
        refusal.value.week < 4 * req.months && !WeekAllowed(Db(), req, refusal.value.week) &&
        forall j :: 0 <= j < refusal.value.week ==> WeekAllowed(Db(), req, j)
    {
      if SlotsNonEmpty(Db()) {
        WeeksIff(Db(), req);
        MaySubscribeIff(Db(), req);
      }
      if req.months != 1 && req.months != 3 { return Some(BadTerm); }
      if req.start < now { return Some(NotInFuture); }
      if req.court !in courts { return Some(CourtNotFound); }
      refusal := ValidateWeeks(req);
    }

    /** The first loop: every week against the tables as they are. */
    method ValidateWeeks(req: Request) returns (refusal: Option<Reason>)
      requires req.SubscriptionRequest?
      ensures refusal.None? <==> forall j :: 0 <= j < 4 * req.months ==> WeekPasses(Db(), req, j)
      ensures refusal.Some? ==> refusal.value.WeekRefused? && refusal.value.week < 4 * req.months
      ensures refusal.Some? ==> !WeekPasses(Db(), req, refusal.value.week)
      ensures refusal.Some? ==> forall j :: 0 <= j < refusal.value.week ==> WeekPasses(Db(), req, j)
    {
      for i := 0 to 4 * req.months
        invariant forall j :: 0 <= j < i ==> WeekPasses(Db(), req, j)
      {
        var error := ValidateBookingSlot(Occurrence(req, i, now), req.minutes, true);
        if error != SlotOk {
          assert !WeekPasses(Db(), req, i);
          return Some(WeekRefused(i, error));
        }
      }
      return None;
    }

    /** The second loop: one confirmed booking a week. */
    method InsertWeeks(req: Request) returns (ids: seq<nat>)
      requires req.SubscriptionRequest?
      modifies this`rows
      ensures rows == old(rows) + Claims(req, now)
      ensures |ids| == 4 * req.months && forall i :: 0 <= i < |ids| ==> ids[i] == |old(rows)| + i
      ensures forall i :: |old(rows)| <= i < |rows| ==>
        ScheduleHistory.WeeklyBooking(rows[i], req, i - |old(rows)|) &&
        ScheduleHistory.SameLocalTime(rows[i].booking.start, req.start, offset)
    {
      ghost var before := rows;
      ScheduleHistory.WeeklyAfter(rows, req, now);
      var occurrences := 4 * req.months;
      ids := [];
      for i := 0 to occurrences
        invariant rows == before + Claims(req, now)[..i]
        invariant |ids| == i && forall j :: 0 <= j < i ==> ids[j] == |before| + j
      {
        assert Claims(req, now)[..i + 1] == Claims(req, now)[..i] + [Occurrence(req, i, now)];
        rows := rows + [Occurrence(req, i, now)];
        ids := ids + [|rows| - 1];
      }
      assert Claims(req, now)[..occurrences] == Claims(req, now);
      forall i | |before| <= i < |rows|
        ensures ScheduleHistory.SameLocalTime(rows[i].booking.start, req.start, offset)
      {
        ScheduleHistory.WeeksKeepLocalTime(req.start, i - |before|, offset);
      }
    }

    method CreateBlockedPeriod(req: Request) returns (outcome: Outcome)
      requires req.BlockRequest?
      modifies this`rows
      ensures Db() == Served(old(Db()), req)
      ensures outcome == Refused(EmptyRange) <==> req.start >= req.end
      ensures outcome.Created? <==> BlockPasses(old(Db()), req)
      ensures SlotsNonEmpty(old(Db())) ==> (outcome.Created? <==> MayBlock(old(Db()), req))
      ensures SlotsNonEmpty(old(Db())) ==> (outcome == Refused(ConflictsWithBooking) <==>
        req.start < req.end && !FreeOfBookings(old(rows), req.scope, req.start, req.end))
      ensures outcome.Created? ==> rows == old(rows) + [Blocked(req.scope, req.start, req.end, false)]
      ensures outcome.Refused? ==> rows == old(rows)
    {
      ServedBlock(Db(), req);
      if SlotsNonEmpty(Db()) && req.start < req.end {
        MayBlockIff(Db(), req);
        ClearIffFree(rows, Blocked(req.scope, req.start, req.end, false));
      }
      if req.start >= req.end { return Refused(EmptyRange); }
      var block := Blocked(req.scope, req.start, req.end, false);
      if !ClearOfBookings(rows, block) { return Refused(ConflictsWithBooking); }
      if !ClearOfBlocks(rows, block) { return Refused(ConflictsWithBlock); }
      rows := rows + [block];
      return Created([|rows| - 1]);
    }

    // ---- Steps of one booking ----

    method CheckInBooking(i: nat) returns (outcome: StepOutcome)
      modifies this`rows
      ensures outcome == NotFound <==> i >= |old(rows)| || !old(rows)[i].Reserved?
      ensures outcome == Stepped <==> i < |old(rows)| && old(rows)[i].Reserved? && old(rows)[i].booking.status == Confirmed
      ensures Db() == if outcome == Stepped then WriteStatus(old(Db()), CheckIn(i)) else old(Db())
      ensures outcome == Stepped ==>
        rows == old(rows)[i := Reserved(old(rows)[i].booking.(status := CheckedIn))]
    {
      if i >= |rows| || !rows[i].Reserved? { return NotFound; }
      if rows[i].booking.status != Confirmed { return WrongStatus; }
      OneRowWritten(Db(), CheckIn(i), i);
      rows := rows[i := Reserved(rows[i].booking.(status := CheckedIn))];
      return Stepped;
    }

    method UploadReceiptFor(i: nat, user: UserId) returns (outcome: StepOutcome)
      modifies this`rows
      ensures outcome == NotFound <==> i >= |old(rows)| || !old(rows)[i].Reserved?
      ensures outcome == Forbidden <==> i < |old(rows)| && old(rows)[i].Reserved? && old(rows)[i].booking.customer != user
      ensures outcome == Stepped <==>
        i < |old(rows)| && old(rows)[i].Reserved? && old(rows)[i].booking.customer == user &&
        old(rows)[i].booking.status in {PendingDeposit, PendingVerification}
      ensures Db() == if outcome == Stepped then WriteStatus(old(Db()), UploadReceipt(i)) else old(Db())
      ensures outcome == Stepped ==>
        rows == old(rows)[i := Reserved(old(rows)[i].booking.(status := PendingVerification))]
    {
      if i >= |rows| || !rows[i].Reserved? { return NotFound; }
      if rows[i].booking.customer != user { return Forbidden; }
      if rows[i].booking.status !in {PendingDeposit, PendingVerification} { return WrongStatus; }
      OneRowWritten(Db(), UploadReceipt(i), i);
      rows := rows[i := Reserved(rows[i].booking.(status := PendingVerification))];
      return Stepped;
    }

    /** A rejected deposit leaves the booking where it is, so only approval writes. */
    method ApproveDepositOf(i: nat) returns (outcome: StepOutcome)
      modifies this`rows
      ensures outcome == NotFound <==> i >= |old(rows)| || !old(rows)[i].Reserved?
      ensures outcome == Stepped <==> i < |old(rows)| && old(rows)[i].Reserved? && old(rows)[i].booking.status == PendingVerification
      ensures Db() == if outcome == Stepped then WriteStatus(old(Db()), ApproveDeposit(i)) else old(Db())
      ensures outcome == Stepped ==>
        rows == old(rows)[i := Reserved(old(rows)[i].booking.(status := Confirmed))]
    {
      if i >= |rows| || !rows[i].Reserved? { return NotFound; }
      if rows[i].booking.status != PendingVerification { return WrongStatus; }
      OneRowWritten(Db(), ApproveDeposit(i), i);
      rows := rows[i := Reserved(rows[i].booking.(status := Confirmed))];
      return Stepped;
    }

    method DeleteBooking(i: nat, hasRefunds: bool) returns (outcome: StepOutcome)
      modifies this`rows
      ensures outcome == NotFound <==> i >= |old(rows)| || !old(rows)[i].Reserved? || old(rows)[i].booking.deleted
      ensures outcome == HasRefunds <==> hasRefunds && i < |old(rows)| && old(rows)[i].Reserved? && !old(rows)[i].booking.deleted
      ensures Db() == if outcome == Stepped then WriteStatus(old(Db()), Delete(i)) else old(Db())
      ensures outcome == Stepped ==>
        rows == old(rows)[i := Reserved(old(rows)[i].booking.(status := Cancelled, deleted := true))]
    {
      if i >= |rows| || !rows[i].Reserved? || rows[i].booking.deleted { return NotFound; }
      if hasRefunds { return HasRefunds; }
      OneRowWritten(Db(), Delete(i), i);
      rows := rows[i := Reserved(rows[i].booking.(status := Cancelled, deleted := true))];
      return Stepped;
    }

    /** Frees the slot; an upcoming prime-time slot is held for the earliest matching waitlist entry. */
    method CancelBookingAt(i: nat, actor: Actor, token: nat, holdUntil: int) returns (outcome: StepOutcome)
      modifies this`rows, this`holds, this`waitlist
      ensures outcome == NotFound <==> i >= |old(rows)| || !old(rows)[i].Reserved? || old(rows)[i].booking.deleted
      ensures outcome == Forbidden <==>
        i < |old(rows)| && old(rows)[i].Reserved? && !old(rows)[i].booking.deleted &&
        (actor == Coach || (actor.CustomerSelf? && actor.user != old(rows)[i].booking.customer))
      ensures outcome == WrongStatus <==>
        i < |old(rows)| && old(rows)[i].Reserved? && !old(rows)[i].booking.deleted &&
        (actor == Staff || actor == CustomerSelf(old(rows)[i].booking.customer)) &&
        old(rows)[i].booking.status in {Cancelled, Completed, NoShow, Expired}
      ensures outcome != Stepped ==> Db() == old(Db())
      ensures outcome == Stepped ==> rows == old(rows)[i := Reserved(old(rows)[i].booking.(status := Cancelled))]
      ensures outcome == Stepped ==>
        var b := old(rows)[i].booking;
        if WorkingHours.IsPrimeTime(b.start, offset) && b.start > now &&
           exists j :: 0 <= j < |old(waitlist)| && EntryMatches(old(waitlist)[j], b) then
          exists j :: 0 <= j < |old(waitlist)| && EntryMatches(old(waitlist)[j], b) &&
            (forall k :: 0 <= k < j ==> !EntryMatches(old(waitlist)[k], b)) &&
            Db() == Cancel(old(Db()), i, Some(j), token, holdUntil)
        else Db() == Cancel(old(Db()), i, None, token, holdUntil)
      ensures outcome == Stepped ==> exists offer :: IsCancelStep(old(Db()), Db(), i, offer, token, holdUntil)
      ensures outcome == Stepped && SlotsNonEmpty(old(Db())) ==>
        SlotRouted(old(Db()), old(rows)[i].booking, holds, waitlist, token, holdUntil)
    {
      if i >= |rows| || !rows[i].Reserved? || rows[i].booking.deleted { return NotFound; }
      var b := rows[i].booking;
      if actor.CustomerSelf? && actor.user != b.customer { return Forbidden; }
      if actor.Coach? { return Forbidden; }
      if b.status in {Cancelled, Completed, NoShow, Expired} { return WrongStatus; }
      ghost var before := Db();
      RoutedIff(before, i);
      rows := rows[i := Reserved(b.(status := Cancelled))];
      if b.start > now && WorkingHours.IsPrimeTime(b.start, offset) {
        var j := 0;
        while j < |waitlist| && !EntryMatches(waitlist[j], b)
          invariant 0 <= j <= |waitlist|
          invariant forall k :: 0 <= k < j ==> !EntryMatches(waitlist[k], b)
        {
          j := j + 1;
        }
        if j < |waitlist| {
          assert SlotsNonEmpty(before) ==> FirstWaiting(before.waitlist, j, b);
          holds := holds + [Hold(b.court, waitlist[j].user, b.start, b.end, token, holdUntil, None, j)];
          waitlist := waitlist[j := waitlist[j].(fulfilled := true)];
          assert IsCancelStep(before, Db(), i, Some(j), token, holdUntil);
          return Stepped;
        }
      }
      assert IsCancelStep(before, Db(), i, None, token, holdUntil);
      return Stepped;
    }

    // ---- The scheduled jobs: one sweep over the club's bookings ----

    /** One bulk update; it returns how many rows it changed. */
    method Sweep(w: StatusWrite) returns (changed: nat)
      modifies this`rows
      ensures Db() == WriteStatus(old(Db()), w)
      ensures |rows| == |old(rows)| && changed == |ChangedRows(old(rows), rows)|
    {
      changed := 0;
      ghost var before := rows;
      for i := 0 to |rows|
        invariant |rows| == |before|
        invariant forall j :: 0 <= j < i ==> rows[j] == Written(w, j, before[j], now)
        invariant forall j :: i <= j < |rows| ==> rows[j] == before[j]
        invariant changed == |ChangedRows(before, rows)|
      {
        var row := Written(w, i, rows[i], now);
        ChangedRowsStep(before, rows, i, row);
        if row != rows[i] { changed := changed + 1; }
        rows := rows[i := row];
      }
      AllWritten(old(Db()), w, rows);
    }

    /** Expires exactly the bookings whose payment is overdue. */
    method RunExpirePendingJob(windowMinutes: nat) returns (expired: nat)
      modifies this`rows
      ensures Db() == WriteStatus(old(Db()), ExpirePending(windowMinutes))
      ensures |rows| == |old(rows)| && forall i :: 0 <= i < |rows| ==> (rows[i] ==
        if PaymentOverdue(old(rows)[i], windowMinutes, now) then InStatus(old(rows)[i], Expired) else old(rows)[i])
      ensures expired == |set i: nat | i < |old(rows)| && PaymentOverdue(old(rows)[i], windowMinutes, now)|
    {
      ghost var before := rows;
      BulkRules(before, windowMinutes, 0, now);
      expired := Sweep(ExpirePending(windowMinutes));
      assert ChangedRows(before, rows) == set i: nat | i < |before| && PaymentOverdue(before[i], windowMinutes, now);
    }

    /** Drafts first, then the safety sweep over unpaid bookings. */
    method RunExpireStalledBookingsJob(draftMinutes: nat, windowMinutes: nat) returns (drafts: nat, unpaid: nat)
      modifies this`rows
      ensures Db() == WriteStatus(WriteStatus(old(Db()), ExpireDrafts(draftMinutes)), ExpirePending(windowMinutes))
      ensures |rows| == |old(rows)| && forall i :: 0 <= i < |rows| ==> (rows[i] ==
        if DraftAbandoned(old(rows)[i], draftMinutes, now) || PaymentOverdue(old(rows)[i], windowMinutes, now)
        then InStatus(old(rows)[i], Expired) else old(rows)[i])
      ensures drafts == |set i: nat | i < |old(rows)| && DraftAbandoned(old(rows)[i], draftMinutes, now)|
      ensures unpaid == |set i: nat | i < |old(rows)| && PaymentOverdue(old(rows)[i], windowMinutes, now)|
    {
      ghost var before := rows;
      BulkRules(before, draftMinutes, 0, now);
      drafts := Sweep(ExpireDrafts(draftMinutes));
      assert ChangedRows(before, rows) == set i: nat | i < |before| && DraftAbandoned(before[i], draftMinutes, now);
      ghost var between := rows;
      unpaid := RunExpirePendingJob(windowMinutes);
      assert (set i: nat | i < |between| && PaymentOverdue(between[i], windowMinutes, now)) ==
        set i: nat | i < |before| && PaymentOverdue(before[i], windowMinutes, now);
    }

    /** Marks exactly the confirmed bookings whose grace has run out. */
    method RunNoShowJob(graceMinutes: nat) returns (marked: nat)
      modifies this`rows
      ensures Db() == WriteStatus(old(Db()), MarkNoShows(graceMinutes))
      ensures |rows| == |old(rows)| && forall i :: 0 <= i < |rows| ==> (rows[i] ==
        if NobodyCame(old(rows)[i], graceMinutes, now) then InStatus(old(rows)[i], NoShow) else old(rows)[i])
      ensures marked == |set i: nat | i < |old(rows)| && NobodyCame(old(rows)[i], graceMinutes, now)|
    {
      ghost var before := rows;
      BulkRules(before, graceMinutes, 0, now);
      marked := Sweep(MarkNoShows(graceMinutes));
      assert ChangedRows(before, rows) == set i: nat | i < |before| && NobodyCame(before[i], graceMinutes, now);
    }

    /** The second statement of revokeSubscription: cancels exactly the sessions that have not begun. */
    method CancelSessions(subscription: nat) returns (cancelled: nat)
      modifies this`rows
      ensures Db() == WriteStatus(old(Db()), RevokeSubscription(subscription))
      ensures |rows| == |old(rows)| && forall i :: 0 <= i < |rows| ==> (rows[i] ==
        if UpcomingSession(old(rows)[i], subscription, now) then InStatus(old(rows)[i], Cancelled) else old(rows)[i])
      ensures cancelled == |set i: nat | i < |old(rows)| && UpcomingSession(old(rows)[i], subscription, now)|
    {
      ghost var before := rows;
      BulkRules(before, 0, subscription, now);
      cancelled := Sweep(RevokeSubscription(subscription));
      assert ChangedRows(before, rows) == set i: nat | i < |before| && UpcomingSession(before[i], subscription, now);
    }
  }
}
