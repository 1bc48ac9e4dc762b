// How the schedule's invariants respond to the two kinds of change: rows that give something up
// (status writes, removals, time passing) and rows that are appended (commits).

module RowLemmas {
  import opened BookingStatus
  import opened Schedule

  // ---- Giving up ----

  /** r' is r after some status write: same slot, same owner, same lines; it may only have lost its hold on the court. */
  predicate GivesUp(r: Row, r': Row) {
    if r.Reserved? then
      && r'.Reserved?
      && r'.booking == r.booking.(status := r'.booking.status, deleted := r'.booking.deleted)
      && (LiveBooking(r') ==> LiveBooking(r))
      && (!r'.booking.deleted && r'.booking.status == PendingDeposit ==> !r.booking.deleted && r.booking.status == PendingDeposit)
      && (r.booking.deleted ==> r'.booking.deleted)
      && ((r.booking.deleted ==> r.booking.status == Cancelled) ==> r'.booking.deleted ==> r'.booking.status == Cancelled)
    else
      r'.Blocked? && r' == r.(removed := r'.removed) && (LiveBlock(r') ==> LiveBlock(r))
  }

  predicate Relaxed(rows: seq<Row>, rows': seq<Row>) {
    |rows'| == |rows| && forall i :: 0 <= i < |rows| ==> GivesUp(rows[i], rows'[i])
  }

  lemma StatusWriteGivesUp(w: StatusWrite, i: nat, r: Row, now: int)
    ensures GivesUp(r, Written(w, i, r, now))
  {
  }

  lemma WriteStatusRelaxes(db: Tables, w: StatusWrite)
    ensures Relaxed(db.rows, WriteStatus(db, w).rows)
  {
    forall i | 0 <= i < |db.rows|
      ensures GivesUp(db.rows[i], WriteStatus(db, w).rows[i])
    {
      StatusWriteGivesUp(w, i, db.rows[i], db.now);
    }
  }

  lemma RelaxedStaysClear(rows: seq<Row>, rows': seq<Row>, r: Row)
    requires Relaxed(rows, rows')
    ensures ClearOfBookings(rows, r) ==> ClearOfBookings(rows', r)
    ensures ClearOfBlocks(rows, r) ==> ClearOfBlocks(rows', r)
  {
    forall i | 0 <= i < |rows'| && Live(rows'[i])
      ensures Live(rows[i]) && (LiveBooking(rows'[i]) <==> LiveBooking(rows[i])) && (Conflict(rows'[i], r) <==> Conflict(rows[i], r))
    {
      assert GivesUp(rows[i], rows'[i]);
    }
  }

  lemma RelaxedStaysDisjoint(rows: seq<Row>, rows': seq<Row>)
    requires Relaxed(rows, rows') && Disjoint(rows)
    ensures Disjoint(rows')
  {
    forall i, j | 0 <= i < j < |rows'| && Live(rows'[i]) && Live(rows'[j])
      ensures !Conflict(rows'[i], rows'[j])
    {
      assert GivesUp(rows[i], rows'[i]) && GivesUp(rows[j], rows'[j]);
      assert !Conflict(rows[i], rows[j]);
    }
  }

  lemma QuantityNonNegative(lines: seq<Line>, e: EquipmentId)
    requires forall j :: 0 <= j < |lines| ==> lines[j].quantity > 0
    ensures QuantityOf(lines, e) >= 0
  {
  }

  predicate PositiveRow(r: Row) {
    r.Reserved? ==> forall j :: 0 <= j < |r.booking.lines| ==> r.booking.lines[j].quantity > 0
  }

  predicate Positive(rows: seq<Row>) {
    forall i :: 0 <= i < |rows| ==> PositiveRow(rows[i])
  }

  lemma RentedNonNegative(r: Row, e: EquipmentId)
    requires PositiveRow(r)
    ensures Rented(r, e) >= 0
  {
    if r.Reserved? { QuantityNonNegative(r.booking.lines, e); }
  }

  lemma {:induction false} RelaxedRentsNoMore(rows: seq<Row>, rows': seq<Row>, e: EquipmentId, start: int, end: int, t: int)
    requires Relaxed(rows, rows') && Positive(rows)
    ensures RentedOver(rows', e, start, end) <= RentedOver(rows, e, start, end)
    ensures RentedAt(rows', e, t) <= RentedAt(rows, e, t)
    decreases |rows|
  {
    if rows != [] {
      var n := |rows| - 1;
      RelaxedRentsNoMore(rows[..n], rows'[..n], e, start, end, t);
      assert GivesUp(rows[n], rows'[n]) && PositiveRow(rows[n]);
      RentedNonNegative(rows[n], e);
    }
  }

  /** The window sum the stock check uses bounds what is out at any instant of the window. */
  lemma {:induction false} WindowSumBoundsInstant(rows: seq<Row>, e: EquipmentId, start: int, end: int, t: int)
    requires Positive(rows) && start <= t < end
    ensures 0 <= RentedAt(rows, e, t) <= RentedOver(rows, e, start, end)
    decreases |rows|
  {
    if rows != [] {
      var n := |rows| - 1;
      WindowSumBoundsInstant(rows[..n], e, start, end, t);
      assert PositiveRow(rows[n]);
      RentedNonNegative(rows[n], e);
    }
  }

  // ---- Appending ----

  lemma {:induction false} RentedOverAppend(rows: seq<Row>, more: seq<Row>, e: EquipmentId, start: int, end: int)
    ensures RentedOver(rows + more, e, start, end) == RentedOver(rows, e, start, end) + RentedOver(more, e, start, end)
    decreases |more|
  {
    if more == [] {
      assert rows + more == rows;
    } else {
      var n := |more| - 1;
      assert (rows + more)[..|rows| + n] == rows + more[..n];
      RentedOverAppend(rows, more[..n], e, start, end);
    }
  }

  lemma {:induction false} RentedAtAppend(rows: seq<Row>, more: seq<Row>, e: EquipmentId, t: int)
    ensures RentedAt(rows + more, e, t) == RentedAt(rows, e, t) + RentedAt(more, e, t)
    decreases |more|
  {
    if more == [] {
      assert rows + more == rows;
    } else {
      var n := |more| - 1;
      assert (rows + more)[..|rows| + n] == rows + more[..n];
      RentedAtAppend(rows, more[..n], e, t);
    }
  }

  /** Rows without lines for an item rent none of it. */
  lemma {:induction false} NoLinesNoRent(rows: seq<Row>, e: EquipmentId, start: int, end: int, t: int)
    requires forall i :: 0 <= i < |rows| ==> Rented(rows[i], e) == 0
    ensures RentedOver(rows, e, start, end) == 0 && RentedAt(rows, e, t) == 0
    decreases |rows|
  {
    if rows != [] { NoLinesNoRent(rows[..|rows| - 1], e, start, end, t); }
  }

  lemma {:induction false} QuantityOfAbsent(lines: seq<Line>, e: EquipmentId)
    requires forall j :: 0 <= j < |lines| ==> lines[j].equipment != e
    ensures QuantityOf(lines, e) == 0
  {
    if lines != [] { QuantityOfAbsent(lines[1..], e); }
  }

  /** With one line per item, the total for an item is that line's quantity. */
  lemma {:induction false} QuantityOfDistinct(lines: seq<Line>, j: nat)
    requires DistinctItems(lines) && j < |lines|
    ensures QuantityOf(lines, lines[j].equipment) == lines[j].quantity
  {
    if j == 0 {
      QuantityOfAbsent(lines[1..], lines[0].equipment);
    } else {
      assert lines[j] == lines[1..][j - 1];
      QuantityOfDistinct(lines[1..], j - 1);
    }
  }
}
