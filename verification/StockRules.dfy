// The stock check as a plain count: what the overlapping bookings rent, line by line, whatever order the lines are
// checked in.

module StockRules {
  import opened Options
  import opened BookingStatus
  import opened Schedule
  import opened Interleaving
  import opened SlotRules
  import opened Sums

  // ---- What is asked for and what is out ----

  function QuantityAt(lines: seq<Line>, e: EquipmentId, j: int): int {
    if 0 <= j < |lines| && lines[j].equipment == e then lines[j].quantity else 0
  }

  /** How many of item e the lines ask for. */
  function Asked(lines: seq<Line>, e: EquipmentId): int {
    Sum(|lines|, j => QuantityAt(lines, e, j))
  }

  ghost function OutThen(rows: seq<Row>, e: EquipmentId, start: int, end: int, i: int): int {
    if 0 <= i < |rows| && BookingInTheWay(rows[i], None, start, end) then Asked(rows[i].booking.lines, e) else 0
  }

  /** How many of item e are rented out by bookings with an instant in the range. */
  ghost function Out(rows: seq<Row>, e: EquipmentId, start: int, end: int): int {
    Sum(|rows|, i => OutThen(rows, e, start, end, i))
  }

  lemma {:induction false} QuantityIsAsked(lines: seq<Line>, e: EquipmentId)
    ensures QuantityOf(lines, e) == Asked(lines, e)
    decreases |lines|
  {
    if lines != [] {
      var f, g := j => QuantityAt(lines, e, j), j => QuantityAt(lines[1..], e, j);
      QuantityIsAsked(lines[1..], e);
      SumFromFront(|lines|, f);
      SameSum(|lines| - 1, j => f(j + 1), g);
    }
  }

  lemma {:induction false} RentedIsOut(rows: seq<Row>, e: EquipmentId, start: int, end: int)
    requires start < end && forall i :: 0 <= i < |rows| ==> RowNonEmpty(rows[i])
    ensures RentedOver(rows, e, start, end) == Out(rows, e, start, end)
    decreases |rows|
  {
    if rows != [] {
      var n := |rows| - 1;
      RentedIsOut(rows[..n], e, start, end);
      SameSum(n, i => OutThen(rows, e, start, end, i), i => OutThen(rows[..n], e, start, end, i));
      LastRowOut(rows[n], e, start, end);
    }
  }

  lemma LastRowOut(r: Row, e: EquipmentId, start: int, end: int)
    requires start < end && RowNonEmpty(r)
    ensures (if Overlap(StartOf(r), EndOf(r), start, end) then Rented(r, e) else 0) ==
      if BookingInTheWay(r, None, start, end) then Asked(r.booking.lines, e) else 0
  {
    OverlapIffInstantShared(StartOf(r), EndOf(r), start, end);
    OverlapIffInstantShared(start, end, StartOf(r), EndOf(r));
    if r.Reserved? { QuantityIsAsked(r.booking.lines, e); }
  }

  /** The item is rented out by the club, and enough of it is left over the range. */
  ghost predicate InStock(db: Tables, line: Line, start: int, end: int) {
    && line.quantity > 0
    && line.equipment in db.items && db.items[line.equipment].active
    && line.quantity + Out(db.rows, line.equipment, start, end) <= db.items[line.equipment].stock
  }

  lemma StockCheckIff(db: Tables, line: Line, claim: Row)
    requires SlotsNonEmpty(db) && RowNonEmpty(claim)
    ensures Passes(db, db.now, CheckStock(line, claim)) <==> InStock(db, line, StartOf(claim), EndOf(claim))
  {
    RentedIsOut(db.rows, line.equipment, StartOf(claim), EndOf(claim));
  }

  // ---- Every line, in whatever order ----

  predicate NamesItem(lines: seq<Line>, e: EquipmentId) {
    exists j :: 0 <= j < |lines| && lines[j].equipment == e
  }

  lemma {:induction false} InsertedLine(line: Line, sorted: seq<Line>)
    ensures forall l :: l in InsertLine(line, sorted) <==> l == line || l in sorted
    ensures forall e :: NamesItem(InsertLine(line, sorted), e) <==> e == line.equipment || NamesItem(sorted, e)
    ensures DistinctItems(InsertLine(line, sorted)) <==> DistinctItems(sorted) && !NamesItem(sorted, line.equipment)
    decreases |sorted|
  {
    if sorted == [] || line.equipment < sorted[0].equipment {
      PrependedLine(line, sorted);
    } else {
      InsertedLine(line, sorted[1..]);
      PrependedLine(sorted[0], InsertLine(line, sorted[1..]));
      PrependedLine(sorted[0], sorted[1..]);
      assert sorted == [sorted[0]] + sorted[1..];
    }
  }

  lemma PrependedNames(line: Line, lines: seq<Line>, e: EquipmentId)
    ensures NamesItem([line] + lines, e) <==> e == line.equipment || NamesItem(lines, e)
  {
    var all := [line] + lines;
    assert all[0] == line;
    if j :| 0 <= j < |lines| && lines[j].equipment == e { assert all[j + 1] == lines[j]; }
    if j :| 0 < j < |all| && all[j].equipment == e { assert all[j] == lines[j - 1]; }
  }

  lemma PrependedDistinct(line: Line, lines: seq<Line>)
    ensures DistinctItems([line] + lines) <==> DistinctItems(lines) && !NamesItem(lines, line.equipment)
  {
    var all := [line] + lines;
    assert all[0] == line;
    if DistinctItems(all) {
      forall i, j | 0 <= i < j < |lines|
        ensures lines[i].equipment != lines[j].equipment
      {
        assert all[i + 1] == lines[i] && all[j + 1] == lines[j];
      }
      forall j | 0 <= j < |lines|
        ensures lines[j].equipment != line.equipment
      {
        assert all[j + 1] == lines[j];
      }
    }
    if DistinctItems(lines) && !NamesItem(lines, line.equipment) {
      forall i, j | 0 <= i < j < |all|
        ensures all[i].equipment != all[j].equipment
      {
        assert all[j] == lines[j - 1] && (i > 0 ==> all[i] == lines[i - 1]);
      }
    }
  }

  lemma PrependedLine(line: Line, lines: seq<Line>)
    ensures forall e :: NamesItem([line] + lines, e) <==> e == line.equipment || NamesItem(lines, e)
    ensures DistinctItems([line] + lines) <==> DistinctItems(lines) && !NamesItem(lines, line.equipment)
    ensures forall l :: l in [line] + lines <==> l == line || l in lines
  {
    PrependedDistinct(line, lines);
    forall e
      ensures NamesItem([line] + lines, e) <==> e == line.equipment || NamesItem(lines, e)
    {
      PrependedNames(line, lines, e);
    }
  }

  lemma AppendedNames(lines: seq<Line>, line: Line, e: EquipmentId)
    ensures NamesItem(lines + [line], e) <==> e == line.equipment || NamesItem(lines, e)
  {
    var all := lines + [line];
    assert all[|lines|] == line;
    if j :| 0 <= j < |lines| && lines[j].equipment == e { assert all[j] == lines[j]; }
  }

  lemma AppendedDistinct(lines: seq<Line>, line: Line)
    ensures DistinctItems(lines + [line]) <==> DistinctItems(lines) && !NamesItem(lines, line.equipment)
  {
    var all := lines + [line];
    assert all[|lines|] == line;
    if DistinctItems(all) {
      forall i, j | 0 <= i < j < |lines|
        ensures lines[i].equipment != lines[j].equipment
      {
        assert all[i] == lines[i] && all[j] == lines[j];
      }
      forall j | 0 <= j < |lines|
        ensures lines[j].equipment != line.equipment
      {
        assert all[j] == lines[j];
      }
    }
  }

  /** Sorting keeps the lines, and with them which items are named and whether one is named twice. */
  lemma {:induction false} SortingKeepsLines(lines: seq<Line>)
    ensures forall l :: l in SortLines(lines) <==> l in lines
    ensures forall e :: NamesItem(SortLines(lines), e) <==> NamesItem(lines, e)
    ensures DistinctItems(SortLines(lines)) <==> DistinctItems(lines)
    decreases |lines|
  {
    if lines != [] {
      var rest, last := lines[..|lines| - 1], lines[|lines| - 1];
      SortingKeepsLines(rest);
      InsertedLine(last, SortLines(rest));
      AppendedDistinct(rest, last);
      assert lines == rest + [last];
      forall e
        ensures NamesItem(lines, e) <==> e == last.equipment || NamesItem(rest, e)
      {
        AppendedNames(rest, last, e);
      }
    }
  }
}
