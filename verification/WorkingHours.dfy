// The working-hours gate of the booking validator. Instants are milliseconds since the epoch; the club's
// zone is a constant offset from UTC. A weekly table repeats forever; three calendar days are consulted.

module WorkingHours {
  import opened Options
  import opened Instants

  const MINUTES_PER_DAY := 1440
  const DAY_MS := MINUTES_PER_DAY * MINUTE_MS

  /** A stored time of day; the column's range is 00:00:00 to 24:00:00. */
  datatype RawTime = Time(hours: nat, minutes: nat, seconds: nat)
  type TimeOfDay = t: RawTime | t.minutes < 60 && t.hours <= 24 && (t.hours == 24 ==> t.minutes == 0)
    witness Time(0, 0, 0)

  datatype Row = Row(dayOfWeek: nat, openTime: TimeOfDay, closeTime: TimeOfDay, isClosed: bool)

  /** A half-open interval [open, close) of instants. */
  datatype Interval = Interval(open: int, close: int) {
    predicate Has(t: int) { open <= t < close }
  }

  datatype Outcome = WithinHours | NotConfigured | ClosedThatDay | OutsideHours

  // ---- The specification: the weekly table, repeated forever ----

  function TimeToMinutes(time: TimeOfDay): (m: nat)
    ensures m <= MINUTES_PER_DAY
  {
    time.hours * 60 + time.minutes
  }

  /** The local calendar day an instant falls on, counted from 1 January 1970. */
  function CalendarDay(t: int, offset: int): int {
    (t + offset) / DAY_MS
  }

  /** Day 0 was a Thursday; Sunday is 0. */
  function DayOfWeek(day: int): int {
    (day + 4) % 7
  }

  /** The row in force for each weekday; a later row replaces an earlier one. */
  function ByDay(rows: seq<Row>): map<int, Row> {
    if rows == [] then map[] else
      var last := rows[|rows| - 1];
      ByDay(rows[..|rows| - 1])[last.dayOfWeek := last]
  }

  /** The opening window that starts on the given calendar day. */
  function ResolveDayWindow(day: int, offset: int, wh: Row): Option<Interval> {
    if wh.isClosed then None else
      var openMin := TimeToMinutes(wh.openTime);
      var rawClose := TimeToMinutes(wh.closeTime);
      var closeMin := if rawClose == MINUTES_PER_DAY - 1 then MINUTES_PER_DAY else rawClose;
      var endMin :=
        if openMin == rawClose then openMin + MINUTES_PER_DAY
        else if closeMin <= openMin then closeMin + MINUTES_PER_DAY
        else closeMin;
      var midnight := day * DAY_MS - offset;
      Some(Interval(midnight + openMin * MINUTE_MS, midnight + endMin * MINUTE_MS))
  }

  function WindowOf(table: map<int, Row>, day: int, offset: int): Option<Interval> {
    if DayOfWeek(day) in table then ResolveDayWindow(day, offset, table[DayOfWeek(day)]) else None
  }

  predicate InWindow(table: map<int, Row>, day: int, offset: int, t: int) {
    var w := WindowOf(table, day, offset);
    w.Some? && w.value.Has(t)
  }

  /** The club is open at instant t: some day of the endless week has a window over it. */
  ghost predicate OpenAt(rows: seq<Row>, offset: int, t: int) {
    exists day: int :: InWindow(ByDay(rows), day, offset, t)
  }

  ghost predicate OpenThroughout(rows: seq<Row>, offset: int, start: int, end: int) {
    forall t :: start <= t < end ==> OpenAt(rows, offset, t)
  }

  // ---- Merging intervals ----

  ghost predicate Covered(ivs: seq<Interval>, t: int) {
    exists iv :: iv in ivs && iv.Has(t)
  }

  predicate OpensSorted(ivs: seq<Interval>) {
    forall i, j :: 0 <= i < j < |ivs| ==> ivs[i].open <= ivs[j].open
  }

  /** In order, and no two even touch. */
  predicate Separated(ivs: seq<Interval>) {
    forall i, j :: 0 <= i < j < |ivs| ==> ivs[i].open <= ivs[j].open && ivs[i].close < ivs[j].open
  }

  function Insert(iv: Interval, sorted: seq<Interval>): (r: seq<Interval>)
    ensures multiset(r) == multiset(sorted) + multiset{iv}
  {
    if sorted == [] then [iv]
    else if iv.open < sorted[0].open then [iv] + sorted
    else
      assert sorted == [sorted[0]] + sorted[1..];
      [sorted[0]] + Insert(iv, sorted[1..])
  }

  lemma PrependSorted(iv: Interval, sorted: seq<Interval>)
    requires OpensSorted(sorted) && (sorted == [] || iv.open <= sorted[0].open)
    ensures OpensSorted([iv] + sorted)
  {
    assert forall j :: 0 <= j < |sorted| ==> sorted[0].open <= sorted[j].open;
  }

  lemma {:induction false} InsertSorts(iv: Interval, sorted: seq<Interval>)
    requires OpensSorted(sorted)
    ensures OpensSorted(Insert(iv, sorted))
    ensures Insert(iv, sorted)[0].open == if sorted == [] || iv.open < sorted[0].open then iv.open else sorted[0].open
  {
    if sorted == [] || iv.open < sorted[0].open {
      PrependSorted(iv, sorted);
    } else {
      InsertSorts(iv, sorted[1..]);
      PrependSorted(sorted[0], Insert(iv, sorted[1..]));
    }
  }

  /** The library's stable sort by opening instant. */
  function SortByOpen(ivs: seq<Interval>): (r: seq<Interval>)
    ensures OpensSorted(r) && multiset(r) == multiset(ivs)
  {
    if ivs == [] then [] else
      assert ivs == ivs[..|ivs| - 1] + [ivs[|ivs| - 1]];
      var rest := SortByOpen(ivs[..|ivs| - 1]);
      InsertSorts(ivs[|ivs| - 1], rest);
      Insert(ivs[|ivs| - 1], rest)
  }

  lemma SameMembersSameCover(a: seq<Interval>, b: seq<Interval>, t: int)
    requires multiset(a) == multiset(b)
    ensures Covered(a, t) <==> Covered(b, t)
  {
    forall iv
      ensures iv in a <==> iv in b
    {
      assert iv in a <==> iv in multiset(a);
      assert iv in b <==> iv in multiset(b);
    }
  }

  lemma CoverOfAppend(ivs: seq<Interval>, iv: Interval, t: int)
    ensures Covered(ivs + [iv], t) <==> Covered(ivs, t) || iv.Has(t)
  {
    assert iv in ivs + [iv];
  }

  /** The next interval either stretches the last one or starts a new one. */
  function Absorb(merged: seq<Interval>, next: Interval): seq<Interval>
    requires |merged| >= 1
  {
    var last := merged[|merged| - 1];
    if next.open <= last.close then
      merged[..|merged| - 1] + [Interval(last.open, if last.close < next.close then next.close else last.close)]
    else merged + [next]
  }

  lemma AbsorbSeparates(merged: seq<Interval>, next: Interval)
    requires |merged| >= 1 && Separated(merged) && merged[|merged| - 1].open <= next.open
    ensures Separated(Absorb(merged, next))
    ensures Absorb(merged, next)[|Absorb(merged, next)| - 1].open <= next.open
  {
  }

  lemma AbsorbCovers(merged: seq<Interval>, next: Interval, t: int)
    requires |merged| >= 1 && merged[|merged| - 1].open <= next.open
    ensures Covered(Absorb(merged, next), t) <==> Covered(merged, t) || next.Has(t)
  {
    var before, last := merged[..|merged| - 1], merged[|merged| - 1];
    assert merged == before + [last];
    CoverOfAppend(before, last, t);
    if next.open <= last.close {
      CoverOfAppend(before, Interval(last.open, if last.close < next.close then next.close else last.close), t);
    } else {
      CoverOfAppend(merged, next, t);
    }
  }

  ghost predicate SameCover(a: seq<Interval>, b: seq<Interval>) {
    forall t :: Covered(a, t) <==> Covered(b, t)
  }

  /** The loop's claim: merged is separated and covers what the first i intervals cover. */
  ghost predicate MergedUpTo(merged: seq<Interval>, sorted: seq<Interval>, i: nat) {
    1 <= i <= |sorted| && |merged| >= 1 && Separated(merged) &&
    merged[|merged| - 1].open <= sorted[i - 1].open && SameCover(merged, sorted[..i])
  }

  lemma AbsorbKeepsCover(merged: seq<Interval>, sorted: seq<Interval>, i: nat)
    requires MergedUpTo(merged, sorted, i) && i < |sorted| && OpensSorted(sorted)
    ensures SameCover(Absorb(merged, sorted[i]), sorted[..i + 1])
  {
    forall t
      ensures Covered(Absorb(merged, sorted[i]), t) <==> Covered(sorted[..i + 1], t)
    {
      assert sorted[..i + 1] == sorted[..i] + [sorted[i]];
      CoverOfAppend(sorted[..i], sorted[i], t);
      AbsorbCovers(merged, sorted[i], t);
    }
  }

  lemma AbsorbOneMore(merged: seq<Interval>, sorted: seq<Interval>, i: nat)
    requires MergedUpTo(merged, sorted, i) && i < |sorted| && OpensSorted(sorted)
    ensures MergedUpTo(Absorb(merged, sorted[i]), sorted, i + 1)
  {
    AbsorbSeparates(merged, sorted[i]);
    AbsorbKeepsCover(merged, sorted, i);
  }

  lemma SortingKeepsCover(intervals: seq<Interval>, merged: seq<Interval>)
    requires SameCover(merged, SortByOpen(intervals))
    ensures SameCover(merged, intervals)
  {
    forall t
      ensures Covered(merged, t) <==> Covered(intervals, t)
    {
      SameMembersSameCover(SortByOpen(intervals), intervals, t);
    }
  }

  /** The loop of mergeIntervals, over intervals already sorted. */
  method MergeSorted(sorted: seq<Interval>) returns (merged: seq<Interval>)
    requires |sorted| >= 1 && OpensSorted(sorted)
    ensures MergedUpTo(merged, sorted, |sorted|)
  {
    merged := [sorted[0]];
    assert sorted[..1] == merged;
    var i := 1;
    while i < |sorted|
      invariant MergedUpTo(merged, sorted, i)
    {
      ghost var before := merged;
      var last := merged[|merged| - 1];
      if sorted[i].open <= last.close {
        var close := if last.close < sorted[i].close then sorted[i].close else last.close;
        merged := merged[..|merged| - 1] + [Interval(last.open, close)];
      } else {
        merged := merged + [sorted[i]];
      }
      assert merged == Absorb(before, sorted[i]);
      AbsorbOneMore(before, sorted, i);
      i := i + 1;
    }
  }

  method MergeIntervals(intervals: seq<Interval>) returns (merged: seq<Interval>)
    ensures Separated(merged)
    ensures SameCover(merged, intervals)
  {
    if |intervals| <= 1 { return intervals; }
    var sorted := SortByOpen(intervals);
    assert |sorted| == |multiset(sorted)| == |multiset(intervals)|;
    merged := MergeSorted(sorted);
    assert sorted[..|sorted|] == sorted;
    SortingKeepsCover(intervals, merged);
  }

  predicate FitsInOne(ivs: seq<Interval>, start: int, end: int) {
    exists i :: 0 <= i < |ivs| && start >= ivs[i].open && end <= ivs[i].close
  }

  /** A non-empty slot lies in one of the separated intervals exactly when all its instants are covered. */
  lemma SlotFitsIffCovered(ivs: seq<Interval>, start: int, end: int)
    requires Separated(ivs) && start < end
    ensures FitsInOne(ivs, start, end) <==> forall t :: start <= t < end ==> Covered(ivs, t)
  {
    if FitsInOne(ivs, start, end) {
      var i :| 0 <= i < |ivs| && start >= ivs[i].open && end <= ivs[i].close;
      assert ivs[i] in ivs;
    }
    if forall t :: start <= t < end ==> Covered(ivs, t) {
      assert Covered(ivs, start);
      var iv :| iv in ivs && iv.Has(start);
      var i :| 0 <= i < |ivs| && ivs[i] == iv;
      assert start < ivs[i].close < end ==> Covered(ivs, ivs[i].close);
    }
  }

  // ---- Three days are enough ----

  /** A window starts on its own day and ends within the next two midnights. */
  lemma WindowBounds(table: map<int, Row>, day: int, offset: int)
    requires WindowOf(table, day, offset).Some?
    ensures var w := WindowOf(table, day, offset).value;
      day * DAY_MS <= w.open + offset <= w.close + offset <= (day + 2) * DAY_MS
  {
  }

  /** No day further away than one has a window over any instant of a slot of at most 24 hours. */
  lemma NeighbouringDaysSuffice(table: map<int, Row>, offset: int, start: int, end: int, t: int, day: int)
    requires start <= t < end <= start + DAY_MS
    requires InWindow(table, day, offset, t)
    ensures CalendarDay(start, offset) - 1 <= day <= CalendarDay(start, offset) + 1
  {
    WindowBounds(table, day, offset);
    var today := CalendarDay(start, offset);
    assert today * DAY_MS <= start + offset < (today + 1) * DAY_MS;
  }

  method IndexByDay(rows: seq<Row>) returns (byDay: map<int, Row>)
    ensures byDay == ByDay(rows)
  {
    byDay := map[];
    for i := 0 to |rows|
      invariant byDay == ByDay(rows[..i])
    {
      assert rows[..i + 1][..i] == rows[..i];
      byDay := byDay[rows[i].dayOfWeek := rows[i]];
    }
    assert rows[..|rows|] == rows;
  }

  // ---- In local weekday and time of day ----

  /** Day 0 of the count is a local midnight, days are 24 hours long, and an instant falls on the day that holds it. */
  lemma CalendarDayHolds(t: int, offset: int, day: int)
    ensures CalendarDay(t, offset) == day <==> day * 86400000 <= t + offset < day * 86400000 + 86400000
  {
  }

  /** 1 January 1970 was a Thursday, and the weekdays go round from Sunday, 0, to Saturday, 6. */
  lemma WeekdaysGoRound(day: int)
    ensures DayOfWeek(0) == 4 && 0 <= DayOfWeek(day) <= 6
    ensures DayOfWeek(day + 1) == if DayOfWeek(day) == 6 then 0 else DayOfWeek(day) + 1
  {
  }

  /** The row in force on a weekday is the last one stored for it. */
  predicate InForce(rows: seq<Row>, i: nat, weekday: int) {
    i < |rows| && rows[i].dayOfWeek == weekday && forall j :: i < j < |rows| ==> rows[j].dayOfWeek != weekday
  }

  /** Milliseconds from midnight to a stored time; its seconds are not looked at. */
  function ClockMs(time: TimeOfDay): int {
    time.hours * 3600000 + time.minutes * 60000
  }

  /** The row's shift is on at this time of its own day: it has begun, and it runs around the clock, to midnight
      (stored as 23:59), past midnight, or to a later closing time. */
  predicate CoversToday(wh: Row, ms: int) {
    && !wh.isClosed && ClockMs(wh.openTime) <= ms
    && (|| ClockMs(wh.closeTime) == ClockMs(wh.openTime)
        || (wh.closeTime.hours == 23 && wh.closeTime.minutes == 59)
        || ClockMs(wh.closeTime) < ClockMs(wh.openTime)
        || ms < ClockMs(wh.closeTime))
  }

  /** The row's shift is still on at this time of the next day: it runs around the clock from its opening time, or
      past midnight to its closing time. One that opens at 24:00 and closes at 23:59 takes the whole next day. */
  predicate CoversNextDay(wh: Row, ms: int) {
    !wh.isClosed &&
    if ClockMs(wh.closeTime) == ClockMs(wh.openTime) then ms < ClockMs(wh.openTime)
    else if wh.closeTime.hours == 23 && wh.closeTime.minutes == 59 then wh.openTime.hours == 24
    else ClockMs(wh.closeTime) < ClockMs(wh.openTime) && ms < ClockMs(wh.closeTime)
  }

  /** Somebody's shift is on at instant t: today's, or yesterday's past midnight. */
  ghost predicate OpenLocally(rows: seq<Row>, offset: int, t: int) {
    var day, ms := CalendarDay(t, offset), (t + offset) % 86400000;
    || (exists i: nat :: InForce(rows, i, DayOfWeek(day)) && CoversToday(rows[i], ms))
    || (exists i: nat :: InForce(rows, i, DayOfWeek(day - 1)) && CoversNextDay(rows[i], ms))
  }

  lemma {:induction false} ByDayIsInForce(rows: seq<Row>, i: nat, d: int)
    requires InForce(rows, i, d)
    ensures d in ByDay(rows) && ByDay(rows)[d] == rows[i]
    decreases |rows|
  {
    if i < |rows| - 1 {
      assert rows[|rows| - 1].dayOfWeek != d;
      ByDayIsInForce(rows[..|rows| - 1], i, d);
    }
  }

  lemma {:induction false} SomeRowInForce(rows: seq<Row>, d: int) returns (i: nat)
    requires d in ByDay(rows)
    ensures InForce(rows, i, d)
    decreases |rows|
  {
    if rows[|rows| - 1].dayOfWeek == d {
      i := |rows| - 1;
    } else {
      i := SomeRowInForce(rows[..|rows| - 1], d);
    }
  }

  lemma ShiftToday(wh: Row, day: int, offset: int, t: int)
    requires CalendarDay(t, offset) == day
    ensures (ResolveDayWindow(day, offset, wh).Some? && ResolveDayWindow(day, offset, wh).value.Has(t)) <==>
      CoversToday(wh, (t + offset) % 86400000)
  {
    assert t + offset == day * DAY_MS + (t + offset) % DAY_MS;
  }

  lemma ShiftNextDay(wh: Row, day: int, offset: int, t: int)
    requires CalendarDay(t, offset) == day + 1
    ensures (ResolveDayWindow(day, offset, wh).Some? && ResolveDayWindow(day, offset, wh).value.Has(t)) <==>
      CoversNextDay(wh, (t + offset) % 86400000)
  {
    assert t + offset == day * DAY_MS + DAY_MS + (t + offset) % DAY_MS;
  }

  /** The window of a day covers an instant of it exactly if the row in force on that weekday does. */
  lemma WindowToday(rows: seq<Row>, offset: int, t: int)
    ensures var day := CalendarDay(t, offset);
      InWindow(ByDay(rows), day, offset, t) <==>
        exists i: nat :: InForce(rows, i, DayOfWeek(day)) && CoversToday(rows[i], (t + offset) % 86400000)
  {
    var day := CalendarDay(t, offset);
    var d := DayOfWeek(day);
    forall i: nat | InForce(rows, i, d)
      ensures d in ByDay(rows) && ByDay(rows)[d] == rows[i]
    {
      ByDayIsInForce(rows, i, d);
    }
    if d in ByDay(rows) {
      var i := SomeRowInForce(rows, d);
      ShiftToday(rows[i], day, offset, t);
    }
  }

  lemma WindowNextDay(rows: seq<Row>, offset: int, t: int)
    ensures var day := CalendarDay(t, offset) - 1;
      InWindow(ByDay(rows), day, offset, t) <==>
        exists i: nat :: InForce(rows, i, DayOfWeek(day)) && CoversNextDay(rows[i], (t + offset) % 86400000)
  {
    var day := CalendarDay(t, offset) - 1;
    var d := DayOfWeek(day);
    forall i: nat | InForce(rows, i, d)
      ensures d in ByDay(rows) && ByDay(rows)[d] == rows[i]
    {
      ByDayIsInForce(rows, i, d);
    }
    if d in ByDay(rows) {
      var i := SomeRowInForce(rows, d);
      ShiftNextDay(rows[i], day, offset, t);
    }
  }

  /** The endless week of windows is open at an instant exactly if, by the local clock, today's shift covers it or
      yesterday's reaches past midnight to it. */
  lemma OpenAtIffOpenLocally(rows: seq<Row>, offset: int, t: int)
    ensures OpenAt(rows, offset, t) <==> OpenLocally(rows, offset, t)
  {
    var today := CalendarDay(t, offset);
    WindowToday(rows, offset, t);
    WindowNextDay(rows, offset, t);
    if OpenAt(rows, offset, t) {
      var day :| InWindow(ByDay(rows), day, offset, t);
      OnlyTwoDays(ByDay(rows), offset, t, day);
    }
  }

  lemma OnlyTwoDays(table: map<int, Row>, offset: int, t: int, day: int)
    requires InWindow(table, day, offset, t)
    ensures day == CalendarDay(t, offset) || day == CalendarDay(t, offset) - 1
  {
    WindowBounds(table, day, offset);
    CalendarDayHolds(t, offset, CalendarDay(t, offset));
  }

  lemma OpenLocallyThroughout(rows: seq<Row>, offset: int, start: int, end: int)
    ensures OpenThroughout(rows, offset, start, end) <==> forall t :: start <= t < end ==> OpenLocally(rows, offset, t)
  {
    forall t
      ensures OpenAt(rows, offset, t) <==> OpenLocally(rows, offset, t)
    {
      OpenAtIffOpenLocally(rows, offset, t);
    }
  }

  /** The row in force on that weekday is not marked closed. */
  predicate OpensOn(rows: seq<Row>, weekday: int) {
    exists i: nat | i < |rows| :: InForce(rows, i, weekday) && !rows[i].isClosed
  }

  lemma OpensOnIffListed(rows: seq<Row>, d: int)
    ensures OpensOn(rows, d) <==> d in ByDay(rows) && !ByDay(rows)[d].isClosed
  {
    forall i: nat | InForce(rows, i, d)
      ensures d in ByDay(rows) && ByDay(rows)[d] == rows[i]
    {
      ByDayIsInForce(rows, i, d);
    }
    if d in ByDay(rows) {
      var i := SomeRowInForce(rows, d);
    }
  }

  // ---- The gate ----

  method AssertWithinWorkingHours(rows: seq<Row>, offset: int, start: int, end: int) returns (outcome: Outcome)
    ensures outcome == NotConfigured <==> rows == []
    ensures rows != [] && start < end <= start + DAY_MS ==>
      (outcome == WithinHours <==> forall t :: start <= t < end ==> OpenLocally(rows, offset, t))
    ensures outcome == ClosedThatDay ==> !OpensOn(rows, DayOfWeek(CalendarDay(start, offset)))
    ensures outcome == OutsideHours ==> OpensOn(rows, DayOfWeek(CalendarDay(start, offset)))
  {
    if |rows| == 0 { return NotConfigured; }
    var byDay := IndexByDay(rows);
    var today := CalendarDay(start, offset);
    var intervals: seq<Interval> := [];
    for shift := -1 to 2
      invariant forall t :: Covered(intervals, t) <==>
        exists day :: today - 1 <= day < today + shift && InWindow(byDay, day, offset, t)
    {
      var day := today + shift;
      ghost var before := intervals;
      var w := WindowOf(byDay, day, offset);
      if w.Some? {
        intervals := intervals + [w.value];
      }
      forall t
        ensures Covered(intervals, t) <==>
          exists day' :: today - 1 <= day' < today + shift + 1 && InWindow(byDay, day', offset, t)
      {
        if w.Some? { CoverOfAppend(before, w.value, t); }
        assert InWindow(byDay, day, offset, t) <==> w.Some? && w.value.Has(t);
      }
    }
    var merged := MergeIntervals(intervals);
    var isOpen := FitsInOne(merged, start, end);
    if start < end <= start + DAY_MS {
      SlotFitsIffCovered(merged, start, end);
      CoveredIffOpen(rows, offset, start, end, intervals);
    }
    if start < end { OpenLocallyThroughout(rows, offset, start, end); }
    OpensOnIffListed(rows, DayOfWeek(today));
    if isOpen { return WithinHours; }
    var startDay := DayOfWeek(today);
    if startDay !in byDay || byDay[startDay].isClosed { return ClosedThatDay; }
    return OutsideHours;
  }

  lemma CoveredIffOpen(rows: seq<Row>, offset: int, start: int, end: int, intervals: seq<Interval>)
    requires start < end <= start + DAY_MS
    requires var today := CalendarDay(start, offset);
      forall t :: Covered(intervals, t) <==>
        exists day :: today - 1 <= day < today + 2 && InWindow(ByDay(rows), day, offset, t)
    ensures (forall t :: start <= t < end ==> Covered(intervals, t)) <==> OpenThroughout(rows, offset, start, end)
  {
    forall t | start <= t < end
      ensures Covered(intervals, t) <==> OpenAt(rows, offset, t)
    {
      if OpenAt(rows, offset, t) {
        var day :| InWindow(ByDay(rows), day, offset, t);
        NeighbouringDaysSuffice(ByDay(rows), offset, start, end, t, day);
      }
    }
  }

  // ---- Prime time ----

  /** Friday and Saturday, and every day from 17:00 local time. */
  predicate IsPrimeTime(start: int, offset: int) {
    DayOfWeek(CalendarDay(start, offset)) in {5, 6} || (start + offset) % DAY_MS >= 17 * 60 * MINUTE_MS
  }

  // ---- What the rows mean ----

  predicate AllDayRow(wh: Row) {
    !wh.isClosed && TimeToMinutes(wh.openTime) == 0 &&
    TimeToMinutes(wh.closeTime) in {0, MINUTES_PER_DAY - 1, MINUTES_PER_DAY}
  }

  /** A table whose seven rows are all 24-hour rows is open at every instant. */
  lemma AlwaysOpen(rows: seq<Row>, offset: int, t: int)
    requires forall d :: 0 <= d < 7 ==> d in ByDay(rows) && AllDayRow(ByDay(rows)[d])
    ensures OpenAt(rows, offset, t)
  {
    var day := CalendarDay(t, offset);
    assert day * DAY_MS <= t + offset < day * DAY_MS + DAY_MS;
    assert 0 <= DayOfWeek(day) < 7;
    assert InWindow(ByDay(rows), day, offset, t);
  }
}
