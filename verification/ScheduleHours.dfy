// Over any run, whatever interleaves and however the opening table is edited meanwhile: stored slots are whole hours, and
// a booking a member made for themselves lies within an opening table that was in force when it was checked.

module ScheduleHours {
  import opened Options
  import opened Instants
  import opened BookingStatus
  import opened Schedule
  import opened RowLemmas
  import opened Interleaving
  import opened Programs
  import opened SlotRules
  import opened ScheduleRuns
  import opened ScheduleHistory
  import WorkingHours

  type Hours = seq<WorkingHours.Row>

  ghost predicate OpenUnder(hours: Hours, offset: int, start: int, end: int) {
    hours != [] && forall t :: start <= t < end ==> WorkingHours.OpenLocally(hours, offset, t)
  }

  ghost predicate OpenUnderSome(past: set<Hours>, offset: int, start: int, end: int) {
    exists hours :: hours in past && OpenUnder(hours, offset, start, end)
  }

  ghost predicate RowLawful(r: Row, past: set<Hours>, offset: int) {
    && RowNonEmpty(r)
    && (r.Reserved? ==>
         var length := r.booking.end - r.booking.start;
         3600000 <= length <= 12 * 3600000 && length % 3600000 == 0)
    && (r.Reserved? && r.booking.selfMade ==> OpenUnderSome(past, offset, r.booking.start, r.booking.end))
  }

  /** What an executed check established for good. */
  ghost predicate Established(st: Stmt, past: set<Hours>, offset: int) {
    match st
    case CheckHours(start, end) => OpenUnderSome(past, offset, start, end)
    case CheckDuration(minutes) => 60 <= minutes <= 720 && minutes % 60 == 0
    case CheckNonEmpty(start, end) => start < end
    case _ => true
  }

  ghost predicate TxnChecked(db: Tables, txn: Txn, past: set<Hours>) {
    && (forall st :: st in Program(txn.req, db.courts, txn.began) ==> st in txn.done || st in txn.todo)
    && (forall st :: st in txn.done ==> Established(st, past, db.offset))
  }

  ghost predicate Lawful(s: State, past: set<Hours>) {
    && s.db.hours in past
    && SlotsNonEmpty(s.db)
    && (forall i :: 0 <= i < |s.db.rows| ==> RowLawful(s.db.rows[i], past, s.db.offset))
    && (forall t :: t in s.txns ==> TxnChecked(s.db, s.txns[t], past))
  }

  // ---- Commits ----

  lemma HoursAreChecked(courts: seq<CourtId>, req: Request, now: int)
    requires req.BookingRequest? && req.role == Customer
    ensures var b := NewBooking(req, now).booking; CheckHours(b.start, b.end) in Program(req, courts, now)
  {
    var claim := NewBooking(req, now);
    assert Validation(claim, req.minutes, false)[2] == CheckHours(claim.booking.start, claim.booking.end);
  }

  lemma WholeHours(minutes: int)
    requires 60 <= minutes <= 720 && minutes % 60 == 0
    ensures 3600000 <= minutes * 60000 <= 12 * 3600000 && (minutes * 60000) % 3600000 == 0
  {
    assert minutes * 60000 == (minutes / 60) * 3600000;
  }

  lemma ClaimLength(req: Request, now: int, k: nat)
    requires k < |Claims(req, now)| && Claims(req, now)[k].Reserved?
    ensures Claims(req, now)[k].booking.end - Claims(req, now)[k].booking.start == req.minutes * 60000
    ensures Claims(req, now)[k].booking.selfMade ==> req.BookingRequest? && req.role == Customer && Claims(req, now)[k] == NewBooking(req, now)
  {
  }

  lemma CheckEstablished(db: Tables, txn: Txn, past: set<Hours>, st: Stmt)
    requires TxnChecked(db, txn, past) && txn.todo == [] && st in Program(txn.req, db.courts, txn.began)
    ensures Established(st, past, db.offset)
  {
  }

  lemma ClaimIsTimely(db: Tables, txn: Txn, past: set<Hours>, k: nat)
    requires TxnChecked(db, txn, past) && txn.todo == [] && k < |Claims(txn.req, txn.began)|
    ensures var r := Claims(txn.req, txn.began)[k];
      if r.Blocked? then r.start < r.end
      else 60 <= txn.req.minutes <= 720 && txn.req.minutes % 60 == 0
  {
    var claim := Claims(txn.req, txn.began)[k];
    ClaimsAreChecked(db.courts, txn.req, txn.began, k);
    if claim.Blocked? {
      CheckEstablished(db, txn, past, CheckNonEmpty(claim.start, claim.end));
    } else {
      CheckEstablished(db, txn, past, CheckDuration(txn.req.minutes));
    }
  }

  lemma ClaimIsLawful(db: Tables, txn: Txn, past: set<Hours>, k: nat)
    requires TxnChecked(db, txn, past) && txn.todo == [] && k < |Claims(txn.req, txn.began)|
    ensures RowLawful(Claims(txn.req, txn.began)[k], past, db.offset)
  {
    var claim := Claims(txn.req, txn.began)[k];
    ClaimIsTimely(db, txn, past, k);
    if claim.Reserved? {
      WholeHours(txn.req.minutes);
      ClaimLength(txn.req, txn.began, k);
      if claim.booking.selfMade {
        HoursAreChecked(db.courts, txn.req, txn.began);
        CheckEstablished(db, txn, past, CheckHours(claim.booking.start, claim.booking.end));
      }
    }
  }

  lemma CommitIsLawful(s: State, past: set<Hours>, t: nat)
    requires Lawful(s, past) && t in s.txns && s.txns[t].todo == []
    ensures Lawful(State(Committed(s.db, s.txns[t]), s.txns - {t}), past)
  {
    var db, db' := s.db, Committed(s.db, s.txns[t]);
    assert TxnChecked(db, s.txns[t], past);
    forall i | 0 <= i < |db'.rows|
      ensures RowLawful(db'.rows[i], past, db.offset)
    {
      if i >= |db.rows| { ClaimIsLawful(db, s.txns[t], past, i - |db.rows|); }
    }
  }

  // ---- Every action ----

  lemma OpenUnderMore(past: set<Hours>, more: set<Hours>, offset: int, start: int, end: int)
    requires past <= more && OpenUnderSome(past, offset, start, end)
    ensures OpenUnderSome(more, offset, start, end)
  {
    var hours :| hours in past && OpenUnder(hours, offset, start, end);
    assert hours in more;
  }

  lemma LawfulUnderMore(s: State, past: set<Hours>, more: set<Hours>)
    requires Lawful(s, past) && past <= more
    ensures Lawful(s, more)
  {
    forall i | 0 <= i < |s.db.rows|
      ensures RowLawful(s.db.rows[i], more, s.db.offset)
    {
      var r := s.db.rows[i];
      assert RowLawful(r, past, s.db.offset);
      if r.Reserved? && r.booking.selfMade { OpenUnderMore(past, more, s.db.offset, r.booking.start, r.booking.end); }
    }
    forall t, st | t in s.txns && st in s.txns[t].done
      ensures Established(st, more, s.db.offset)
    {
      assert TxnChecked(s.db, s.txns[t], past) && Established(st, past, s.db.offset);
      if st.CheckHours? { OpenUnderMore(past, more, s.db.offset, st.start, st.end); }
    }
    forall t | t in s.txns
      ensures TxnChecked(s.db, s.txns[t], more)
    {
      assert TxnChecked(s.db, s.txns[t], past);
    }
  }

  lemma StatementEstablishes(db: Tables, began: int, st: Stmt, past: set<Hours>)
    requires db.hours in past && Passes(db, began, st)
    ensures Established(st, past, db.offset)
  {
    if st.CheckHours? {
      WorkingHours.OpenLocallyThroughout(db.hours, db.offset, st.start, st.end);
      assert OpenUnder(db.hours, db.offset, st.start, st.end);
    }
  }

  lemma StepIsLawful(s: State, past: set<Hours>, t: nat)
    requires Lawful(s, past) && Enabled(s, Step(t))
    ensures Lawful(Next(s, Step(t)), past)
  {
    var txn := s.txns[t];
    assert TxnChecked(s.db, txn, past);
    if txn.todo == [] {
      CommitIsLawful(s, past, t);
    } else if Passes(s.db, txn.began, txn.todo[0]) {
      StatementEstablishes(s.db, txn.began, txn.todo[0], past);
      assert txn.todo == [txn.todo[0]] + txn.todo[1..];
      assert TxnChecked(s.db, Executed(s.db, txn), past);
    }
  }

  lemma RowStaysLawful(r: Row, r': Row, past: set<Hours>, offset: int)
    requires GivesUp(r, r') && RowLawful(r, past, offset)
    ensures RowLawful(r', past, offset)
  {
  }

  /** Actions other than a transaction's own change no slot, and no more of the rows than their status. */
  lemma OtherIsLawful(s: State, past: set<Hours>, a: Action)
    requires Lawful(s, past) && Enabled(s, a) && !a.Step? && !a.Begin? && !a.Rollback? && !a.SetHours?
    ensures Lawful(Next(s, a), past)
  {
    var s' := Next(s, a);
    assert |s'.db.rows| == |s.db.rows| && s'.txns == s.txns;
    forall i | 0 <= i < |s'.db.rows|
      ensures RowLawful(s'.db.rows[i], past, s.db.offset)
    {
      NextGivesUp(s, a, i);
      RowStaysLawful(s.db.rows[i], s'.db.rows[i], past, s.db.offset);
    }
    if a.CancelBooking? { assert RowLawful(s.db.rows[a.row], past, s.db.offset); }
    forall t | t in s.txns
      ensures TxnChecked(s'.db, s.txns[t], past)
    {
      assert TxnChecked(s.db, s.txns[t], past);
    }
  }

  lemma NextIsLawful(s: State, past: set<Hours>, a: Action)
    requires Lawful(s, past) && Enabled(s, a)
    ensures Lawful(Next(s, a), past + {Next(s, a).db.hours})
  {
    var more := past + {Next(s, a).db.hours};
    LawfulUnderMore(s, past, more);
    if a.Step? {
      StepIsLawful(s, more, a.txn);
    } else if !a.Begin? && !a.Rollback? && !a.SetHours? {
      OtherIsLawful(s, more, a);
    } else if a.SetHours? {
      forall t | t in s.txns
        ensures TxnChecked(Next(s, a).db, s.txns[t], more)
      {
        assert TxnChecked(s.db, s.txns[t], more);
      }
    }
  }

  // ---- Every run ----

  /** The opening tables in force at some moment of the run. */
  ghost function HoursSeen(s: State, actions: seq<Action>): set<Hours>
    requires Run(s, actions)
    decreases |actions|
  {
    {s.db.hours} + if actions == [] then {} else HoursSeen(Next(s, actions[0]), actions[1..])
  }

  lemma {:induction false} RunsStayLawful(s: State, actions: seq<Action>, past: set<Hours>)
    requires Lawful(s, past) && Run(s, actions)
    ensures Lawful(Exec(s, actions), past + HoursSeen(s, actions))
    decreases |actions|
  {
    if actions == [] {
      assert past + HoursSeen(s, actions) == past;
    } else {
      var next := Next(s, actions[0]);
      NextIsLawful(s, past, actions[0]);
      RunsStayLawful(next, actions[1..], past + {next.db.hours});
      assert next.db.hours in HoursSeen(next, actions[1..]);
      assert past + {next.db.hours} + HoursSeen(next, actions[1..]) == past + HoursSeen(s, actions);
    }
  }

  /** Every slot stored by any run from an empty schedule is lawful. */
  lemma BookingsKeepTheHours(s: State, actions: seq<Action>)
    requires Initial(s) && Run(s, actions)
    ensures var db := Exec(s, actions).db;
      && SlotsNonEmpty(db)
      && forall i :: 0 <= i < |db.rows| ==> RowLawful(db.rows[i], HoursSeen(s, actions), db.offset)
  {
    RunsStayLawful(s, actions, {s.db.hours});
    assert {s.db.hours} + HoursSeen(s, actions) == HoursSeen(s, actions);
  }

  predicate HoursUntouched(actions: seq<Action>) {
    forall i :: 0 <= i < |actions| ==> !actions[i].SetHours?
  }

  lemma {:induction false} OneTableSeen(s: State, actions: seq<Action>)
    requires Run(s, actions) && HoursUntouched(actions)
    ensures HoursSeen(s, actions) == {s.db.hours} && Exec(s, actions).db.offset == s.db.offset
    decreases |actions|
  {
    if actions != [] {
      assert !actions[0].SetHours? && HoursUntouched(actions[1..]);
      OneTableSeen(Next(s, actions[0]), actions[1..]);
    }
  }

  /** In particular, while the opening table is left alone, no member ever holds a slot outside it. */
  lemma MembersStayWithinHours(s: State, actions: seq<Action>, i: nat)
    requires Initial(s) && Run(s, actions) && HoursUntouched(actions)
    requires i < |Exec(s, actions).db.rows| && Exec(s, actions).db.rows[i].Reserved? && Exec(s, actions).db.rows[i].booking.selfMade
    ensures var b := Exec(s, actions).db.rows[i].booking;
      forall t :: b.start <= t < b.end ==> WorkingHours.OpenLocally(s.db.hours, s.db.offset, t)
  {
    BookingsKeepTheHours(s, actions);
    OneTableSeen(s, actions);
    assert RowLawful(Exec(s, actions).db.rows[i], HoursSeen(s, actions), s.db.offset);
  }
}
