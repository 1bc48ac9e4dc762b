// What happens to stored rows over whole runs, to a subscription and to a waitlist hold at commit,
// and exactly when blocks are safe.

module ScheduleHistory {
  import opened Options
  import opened Instants
  import opened BookingStatus
  import opened Schedule
  import opened RowLemmas
  import opened Interleaving
  import opened Programs
  import opened ScheduleSafety
  import opened ScheduleRuns
  import WorkingHours

  // ---- Rows over runs ----

  lemma GivesUpTransitive(r: Row, r': Row, r'': Row)
    requires GivesUp(r, r') && GivesUp(r', r'')
    ensures GivesUp(r, r'')
  {
  }

  lemma GivesUpNothing(r: Row)
    ensures GivesUp(r, r)
  {
  }

  lemma NextGivesUp(s: State, a: Action, i: nat)
    requires Enabled(s, a) && i < |s.db.rows|
    ensures i < |Next(s, a).db.rows| && GivesUp(s.db.rows[i], Next(s, a).db.rows[i])
  {
    if OnlyRelaxes(a) {
      ActionRelaxes(s, a);
    } else if a.CancelBooking? && a.row == i {
      CancellableIsLive(s.db.rows[i]);
    } else {
      GivesUpNothing(s.db.rows[i]);
    }
  }

  /** Rows are never lost or rewritten: over any run each keeps its slot, owner and items,
      and one that has given up its court never takes it back. */
  lemma {:induction false} ReleasedStaysReleased(s: State, actions: seq<Action>, i: nat)
    requires Run(s, actions) && i < |s.db.rows|
    ensures i < |Exec(s, actions).db.rows| && GivesUp(s.db.rows[i], Exec(s, actions).db.rows[i])
    ensures !Live(s.db.rows[i]) ==> !Live(Exec(s, actions).db.rows[i])
    decreases |actions|
  {
    if actions == [] {
      GivesUpNothing(s.db.rows[i]);
    } else {
      NextGivesUp(s, actions[0], i);
      ReleasedStaysReleased(Next(s, actions[0]), actions[1..], i);
      GivesUpTransitive(s.db.rows[i], Next(s, actions[0]).db.rows[i], Exec(s, actions).db.rows[i]);
    }
  }

  // ---- Statuses over runs ----

  /** A walk of documented edges, or the one move they lack: cancelling a checked-in booking. */
  ghost predicate Evolves(from: Status, to: Status) {
    Reaches(from, to) || (from == CheckedIn && to == Cancelled)
  }

  lemma EvolvesTransitive(a: Status, b: Status, c: Status)
    requires Evolves(a, b) && Evolves(b, c)
    ensures Evolves(a, c)
  {
    if Reaches(a, b) && Reaches(b, c) {
      ReachesTransitive(a, b, c);
    } else if Reaches(a, b) {
      if Occupies(a) && a != CheckedIn {
        assert CanTransition(a, Cancelled);
        ReachesByEdge(a, Cancelled);
      } else {
        TerminalIffCourtReleased(a, b);
      }
    } else {
      TerminalIffCourtReleased(b, c);
    }
  }

  lemma NextEvolves(s: State, a: Action, i: nat)
    requires Enabled(s, a) && i < |s.db.rows| && s.db.rows[i].Reserved?
    ensures i < |Next(s, a).db.rows| && Next(s, a).db.rows[i].Reserved?
    ensures var b, b' := s.db.rows[i].booking, Next(s, a).db.rows[i].booking;
      b'.deleted || Evolves(b.status, b'.status)
  {
    NextGivesUp(s, a, i);
    var b, b' := s.db.rows[i].booking, Next(s, a).db.rows[i].booking;
    if a.Write? {
      StatusWritesFollowEdges(a.write, i, b, s.db.now);
    } else if a.CancelBooking? && a.row == i {
      CancelFollowsEdgesExceptCheckedIn(s.db.rows[i]);
      if b.status != CheckedIn { ReachesByEdge(b.status, Cancelled); }
    }
    if b'.status == b.status { ReachesItself(b.status); }
  }

  /** Over any run the status of a booking that is not deleted has followed the documented edges;
      a deleted one is cancelled. */
  lemma {:induction false} StatusesFollowEdges(s: State, actions: seq<Action>, i: nat)
    requires Run(s, actions) && i < |s.db.rows| && s.db.rows[i].Reserved? && DeletedMeansCancelled(s.db.rows)
    ensures i < |Exec(s, actions).db.rows| && Exec(s, actions).db.rows[i].Reserved?
    ensures var b, b' := s.db.rows[i].booking, Exec(s, actions).db.rows[i].booking;
      if b'.deleted then b'.status == Cancelled else Evolves(b.status, b'.status)
    decreases |actions|
  {
    ReleasedStaysReleased(s, actions, i);
    if actions == [] {
      ReachesItself(s.db.rows[i].booking.status);
    } else {
      var s' := Next(s, actions[0]);
      NextEvolves(s, actions[0], i);
      NextKeepsDeletedCancelled(s, actions[0]);
      StatusesFollowEdges(s', actions[1..], i);
      ReleasedStaysReleased(s', actions[1..], i);
      if !Exec(s, actions).db.rows[i].booking.deleted {
        EvolvesTransitive(s.db.rows[i].booking.status, s'.db.rows[i].booking.status, Exec(s, actions).db.rows[i].booking.status);
      }
    }
  }

  lemma NextKeepsDeletedCancelled(s: State, a: Action)
    requires Enabled(s, a) && DeletedMeansCancelled(s.db.rows)
    ensures DeletedMeansCancelled(Next(s, a).db.rows)
  {
    var rows := Next(s, a).db.rows;
    forall i | 0 <= i < |rows| && rows[i].Reserved? && rows[i].booking.deleted
      ensures rows[i].booking.status == Cancelled
    {
      if i < |s.db.rows| { NextGivesUp(s, a, i); }
    }
  }

  // ---- Subscriptions ----

  /** The i-th weekly booking of a subscription, as inserted. */
  predicate WeeklyBooking(r: Row, req: Request, i: int)
    requires req.SubscriptionRequest?
  {
    && r.Reserved? && r.booking.court == req.court && r.booking.customer == req.customer && !r.booking.selfMade
    && r.booking.status == Confirmed && !r.booking.deleted && r.booking.subscription == Some(req.id)
    && r.booking.lines == [] && r.booking.expiresAt == None
    && r.booking.start == req.start + i * 604800000 && r.booking.end == r.booking.start + req.minutes * 60000
  }

  /** Both instants fall on the same weekday at the same time of the local clock. */
  predicate SameLocalTime(t: int, t': int, offset: int) {
    && WorkingHours.DayOfWeek(WorkingHours.CalendarDay(t, offset)) == WorkingHours.DayOfWeek(WorkingHours.CalendarDay(t', offset))
    && (t + offset) % 86400000 == (t' + offset) % 86400000
  }

  /** Every session of a subscription is on the weekday and at the local time of the first, exactly i weeks later. */
  lemma WeeksKeepLocalTime(start: int, i: nat, offset: int)
    ensures SameLocalTime(start + i * 604800000, start, offset)
    ensures WorkingHours.CalendarDay(start + i * 604800000, offset) == WorkingHours.CalendarDay(start, offset) + 7 * i
  {
    assert start + i * 604800000 + offset == start + offset + 7 * i * 86400000;
  }

  lemma TermIsChecked(courts: seq<CourtId>, req: Request, now: int)
    requires req.SubscriptionRequest?
    ensures CheckTerm(req.months) in Program(req, courts, now)
  {
    assert Program(req, courts, now)[0] == CheckTerm(req.months);
  }

  lemma ClaimsAreWeekly(req: Request, now: int)
    requires req.SubscriptionRequest?
    ensures |Claims(req, now)| == 4 * req.months
    ensures forall i :: 0 <= i < |Claims(req, now)| ==> WeeklyBooking(Claims(req, now)[i], req, i)
  {
  }

  lemma TermAtCommit(db: Tables, txn: Txn)
    requires TxnOk(db, txn) && txn.todo == [] && txn.req.SubscriptionRequest?
    ensures txn.req.months == 1 || txn.req.months == 3
  {
    TermIsChecked(db.courts, txn.req, txn.began);
    assert Post(db, txn, CheckTerm(txn.req.months));
  }

  lemma WeeklyAfter(rows: seq<Row>, req: Request, now: int)
    requires req.SubscriptionRequest?
    ensures var rows' := rows + Claims(req, now);
      forall i :: |rows| <= i < |rows'| ==> WeeklyBooking(rows'[i], req, i - |rows|)
  {
    var claims, rows' := Claims(req, now), rows + Claims(req, now);
    ClaimsAreWeekly(req, now);
    forall i | |rows| <= i < |rows'|
      ensures WeeklyBooking(rows'[i], req, i - |rows|)
    {
      assert rows'[i] == claims[i - |rows|];
    }
  }

  lemma SubscriptionRows(s: State, t: nat)
    requires t in s.txns && s.txns[t].todo == [] && s.txns[t].req.SubscriptionRequest?
    ensures Enabled(s, Step(t))
    ensures Next(s, Step(t)).db.rows == s.db.rows + Claims(s.txns[t].req, s.txns[t].began)
    ensures |Claims(s.txns[t].req, s.txns[t].began)| == 4 * s.txns[t].req.months
    ensures Next(s, Step(t)) == State(Committed(s.db, s.txns[t]), s.txns - {t})
  {
  }

  lemma FourOrTwelve(s: State, t: nat)
    requires Inv(s) && t in s.txns && s.txns[t].todo == [] && s.txns[t].req.SubscriptionRequest?
    ensures s.txns[t].req.months == 1 || s.txns[t].req.months == 3
  {
    TermAtCommit(s.db, s.txns[t]);
  }

  lemma SubscriptionCommits(s: State, t: nat)
    requires Inv(s) && t in s.txns && s.txns[t].todo == [] && s.txns[t].req.SubscriptionRequest?
    ensures Enabled(s, Step(t)) && Inv(Next(s, Step(t))) && Disjoint(Next(s, Step(t)).db.rows)
  {
    SubscriptionRows(s, t);
    CommitKeepsInv(s, t);
  }

  /** A subscription that commits adds exactly 4 or 12 weekly bookings, and the whole schedule stays sound
      although every week was checked only against what was stored before. */
  lemma SubscriptionAddsEveryWeek(s: State, t: nat)
    requires Inv(s) && t in s.txns && s.txns[t].todo == [] && s.txns[t].req.SubscriptionRequest?
    ensures Enabled(s, Step(t)) && Inv(Next(s, Step(t)))
    ensures var req, rows, rows' := s.txns[t].req, s.db.rows, Next(s, Step(t)).db.rows;
      && (|rows'| == |rows| + 4 || |rows'| == |rows| + 12)
      && rows'[..|rows|] == rows
      && (forall i :: |rows| <= i < |rows'| ==> WeeklyBooking(rows'[i], req, i - |rows|))
      && Disjoint(rows')
  {
    SubscriptionCommits(s, t);
    SubscriptionRows(s, t);
    FourOrTwelve(s, t);
    WeeklyAfter(s.db.rows, s.txns[t].req, s.txns[t].began);
  }

  /** Rows appear only by whole requests: every action adds nothing, or all that one finished request claims. */
  lemma RowsComeByWholeRequests(s: State, a: Action)
    requires Enabled(s, a)
    ensures var rows, rows' := s.db.rows, Next(s, a).db.rows;
      if a.Step? && s.txns[a.txn].todo == [] && Insertable(s.txns[a.txn])
      then rows' == rows + Claims(s.txns[a.txn].req, s.txns[a.txn].began)
      else |rows'| == |rows|
  {
  }

  // ---- Holds over runs ----

  lemma NextKeepsClaims(s: State, a: Action, h: nat)
    requires Inv(s) && Enabled(s, a) && h < |s.db.holds| && s.db.holds[h].claimedBy.Some?
    ensures h < |Next(s, a).db.holds| && Next(s, a).db.holds[h] == s.db.holds[h]
  {
    if a.Step? && s.txns[a.txn].todo == [] && s.txns[a.txn].claimed.Some? {
      ClaimedHoldIsUsable(s.db, s.txns[a.txn]);
    }
  }

  /** A hold is consumed by at most one booking: over any run of writers and other steps, a claimed hold
      never changes again. */
  lemma {:induction false} ClaimedHoldsAreFinal(s: State, actions: seq<Action>, h: nat)
    requires Inv(s) && Run(s, actions) && BlocksLock(s.db.courts, actions)
    requires h < |s.db.holds| && s.db.holds[h].claimedBy.Some?
    ensures h < |Exec(s, actions).db.holds| && Exec(s, actions).db.holds[h] == s.db.holds[h]
    decreases |actions|
  {
    if actions != [] {
      NextKeepsClaims(s, actions[0], h);
      ActionKeepsInv(s, actions[0]);
      ClaimedHoldsAreFinal(Next(s, actions[0]), actions[1..], h);
    }
  }

  // ---- Holds at commit ----

  lemma HoldsSettledAtCommit(db: Tables, txn: Txn)
    requires Finished(db, txn) && txn.req.BookingRequest?
    ensures HoldsSettled(db, txn.claimed, NewBooking(txn.req, txn.began).booking, txn.req.role)
  {
    BookingIsChecked(db.courts, txn.req, txn.began);
    assert Post(db, txn, ReadHolds(NewBooking(txn.req, txn.began), txn.req.role, txn.req.token));
  }

  lemma EarliestOnceSettled(db: Tables, claimed: Option<nat>, b: Booking)
    requires HoldsSettled(db, claimed, b, Customer)
    ensures var h := EarliestHold(db.holds, b.court, b.start, b.end, db.now);
      h.Some? ==> (claimed.Some? && claimed.value < |db.holds| &&
                   (h == claimed <==> db.holds[claimed.value].expiresAt > db.now))
  {
    var h := EarliestHold(db.holds, b.court, b.start, b.end, db.now);
    if h.Some? {
      assert HoldMatches(db.holds[h.value], b.court, b.start, b.end, db.now);
      if db.holds[claimed.value].expiresAt > db.now {
        assert HoldMatches(db.holds[claimed.value], b.court, b.start, b.end, db.now);
      }
    }
  }

  /** When a customer's booking commits, the earliest active hold over its slot, if there is one,
      is the hold the booking claims, except exactly when that hold has expired by then. */
  lemma EarliestHoldAtCommit(s: State, t: nat)
    requires Inv(s) && t in s.txns && Finished(s.db, s.txns[t])
    requires s.txns[t].req.BookingRequest? && s.txns[t].req.role == Customer
    ensures var txn, h := s.txns[t], HoldFor(s.db, NewBooking(s.txns[t].req, s.txns[t].began), s.db.now);
      h.Some? ==> (txn.claimed.Some? && txn.claimed.value < |s.db.holds| &&
                   (h == txn.claimed <==> s.db.holds[txn.claimed.value].expiresAt > s.db.now))
  {
    HoldsSettledAtCommit(s.db, s.txns[t]);
    EarliestOnceSettled(s.db, s.txns[t].claimed, NewBooking(s.txns[t].req, s.txns[t].began).booking);
  }

  /** So nobody books ahead of someone else's active hold, unless the hold they were let in by expired meanwhile. */
  lemma HoldsAreRespected(s: State, t: nat)
    requires Inv(s) && t in s.txns && Finished(s.db, s.txns[t])
    requires s.txns[t].req.BookingRequest? && s.txns[t].req.role == Customer
    requires s.txns[t].claimed.Some? ==>
      s.txns[t].claimed.value < |s.db.holds| && s.db.holds[s.txns[t].claimed.value].expiresAt > s.db.now
    ensures var h := HoldFor(s.db, NewBooking(s.txns[t].req, s.txns[t].began), s.db.now);
      h.Some? ==> s.db.holds[h.value].user == s.txns[t].req.customer
    ensures var h, db' := HoldFor(s.db, NewBooking(s.txns[t].req, s.txns[t].began), s.db.now), Committed(s.db, s.txns[t]);
      h.Some? ==> db'.holds[h.value].claimedBy == Some(|s.db.rows|)
  {
    EarliestHoldAtCommit(s, t);
    if s.txns[t].claimed.Some? { ClaimedHoldIsUsable(s.db, s.txns[t]); }
  }
}
