// Row locks on waitlist holds: whoever consults them locks every active one, so two open transactions are never about to
// consume the same hold, whatever else goes on.

module HoldRaces {
  import opened Options
  import opened Schedule
  import opened Interleaving
  import opened ScheduleRuns

  /** Consulting the holds locks each that is active over the slot, the claimed one among them. */
  lemma ConsultingLocks(db: Tables, txn: Txn, h: nat)
    requires txn.todo != [] && txn.todo[0].ReadHolds? && txn.todo[0].claim.Reserved? && h < |db.holds|
    ensures var b := txn.todo[0].claim.booking;
      HoldMatches(db.holds[h], b.court, b.start, b.end, txn.began) ==> HoldLock(h) in Executed(db, txn).locks
    ensures Executed(db, txn).claimed == Some(h) ==> HoldLock(h) in Executed(db, txn).locks
  {
  }

  /** Locks are exclusive, and a hold about to be consumed is locked by its consumer. */
  ghost predicate ClaimsLocked(s: State) {
    Exclusive(s) &&
    forall t :: t in s.txns && s.txns[t].claimed.Some? ==> HoldLock(s.txns[t].claimed.value) in s.txns[t].locks
  }

  lemma StepKeepsClaimsLocked(s: State, t: nat)
    requires ClaimsLocked(s) && Enabled(s, Step(t)) && s.txns[t].todo != []
    ensures ClaimsLocked(s.(txns := s.txns[t := Executed(s.db, s.txns[t])]))
  {
    StepKeepsExclusive(s, t);
    var txn := s.txns[t];
    var next := Executed(s.db, txn);
    if txn.todo[0].ReadHolds? && txn.todo[0].claim.Reserved? && next.claimed.Some? {
      ConsultingLocks(s.db, txn, next.claimed.value);
    }
  }

  lemma NextKeepsClaimsLocked(s: State, a: Action)
    requires ClaimsLocked(s) && Enabled(s, a)
    ensures ClaimsLocked(Next(s, a))
  {
    if a.Step? && s.txns[a.txn].todo != [] && Passes(s.db, s.txns[a.txn].began, s.txns[a.txn].todo[0]) {
      StepKeepsClaimsLocked(s, a.txn);
    }
  }

  lemma {:induction false} RunsKeepClaimsLocked(s: State, actions: seq<Action>)
    requires ClaimsLocked(s) && Run(s, actions)
    ensures ClaimsLocked(Exec(s, actions))
    decreases |actions|
  {
    if actions != [] {
      NextKeepsClaimsLocked(s, actions[0]);
      RunsKeepClaimsLocked(Next(s, actions[0]), actions[1..]);
    }
  }

  /** Over any run from an empty schedule, two open transactions never have the same hold to consume. */
  lemma OneConsumerPerHold(s: State, actions: seq<Action>, t: nat, t': nat)
    requires Initial(s) && Run(s, actions) && t != t'
    requires t in Exec(s, actions).txns && t' in Exec(s, actions).txns
    requires Exec(s, actions).txns[t].claimed.Some?
    ensures Exec(s, actions).txns[t].claimed != Exec(s, actions).txns[t'].claimed
  {
    RunsKeepClaimsLocked(s, actions);
    var txns := Exec(s, actions).txns;
    assert txns[t].locks !! txns[t'].locks;
  }
}
