// A request served with nobody else around: what it does to the tables, as one step. Built from the same
// statements as the interleaved machine, and used to exhibit concrete runs of that machine.

module Serving {
  import opened Options
  import opened Schedule
  import opened Interleaving

  ghost predicate AllPass(db: Tables, stmts: seq<Stmt>) {
    forall st :: st in stmts ==> Passes(db, db.now, st)
  }

  /** The transaction after all its statements, on tables nobody else changes. */
  ghost function Ran(db: Tables, txn: Txn): Txn
    decreases |txn.todo|
  {
    if txn.todo == [] then txn else Ran(db, Executed(db, txn))
  }

  function Started(db: Tables, req: Request): Txn {
    Txn(req, db.now, {}, Program(req, db.courts, db.now), {}, None)
  }

  /** What a request does when served alone: everything it claims, or nothing. */
  ghost function Served(db: Tables, req: Request): Tables {
    if AllPass(db, Program(req, db.courts, db.now)) then Committed(db, Ran(db, Started(db, req))) else db
  }

  // ---- Runs of one transaction ----

  function Steps(t: nat, n: nat): seq<Action> {
    seq(n, _ => Step(t))
  }

  lemma {:induction false} RunConcat(s: State, a: seq<Action>, b: seq<Action>)
    requires Run(s, a) && Run(Exec(s, a), b)
    ensures Run(s, a + b) && Exec(s, a + b) == Exec(Exec(s, a), b)
    decreases |a|
  {
    if a == [] {
      assert a + b == b;
    } else {
      assert (a + b)[1..] == a[1..] + b;
      RunConcat(Next(s, a[0]), a[1..], b);
    }
  }

  predicate OthersHoldNothing(s: State, t: nat) {
    forall t' :: t' in s.txns && t' != t ==> s.txns[t'].locks == {}
  }

  lemma RunOne(s: State, a: Action)
    requires Enabled(s, a)
    ensures Run(s, [a]) && Exec(s, [a]) == Next(s, a)
  {
    assert [a][1..] == [];
    assert Run(Next(s, a), [a][1..]);
  }

  lemma {:induction false} AllStepsPass(s: State, t: nat)
    requires t in s.txns && s.txns[t].began == s.db.now && OthersHoldNothing(s, t) && AllPass(s.db, s.txns[t].todo)
    ensures Run(s, Steps(t, |s.txns[t].todo|))
    ensures Exec(s, Steps(t, |s.txns[t].todo|)) == s.(txns := s.txns[t := Ran(s.db, s.txns[t])])
    decreases |s.txns[t].todo|
  {
    var txn := s.txns[t];
    if txn.todo == [] {
      assert s.txns[t := txn] == s.txns;
    } else {
      var s', steps := Next(s, Step(t)), Steps(t, |txn.todo|);
      assert s'.txns[t] == Executed(s.db, txn) && Enabled(s, steps[0]);
      AllStepsPass(s', t);
      assert steps[1..] == Steps(t, |s'.txns[t].todo|);
      assert s.txns[t := Ran(s.db, txn)] == s'.txns[t := Ran(s.db, txn)];
    }
  }

  /** The first failing statement rolls the transaction back. */
  lemma {:induction false} SomeStepFails(s: State, t: nat) returns (n: nat)
    requires t in s.txns && s.txns[t].began == s.db.now && OthersHoldNothing(s, t) && !AllPass(s.db, s.txns[t].todo)
    ensures Run(s, Steps(t, n)) && Exec(s, Steps(t, n)) == s.(txns := s.txns - {t})
    decreases |s.txns[t].todo|
  {
    var txn, s' := s.txns[t], Next(s, Step(t));
    if Passes(s.db, s.db.now, txn.todo[0]) {
      assert forall st :: st in txn.todo ==> st == txn.todo[0] || st in txn.todo[1..];
      var n' := SomeStepFails(s', t);
      n := n' + 1;
      assert Steps(t, n)[1..] == Steps(t, n');
      assert s'.txns - {t} == s.txns - {t};
    } else {
      n := 1;
      assert Steps(t, 1) == [Step(t)];
      RunOne(s, Step(t));
    }
  }

  lemma {:induction false} RanKeepsRequest(db: Tables, txn: Txn)
    ensures Ran(db, txn).todo == [] && Ran(db, txn).req == txn.req && Ran(db, txn).began == txn.began
    decreases |txn.todo|
  {
    if txn.todo != [] { RanKeepsRequest(db, Executed(db, txn)); }
  }

  /** Served alone, a request always finishes, and commits all its rows exactly when every statement passes. */
  lemma ServedAlone(s: State, t: nat, req: Request) returns (actions: seq<Action>)
    requires s.txns == map[]
    ensures Run(s, actions) && Exec(s, actions) == State(Served(s.db, req), map[])
    ensures |actions| > 0 && actions[0] == Begin(t, req) && forall i :: 1 <= i < |actions| ==> actions[i] == Step(t)
  {
    var begin := [Begin(t, req)];
    var s' := Next(s, Begin(t, req));
    RunOne(s, Begin(t, req));
    if AllPass(s.db, s'.txns[t].todo) {
      var n := |s'.txns[t].todo|;
      AllStepsPass(s', t);
      var ran := Exec(s', Steps(t, n));
      RanKeepsRequest(s.db, s'.txns[t]);
      assert Enabled(ran, Step(t)) by { assert Wanted(ran.db, ran.txns[t]) == {}; }
      RunOne(ran, Step(t));
      RunConcat(s', Steps(t, n), [Step(t)]);
      RunConcat(s, begin, Steps(t, n) + [Step(t)]);
      actions := begin + (Steps(t, n) + [Step(t)]);
      assert Next(ran, Step(t)).txns == map[];
    } else {
      var n := SomeStepFails(s', t);
      RunConcat(s, begin, Steps(t, n));
      actions := begin + Steps(t, n);
      assert s'.txns - {t} == map[];
    }
  }
}
