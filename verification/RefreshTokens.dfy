// Refresh-token rotation with reuse detection. A token is addressed by its row; its hash is taken to be unique.
// Transactions are split where they wait for row locks, so rotations and mass revocations interleave.

module RefreshTokens {
  import opened Options
  import opened Instants

  type UserId = nat

  /** from is the token this one replaced; a login starts a new lineage. */
  datatype Token = Token(user: UserId, revoked: bool, expiresAt: int, from: Option<nat>)

  /** An open transaction: one that has locked its unrevoked token and will rotate it, or one whose mass
      revocation has read which of the user's tokens are unrevoked (all below row count seen). */
  datatype Txn =
    | Rotating(token: nat)
    | Revoking(user: UserId, snapshot: set<nat>, seen: nat)

  datatype State = State(tokens: seq<Token>, txns: map<nat, Txn>, now: int)

  datatype Action =
    | Login(user: UserId)
    | Present(txn: nat, token: nat, user: UserId)
    | RevokeUser(txn: nat, user: UserId)
    | Commit(txn: nat)
    | Rollback(txn: nat)
    | Logout(token: nat)
    | Tick(later: int)

  function Unrevoked(tokens: seq<Token>, user: UserId): set<nat> {
    set k: nat | k < |tokens| && tokens[k].user == user && !tokens[k].revoked
  }

  predicate Locked(s: State, k: nat) {
    exists t :: t in s.txns && s.txns[t] == Rotating(k)
  }

  predicate AnyLocked(s: State, ks: set<nat>) {
    exists k :: k in ks && Locked(s, k)
  }

  function RevokedAll(tokens: seq<Token>, ks: set<nat>): seq<Token> {
    seq(|tokens|, i requires 0 <= i < |tokens| => if i in ks then tokens[i].(revoked := true) else tokens[i])
  }

  function Rotated(tokens: seq<Token>, k: nat, expiresAt: int): seq<Token>
    requires k < |tokens|
  {
    tokens[k := tokens[k].(revoked := true)] + [Token(tokens[k].user, false, expiresAt, Some(k))]
  }

  /** Row locks: a token being rotated can be neither presented, logged out nor mass-revoked until commit. */
  predicate Enabled(s: State, a: Action) {
    match a
    case Login(_) => true
    case Present(t, k, _) => t !in s.txns && !Locked(s, k)
    case RevokeUser(t, _) => t !in s.txns
    case Commit(t) => t in s.txns && (s.txns[t].Revoking? ==> !AnyLocked(s, s.txns[t].snapshot))
    case Rollback(t) => t in s.txns
    case Logout(k) => !Locked(s, k)
    case Tick(later) => later >= s.now
  }

  function Next(s: State, a: Action): State
    requires Enabled(s, a)
  {
    match a
    case Login(u) => s.(tokens := s.tokens + [Token(u, false, s.now + WEEK_MS, None)])
    case Present(t, k, u) =>
      if k >= |s.tokens| || s.tokens[k].user != u then s
      else if s.tokens[k].revoked then s.(txns := s.txns[t := Revoking(u, Unrevoked(s.tokens, u), |s.tokens|)])
      else if s.tokens[k].expiresAt < s.now then s
      else s.(txns := s.txns[t := Rotating(k)])
    case RevokeUser(t, u) => s.(txns := s.txns[t := Revoking(u, Unrevoked(s.tokens, u), |s.tokens|)])
    case Commit(t) =>
      var txn := s.txns[t];
      if txn.Rotating? then
        State(if txn.token < |s.tokens| then Rotated(s.tokens, txn.token, s.now + WEEK_MS) else s.tokens, s.txns - {t}, s.now)
      else State(RevokedAll(s.tokens, txn.snapshot), s.txns - {t}, s.now)
    case Rollback(t) => s.(txns := s.txns - {t})
    case Logout(k) => if k < |s.tokens| then s.(tokens := s.tokens[k := s.tokens[k].(revoked := true)]) else s
    case Tick(later) => s.(now := later)
  }

  ghost predicate Run(s: State, actions: seq<Action>)
    decreases |actions|
  {
    actions == [] || (Enabled(s, actions[0]) && Run(Next(s, actions[0]), actions[1..]))
  }

  ghost function Exec(s: State, actions: seq<Action>): State
    requires Run(s, actions)
    decreases |actions|
  {
    if actions == [] then s else Exec(Next(s, actions[0]), actions[1..])
  }

  // ---- The invariant ----

  /** Every replaced token is older, of the same user, and revoked. */
  predicate ReplacesRevoked(tokens: seq<Token>, i: nat)
    requires i < |tokens|
  {
    tokens[i].from.Some? ==>
      var k := tokens[i].from.value;
      k < i && tokens[k].revoked && tokens[k].user == tokens[i].user
  }

  predicate RotatedOnce(tokens: seq<Token>) {
    forall i, j :: 0 <= i < j < |tokens| && tokens[i].from.Some? ==> tokens[i].from != tokens[j].from
  }

  predicate TxnOk(tokens: seq<Token>, txn: Txn) {
    if txn.Rotating? then txn.token < |tokens| && !tokens[txn.token].revoked
    else
      txn.seen <= |tokens| &&
      forall k :: 0 <= k < txn.seen && tokens[k].user == txn.user && !tokens[k].revoked ==> k in txn.snapshot
  }

  predicate RowLocksHold(s: State) {
    forall t, t' :: t in s.txns && t' in s.txns && t != t' && s.txns[t].Rotating? ==> s.txns[t] != s.txns[t']
  }

  ghost predicate Inv(s: State) {
    && (forall i :: 0 <= i < |s.tokens| ==> ReplacesRevoked(s.tokens, i))
    && RotatedOnce(s.tokens)
    && (forall t :: t in s.txns ==> TxnOk(s.tokens, s.txns[t]))
    && RowLocksHold(s)
  }

  /** Tokens that only became revoked, with possibly more behind them. */
  predicate OnlyRevokes(tokens: seq<Token>, tokens': seq<Token>) {
    |tokens| <= |tokens'| &&
    forall i :: 0 <= i < |tokens| ==> tokens'[i] == tokens[i].(revoked := tokens'[i].revoked) && (tokens[i].revoked ==> tokens'[i].revoked)
  }

  lemma NextOnlyRevokes(s: State, a: Action)
    requires Enabled(s, a)
    ensures OnlyRevokes(s.tokens, Next(s, a).tokens)
  {
  }

  lemma NextKeepsLineage(s: State, a: Action)
    requires Inv(s) && Enabled(s, a)
    ensures forall i :: 0 <= i < |Next(s, a).tokens| ==> ReplacesRevoked(Next(s, a).tokens, i)
    ensures RotatedOnce(Next(s, a).tokens)
  {
    var tokens, tokens' := s.tokens, Next(s, a).tokens;
    NextOnlyRevokes(s, a);
    forall i | 0 <= i < |tokens'|
      ensures ReplacesRevoked(tokens', i)
    {
      if i < |tokens| { assert ReplacesRevoked(tokens, i); }
    }
    forall i, j | 0 <= i < j < |tokens'| && tokens'[i].from.Some?
      ensures tokens'[i].from != tokens'[j].from
    {
      assert ReplacesRevoked(tokens, i);
      if j == |tokens| && a.Commit? { assert TxnOk(tokens, s.txns[a.txn]); }
    }
  }

  lemma TxnStaysOk(s: State, a: Action, t: nat)
    requires Inv(s) && Enabled(s, a) && t in s.txns && t in Next(s, a).txns
    ensures TxnOk(Next(s, a).tokens, s.txns[t])
  {
    NextOnlyRevokes(s, a);
    assert TxnOk(s.tokens, s.txns[t]);
    if s.txns[t].Rotating? {
      assert Locked(s, s.txns[t].token);
      if a.Commit? && s.txns[a.txn].Revoking? { assert s.txns[t].token !in s.txns[a.txn].snapshot; }
    }
  }

  lemma NextKeepsInv(s: State, a: Action)
    requires Inv(s) && Enabled(s, a)
    ensures Inv(Next(s, a))
  {
    var s' := Next(s, a);
    NextKeepsLineage(s, a);
    forall t | t in s'.txns
      ensures TxnOk(s'.tokens, s'.txns[t])
    {
      if t in s.txns { TxnStaysOk(s, a, t); }
    }
    forall t, t' | t in s'.txns && t' in s'.txns && t != t' && s'.txns[t].Rotating?
      ensures s'.txns[t] != s'.txns[t']
    {
      if t in s.txns { assert Locked(s, s.txns[t].token); }
      if t' in s.txns && s.txns[t'].Rotating? { assert Locked(s, s.txns[t'].token); }
    }
  }

  predicate Initial(s: State) {
    s.tokens == [] && s.txns == map[]
  }

  lemma {:induction false} RunsKeepInv(s: State, actions: seq<Action>)
    requires Inv(s) && Run(s, actions)
    ensures Inv(Exec(s, actions))
    decreases |actions|
  {
    if actions != [] {
      NextKeepsInv(s, actions[0]);
      RunsKeepInv(Next(s, actions[0]), actions[1..]);
    }
  }

  // ---- One live token per login ----

  ghost predicate Linked(tokens: seq<Token>) {
    forall i :: 0 <= i < |tokens| ==> ReplacesRevoked(tokens, i)
  }

  /** The login a token descends from. */
  ghost function Root(tokens: seq<Token>, i: nat): nat
    requires Linked(tokens) && i < |tokens|
    decreases i
  {
    assert ReplacesRevoked(tokens, i);
    if tokens[i].from.None? then i else Root(tokens, tokens[i].from.value)
  }

  lemma {:induction false} RootIsFirst(tokens: seq<Token>, i: nat)
    requires Linked(tokens) && i < |tokens|
    ensures Root(tokens, i) <= i && tokens[Root(tokens, i)].from.None?
    decreases i
  {
    assert ReplacesRevoked(tokens, i);
    if tokens[i].from.Some? { RootIsFirst(tokens, tokens[i].from.value); }
  }

  /** Of two tokens of one lineage, the older one has been replaced. */
  lemma {:induction false} OlderWasReplaced(tokens: seq<Token>, a: nat, b: nat) returns (c: nat)
    requires Linked(tokens) && RotatedOnce(tokens)
    requires a < b < |tokens| && Root(tokens, a) == Root(tokens, b)
    ensures a < c <= b && tokens[c].from == Some(a)
    decreases b
  {
    RootIsFirst(tokens, a);
    assert ReplacesRevoked(tokens, b);
    var p := tokens[b].from.value;
    if p == a {
      c := b;
    } else if p > a {
      c := OlderWasReplaced(tokens, a, p);
    } else {
      c := OlderWasReplaced(tokens, p, a);
      assert false;
    }
  }

  /** Under any interleaving of logins, refreshes, logouts and mass revocations, each login has at most one
      unrevoked token, and no token is ever rotated twice. */
  lemma OneLiveTokenPerLogin(s: State, actions: seq<Action>, i: nat, j: nat)
    requires Initial(s) && Run(s, actions)
    ensures Linked(Exec(s, actions).tokens)
    ensures var tokens := Exec(s, actions).tokens;
      && (i < j < |tokens| && Root(tokens, i) == Root(tokens, j) ==> tokens[i].revoked)
      && (i < j < |tokens| && tokens[i].from.Some? ==> tokens[i].from != tokens[j].from)
  {
    RunsKeepInv(s, actions);
    var tokens := Exec(s, actions).tokens;
    if i < j < |tokens| && Root(tokens, i) == Root(tokens, j) {
      var c := OlderWasReplaced(tokens, i, j);
      assert ReplacesRevoked(tokens, c);
    }
  }

  // ---- Reuse detection ----

  /** When the revocation that a reused token triggers commits, every token the user had when it read them is
      revoked; an unrevoked one was created after that. */
  lemma RevocationReachesAllSeen(s: State, actions: seq<Action>, t: nat)
    requires Initial(s) && Run(s, actions) && t in Exec(s, actions).txns
    requires Exec(s, actions).txns[t].Revoking? && Enabled(Exec(s, actions), Commit(t))
    ensures var s' := Exec(s, actions); var tokens := Next(s', Commit(t)).tokens;
      forall k :: 0 <= k < s'.txns[t].seen && k < |tokens| && tokens[k].user == s'.txns[t].user ==> tokens[k].revoked
  {
    RunsKeepInv(s, actions);
    assert TxnOk(Exec(s, actions).tokens, Exec(s, actions).txns[t]);
  }

  // ---- What decides whether a token survives the revocation ----

  /** Some refresh of one of the user's tokens has passed its check and is about to rotate it. */
  predicate RotationOpen(s: State, u: UserId) {
    exists t :: t in s.txns && s.txns[t].Rotating? && s.txns[t].token < |s.tokens| && s.tokens[s.txns[t].token].user == u
  }

  /** Nothing new is started for user u, and transaction t is neither committed nor rolled back. */
  predicate LeavesAlone(a: Action, u: UserId, t: nat) {
    match a
    case Login(v) => v != u
    case Present(_, _, v) => v != u
    case Commit(t') => t' != t
    case Rollback(t') => t' != t
    case _ => true
  }

  predicate AllLeaveAlone(actions: seq<Action>, u: UserId, t: nat) {
    forall i :: 0 <= i < |actions| ==> LeavesAlone(actions[i], u, t)
  }

  /** However the transactions already open go on, no token of u outlives the revocation of transaction t. */
  ghost predicate AlwaysReachesAll(s: State, u: UserId, t: nat) {
    forall actions: seq<Action> :: Run(s, actions) && AllLeaveAlone(actions, u, t) && Enabled(Exec(s, actions), Commit(t)) ==>
      Unrevoked(Next(Exec(s, actions), Commit(t)).tokens, u) == {}
  }

  /** The revocation is open, no rotation of u is, and u has no token it has not seen. */
  ghost predicate Cornered(s: State, u: UserId, t: nat) {
    && Inv(s) && t in s.txns && s.txns[t].Revoking? && s.txns[t].user == u && !RotationOpen(s, u)
    && forall k :: s.txns[t].seen <= k < |s.tokens| ==> s.tokens[k].user != u
  }

  lemma NextStaysCornered(s: State, a: Action, u: UserId, t: nat)
    requires Cornered(s, u, t) && Enabled(s, a) && LeavesAlone(a, u, t)
    ensures Cornered(Next(s, a), u, t)
  {
    var s' := Next(s, a);
    NextKeepsInv(s, a);
    NextOnlyRevokes(s, a);
    assert s'.txns[t] == s.txns[t];
    if a.Commit? && s.txns[a.txn].Rotating? {
      assert TxnOk(s.tokens, s.txns[a.txn]);
      assert s.tokens[s.txns[a.txn].token].user != u;
    }
    forall t' | t' in s'.txns && s'.txns[t'].Rotating? && s'.txns[t'].token < |s'.tokens|
      ensures s'.tokens[s'.txns[t'].token].user != u
    {
      if t' in s.txns { assert TxnOk(s.tokens, s.txns[t']); }
    }
  }

  lemma {:induction false} StaysCornered(s: State, actions: seq<Action>, u: UserId, t: nat)
    requires Cornered(s, u, t) && Run(s, actions) && AllLeaveAlone(actions, u, t)
    ensures Cornered(Exec(s, actions), u, t)
    decreases |actions|
  {
    if actions != [] {
      NextStaysCornered(s, actions[0], u, t);
      StaysCornered(Next(s, actions[0]), actions[1..], u, t);
    }
  }

  lemma CorneredMeansAll(s: State, u: UserId, t: nat)
    requires Cornered(s, u, t) && Enabled(s, Commit(t))
    ensures Unrevoked(Next(s, Commit(t)).tokens, u) == {}
  {
    assert TxnOk(s.tokens, s.txns[t]);
  }

  lemma {:induction false} RunConcat(s: State, a: seq<Action>, b: seq<Action>)
    requires Run(s, a) && Run(Exec(s, a), b)
    ensures Run(s, a + b) && Exec(s, a + b) == Exec(Exec(s, a), b)
    decreases |a|
  {
    if a == [] {
      assert a + b == b;
    } else {
      assert (a + b)[1..] == a[1..] + b;
      RunConcat(Next(s, a[0]), a[1..], b);
    }
  }

  /** Everybody else gives up, so that nothing is in the revocation's way. */
  lemma {:induction false} OthersRollBack(s: State, u: UserId, t: nat) returns (actions: seq<Action>)
    requires t in s.txns && s.txns[t].Revoking?
    ensures Run(s, actions) && AllLeaveAlone(actions, u, t)
    ensures Exec(s, actions) == s.(txns := map[t := s.txns[t]]) && Enabled(Exec(s, actions), Commit(t))
    decreases |s.txns|
  {
    if t' :| t' in s.txns && t' != t {
      var s' := Next(s, Rollback(t'));
      assert s'.txns.Keys == s.txns.Keys - {t'} && |s'.txns.Keys| < |s.txns.Keys|;
      var rest := OthersRollBack(s', u, t);
      RunCons(s, Rollback(t'), rest);
      actions := [Rollback(t')] + rest;
    } else {
      assert s.txns == map[t := s.txns[t]];
      actions := [];
    }
  }

  /** An open rotation commits before the revocation, whose list of tokens is already read. */
  lemma OpenRotationEscapes(s: State, u: UserId, t: nat) returns (actions: seq<Action>)
    requires Inv(s) && RotationOpen(s, u)
    requires t in s.txns && s.txns[t].Revoking? && s.txns[t].snapshot == Unrevoked(s.tokens, u)
    ensures Run(s, actions) && AllLeaveAlone(actions, u, t) && Enabled(Exec(s, actions), Commit(t))
    ensures Unrevoked(Next(Exec(s, actions), Commit(t)).tokens, u) != {}
  {
    var r :| r in s.txns && s.txns[r].Rotating? && s.txns[r].token < |s.tokens| && s.tokens[s.txns[r].token].user == u;
    var s' := Next(s, Commit(r));
    var rest := OthersRollBack(s', u, t);
    RunCons(s, Commit(r), rest);
    actions := [Commit(r)] + rest;
    var escaped := |s.tokens|;
    assert escaped !in s.txns[t].snapshot;
    assert escaped in Unrevoked(Next(Exec(s, actions), Commit(t)).tokens, u);
  }

  /** A revoked token of u is presented in any reachable state. However everything already under way goes on, no
      token of u survives the revocation this triggers, if and only if no rotation of u is under way right now. */
  lemma NobodySurvivesIff(s: State, t: nat, k: nat, u: UserId)
    requires Inv(s) && Enabled(s, Present(t, k, u))
    requires k < |s.tokens| && s.tokens[k].user == u && s.tokens[k].revoked
    ensures AlwaysReachesAll(Next(s, Present(t, k, u)), u, t) <==> !RotationOpen(s, u)
  {
    var s' := Next(s, Present(t, k, u));
    NextKeepsInv(s, Present(t, k, u));
    if RotationOpen(s, u) {
      var r :| r in s.txns && s.txns[r].Rotating? && s.txns[r].token < |s.tokens| && s.tokens[s.txns[r].token].user == u;
      assert s'.txns[r] == s.txns[r];
      var actions := OpenRotationEscapes(s', u, t);
    } else {
      assert Cornered(s', u, t);
      forall actions: seq<Action> |
        Run(s', actions) && AllLeaveAlone(actions, u, t) && Enabled(Exec(s', actions), Commit(t))
        ensures Unrevoked(Next(Exec(s', actions), Commit(t)).tokens, u) == {}
      {
        StaysCornered(s', actions, u, t);
        CorneredMeansAll(Exec(s', actions), u, t);
      }
    }
  }

  /** Served without interruption, presenting a revoked token leaves its user no unrevoked token. */
  lemma ReuseRevokesEverything(s: State, t: nat, k: nat, u: UserId)
    requires k < |s.tokens| && s.tokens[k].user == u && s.tokens[k].revoked && s.txns == map[]
    ensures Enabled(s, Present(t, k, u)) && Enabled(Next(s, Present(t, k, u)), Commit(t))
    ensures var s' := Next(Next(s, Present(t, k, u)), Commit(t));
      Unrevoked(s'.tokens, u) == {} && s'.txns == map[] && |s'.tokens| == |s.tokens|
    ensures var s' := Next(Next(s, Present(t, k, u)), Commit(t));
      forall i :: 0 <= i < |s.tokens| && s.tokens[i].user != u ==> s'.tokens[i] == s.tokens[i]
  {
    assert Next(s, Present(t, k, u)).txns - {t} == map[];
  }

  lemma RunCons(s: State, a: Action, rest: seq<Action>)
    requires Enabled(s, a) && Run(Next(s, a), rest)
    ensures Run(s, [a] + rest) && Exec(s, [a] + rest) == Exec(Next(s, a), rest)
  {
    assert ([a] + rest)[1..] == rest;
  }

  /** The tokens of two logins, the first already rotated. */
  function TokensAfterRotation(u: UserId, e: int): seq<Token> {
    [Token(u, true, e, None), Token(u, false, e, None), Token(u, false, e, Some(0))]
  }

  /** Two logins, and the first's token is rotated. */
  lemma LoginsAndRotation(s: State, u: UserId, rest: seq<Action>)
    requires Initial(s) && Run(State(TokensAfterRotation(u, s.now + WEEK_MS), map[], s.now), rest)
    ensures var actions := [Login(u)] + ([Login(u)] + ([Present(0, 0, u)] + ([Commit(0)] + rest)));
      Run(s, actions) && Exec(s, actions) == Exec(State(TokensAfterRotation(u, s.now + WEEK_MS), map[], s.now), rest)
  {
    var live := Token(u, false, s.now + WEEK_MS, None);
    var s1, s2 := State([live], map[], s.now), State([live, live], map[], s.now);
    var s3 := State([live, live], map[0 := Rotating(0)], s.now);
    assert Next(s, Login(u)) == s1 && Next(s1, Login(u)) == s2 && Next(s2, Present(0, 0, u)) == s3;
    assert Next(s3, Commit(0)) == State(TokensAfterRotation(u, s.now + WEEK_MS), map[], s.now);
    RunCons(s3, Commit(0), rest);
    RunCons(s2, Present(0, 0, u), [Commit(0)] + rest);
    RunCons(s1, Login(u), [Present(0, 0, u)] + ([Commit(0)] + rest));
    RunCons(s, Login(u), [Login(u)] + ([Present(0, 0, u)] + ([Commit(0)] + rest)));
  }

  /** The second login is about to rotate when the first's old token is replayed. */
  lemma ReplayDuringRotation(s: State, u: UserId)
    requires Initial(s)
    ensures var actions := [Login(u)] + ([Login(u)] + ([Present(0, 0, u)] + ([Commit(0)] + ([Present(1, 1, u)] + ([Present(2, 0, u)] + [])))));
      Run(s, actions) &&
      Exec(s, actions) == State(TokensAfterRotation(u, s.now + WEEK_MS), map[1 := Rotating(1), 2 := Revoking(u, {1, 2}, 3)], s.now)
  {
    var rows := TokensAfterRotation(u, s.now + WEEK_MS);
    var s4, s5 := State(rows, map[], s.now), State(rows, map[1 := Rotating(1)], s.now);
    assert Next(s4, Present(1, 1, u)) == s5 && Unrevoked(rows, u) == {1, 2};
    RunCons(s5, Present(2, 0, u), []);
    RunCons(s4, Present(1, 1, u), [Present(2, 0, u)] + []);
    LoginsAndRotation(s, u, [Present(1, 1, u)] + ([Present(2, 0, u)] + []));
  }

  /** A refresh that is already under way when a stolen token is replayed escapes the revocation: its new token
      is created after the revocation read the user's tokens. */
  lemma RotationUnderWayEscapes(s: State, u: UserId) returns (actions: seq<Action>, s': State)
    requires Initial(s)
    ensures Run(s, actions) && Exec(s, actions) == s'
    ensures 2 in s'.txns && s'.txns[2].Revoking? && s'.txns[2].user == u
    ensures Enabled(s', Commit(1)) && Enabled(Next(s', Commit(1)), Commit(2))
    ensures Unrevoked(Next(Next(s', Commit(1)), Commit(2)).tokens, u) != {}
  {
    ReplayDuringRotation(s, u);
    actions := [Login(u)] + ([Login(u)] + ([Present(0, 0, u)] + ([Commit(0)] + ([Present(1, 1, u)] + ([Present(2, 0, u)] + [])))));
    s' := Exec(s, actions);
    var after := Next(s', Commit(1));
    assert after.txns == map[2 := Revoking(u, {1, 2}, 3)];
    assert 3 in Unrevoked(Next(after, Commit(2)).tokens, u);
  }
}
