// login, refresh, logout and the mass revocation of resetPassword and setUserStatus, one call at a time.

module Sessions {
  import opened Options
  import opened Instants
  import opened RefreshTokens

  datatype Outcome = RotatedInto(token: nat) | Reused | Invalid

  /** A refresh that nothing interrupts: its transaction opens, if it does, and commits. */
  function Refreshed(tokens: seq<Token>, now: int, k: nat, u: UserId): seq<Token> {
    var s := State(tokens, map[], now);
    var open := Next(s, Present(0, k, u));
    if 0 in open.txns && Enabled(open, Commit(0)) then Next(open, Commit(0)).tokens else open.tokens
  }

  lemma RefreshedCases(tokens: seq<Token>, now: int, k: nat, u: UserId)
    ensures Refreshed(tokens, now, k, u) ==
      if k >= |tokens| || tokens[k].user != u then tokens
      else if tokens[k].revoked then RevokedAll(tokens, Unrevoked(tokens, u))
      else if tokens[k].expiresAt < now then tokens
      else Rotated(tokens, k, now + WEEK_MS)
  {
    var s := State(tokens, map[], now);
    var open := Next(s, Present(0, k, u));
    if 0 in open.txns && open.txns[0].Revoking? {
      assert Enabled(open, Commit(0));
    }
  }

  /** Every token of the user is revoked and nothing else changed. */
  predicate RevokedFor(was: seq<Token>, are: seq<Token>, u: UserId) {
    |are| == |was| && forall i :: 0 <= i < |was| ==> (are[i] == if was[i].user == u then was[i].(revoked := true) else was[i])
  }

  function RevokedBelow(tokens: seq<Token>, u: UserId, n: nat): set<nat>
    requires n <= |tokens|
  {
    set i: nat | i < n && tokens[i].user == u && !tokens[i].revoked
  }

  lemma RevokedBelowNext(tokens: seq<Token>, u: UserId, n: nat)
    requires n < |tokens|
    ensures |RevokedBelow(tokens, u, n + 1)| == |RevokedBelow(tokens, u, n)| + if tokens[n].user == u && !tokens[n].revoked then 1 else 0
  {
    if tokens[n].user == u && !tokens[n].revoked {
      assert RevokedBelow(tokens, u, n + 1) == RevokedBelow(tokens, u, n) + {n};
    } else {
      assert RevokedBelow(tokens, u, n + 1) == RevokedBelow(tokens, u, n);
    }
  }

  class Store {
    var tokens: seq<Token>
    var now: int

    method Login(u: UserId) returns (k: nat)
      modifies this`tokens
      ensures State(tokens, map[], now) == Next(State(old(tokens), map[], now), RefreshTokens.Login(u))
      ensures k == |old(tokens)| && tokens == old(tokens) + [Token(u, false, now + 7 * 24 * 3600000, None)]
    {
      tokens := tokens + [Token(u, false, now + WEEK_MS, None)];
      return |tokens| - 1;
    }

    /** UPDATE ... WHERE user_id = u AND revoked_at IS NULL */
    method RevokeAllOf(u: UserId) returns (revoked: nat)
      modifies this`tokens
      ensures tokens == RevokedAll(old(tokens), Unrevoked(old(tokens), u))
      ensures Unrevoked(tokens, u) == {}
      ensures RevokedFor(old(tokens), tokens, u)
      ensures revoked == |set i: nat | i < |old(tokens)| && old(tokens)[i].user == u && !old(tokens)[i].revoked|
    {
      revoked := 0;
      ghost var before := tokens;
      for i := 0 to |tokens|
        invariant |tokens| == |before|
        invariant forall j :: 0 <= j < i ==> tokens[j] == if before[j].user == u then before[j].(revoked := true) else before[j]
        invariant forall j :: i <= j < |tokens| ==> tokens[j] == before[j]
        invariant revoked == |RevokedBelow(before, u, i)|
      {
        RevokedBelowNext(before, u, i);
        if tokens[i].user == u && !tokens[i].revoked {
          tokens := tokens[i := tokens[i].(revoked := true)];
          revoked := revoked + 1;
        }
      }
      assert tokens == RevokedAll(before, Unrevoked(before, u));
      assert RevokedBelow(before, u, |before|) == set i: nat | i < |before| && before[i].user == u && !before[i].revoked;
    }

    method Refresh(k: nat, u: UserId) returns (outcome: Outcome)
      modifies this`tokens
      ensures tokens == Refreshed(old(tokens), now, k, u)
      ensures outcome == Reused <==> k < |old(tokens)| && old(tokens)[k].user == u && old(tokens)[k].revoked
      ensures outcome == Reused ==> RevokedFor(old(tokens), tokens, u)
      ensures outcome.RotatedInto? <==>
        k < |old(tokens)| && old(tokens)[k].user == u && !old(tokens)[k].revoked && old(tokens)[k].expiresAt >= now
      ensures outcome.RotatedInto? ==>
        && outcome.token == |old(tokens)|
        && tokens == old(tokens)[k := old(tokens)[k].(revoked := true)] + [Token(u, false, now + 7 * 24 * 3600000, Some(k))]
      ensures outcome == Invalid ==> tokens == old(tokens)
    {
      RefreshedCases(tokens, now, k, u);
      if k >= |tokens| || tokens[k].user != u { return Invalid; }
      var stored := tokens[k];
      if stored.revoked {
        var _ := RevokeAllOf(u);
        return Reused;
      }
      if stored.expiresAt < now { return Invalid; }
      tokens := tokens[k := stored.(revoked := true)];
      tokens := tokens + [Token(u, false, now + WEEK_MS, Some(k))];
      return RotatedInto(|tokens| - 1);
    }

    /** Revokes the presented token only; an unknown one changes nothing. */
    method Logout(k: nat)
      modifies this`tokens
      ensures tokens == if k < |old(tokens)| then old(tokens)[k := old(tokens)[k].(revoked := true)] else old(tokens)
      ensures State(tokens, map[], now) == Next(State(old(tokens), map[], now), RefreshTokens.Logout(k))
    {
      if k < |tokens| { tokens := tokens[k := tokens[k].(revoked := true)]; }
    }
  }
}
