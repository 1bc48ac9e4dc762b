// What every run of recorded results keeps, from a freshly generated draw to the champion.

module BracketRuns {
  import opened Options
  import opened Seeding
  import opened Bracket

  // ---- What a draw satisfies at every moment ----

  /** A draw for n teams over k rounds: k is the least number of rounds that fits them. */
  ghost predicate Fits(teams: seq<TeamId>, k: nat) {
    Distinct(teams) && |teams| >= 2 && k == RoundsFor(|teams|)
  }

  /** Round 1 holds the teams as drawn. A later slot is filled exactly when its feeder is decided,
      and then with the feeder's winner. */
  ghost predicate FedAt(d: Draw, teams: seq<TeamId>, k: nat, pl: Place)
    requires InBracket(k, pl) && pl in d.matches
  {
    var m := d.matches[pl];
    if pl.round == 1 then
      m.team1 == SlotTeam(teams, k, 2 * pl.position - 2) && m.team2 == SlotTeam(teams, k, 2 * pl.position - 1)
    else
      && Feeder1(pl) in d.matches && m.team1 == d.matches[Feeder1(pl)].winner
      && Feeder2(pl) in d.matches && m.team2 == d.matches[Feeder2(pl)].winner
  }

  ghost predicate Structured(d: Draw, teams: seq<TeamId>, k: nat) {
    && Fits(teams, k)
    && HasRounds(d.matches, k)
    && forall pl {:trigger FedAt(d, teams, k, pl)} :: InBracket(k, pl) && pl in d.matches ==> FedAt(d, teams, k, pl)
  }

  /** A winner is one of the match's own two teams. */
  predicate WinnerPlayed(m: Match) {
    m.winner.Some? ==> m.winner == m.team1 || m.winner == m.team2
  }

  ghost predicate WinnersPlayed(d: Draw) {
    forall pl :: pl in d.matches ==> WinnerPlayed(d.matches[pl])
  }

  /** Only a first-round bye is decided with a team missing, and every such bye is decided. */
  predicate ByeSettled(m: Match, round: nat) {
    m.team1.None? || m.team2.None? ==> (round == 1 <==> m.winner.Some?)
  }

  ghost predicate ByesSettled(d: Draw) {
    forall pl :: pl in d.matches ==> ByeSettled(d.matches[pl], pl.round)
  }

  predicate Decided(d: Draw, pl: Place) {
    pl in d.matches && d.matches[pl].winner.Some?
  }

  predicate Playable(d: Draw, pl: Place) {
    pl in d.matches && d.matches[pl].winner.None? && d.matches[pl].team1.Some? && d.matches[pl].team2.Some?
  }

  ghost predicate DrawnSound(d: Draw, teams: seq<TeamId>, k: nat) {
    Structured(d, teams, k) && WinnersPlayed(d)
  }

  ghost predicate Sound(d: Draw, teams: seq<TeamId>, k: nat) {
    && DrawnSound(d, teams, k)
    && ByesSettled(d)
    && (d.status == Completed <==> Decided(d, Place(k, 1)))
  }

  // ---- The generated draw ----

  lemma GeneratedSlots(teams: seq<TeamId>, k: nat, p: nat)
    requires Fits(teams, k) && 1 <= k && 1 <= p <= Pow2(k - 1)
    ensures SlotTeam(teams, k, 2 * p - 2).Some? || SlotTeam(teams, k, 2 * p - 1).Some?
    ensures SlotTeam(teams, k, 2 * p - 2).None? || SlotTeam(teams, k, 2 * p - 1).None? <==>
      p - 1 in PairsWithSeedUpTo(k, Pow2(k) - |teams|)
  {
    ByesGoToTopSeeds(|teams|, p - 1);
  }

  /** Two teams leave no bye. */
  lemma FinalOnlySlots(teams: seq<TeamId>)
    requires Fits(teams, 1)
    ensures SlotTeam(teams, 1, 0).Some? && SlotTeam(teams, 1, 1).Some?
  {
    assert Pow2(0) == 1 && Pow2(1) == 2;
    assert SeedsWithin(SeedOrder(1), 2);
  }

  lemma FirstRoundSettled(teams: seq<TeamId>, k: nat, p: nat)
    requires Fits(teams, k) && 1 <= k && 1 <= p <= Pow2(k - 1)
    ensures WinnerPlayed(FirstRoundMatch(teams, k, p)) && ByeSettled(FirstRoundMatch(teams, k, p), 1)
  {
    if k == 1 {
      assert Pow2(0) == 1;
      FinalOnlySlots(teams);
    } else {
      GeneratedSlots(teams, k, p);
    }
  }

  lemma FirstRoundRow(d: Draw, teams: seq<TeamId>, k: nat, pl: Place)
    requires Fits(teams, k) && IsGenerated(d.matches, teams, k) && InBracket(k, pl) && pl.round == 1
    ensures FedAt(d, teams, k, pl) && WinnerPlayed(d.matches[pl]) && ByeSettled(d.matches[pl], 1)
  {
    assert d.matches[pl] == FirstRoundMatch(teams, k, pl.position);
    FirstRoundSettled(teams, k, pl.position);
  }

  lemma LaterRow(d: Draw, teams: seq<TeamId>, k: nat, pl: Place)
    requires Fits(teams, k) && IsGenerated(d.matches, teams, k) && InBracket(k, pl) && pl.round >= 2
    ensures FedAt(d, teams, k, pl) && WinnerPlayed(d.matches[pl]) && ByeSettled(d.matches[pl], pl.round)
  {
    var f1, f2 := Feeder1(pl), Feeder2(pl);
    FeedersInside(k, pl);
    var m := GeneratedMatch(teams, k, pl);
    assert d.matches[pl] == m && d.matches[f1] == GeneratedMatch(teams, k, f1) && d.matches[f2] == GeneratedMatch(teams, k, f2);
    assert m.team1 == GeneratedMatch(teams, k, f1).winner;
    assert m.team2 == GeneratedMatch(teams, k, f2).winner;
    assert m.winner.None?;
  }

  lemma FeedersInside(k: nat, pl: Place)
    requires InBracket(k, pl) && pl.round >= 2
    ensures InBracket(k, Feeder1(pl)) && InBracket(k, Feeder2(pl))
  {
  }

  lemma RoundsPositive(teams: seq<TeamId>, k: nat)
    requires Fits(teams, k)
    ensures k >= 1 && InBracket(k, Place(k, 1)) && Pow2(k - 1) < |teams| <= Pow2(k)
    ensures forall pl :: InBracket(k, pl) && pl.round == k ==> pl == Place(k, 1)
  {
    assert Pow2(0) == 1;
  }

  lemma GeneratedIsSound(d: Draw, teams: seq<TeamId>, k: nat)
    requires Fits(teams, k) && IsGenerated(d.matches, teams, k) && d.status == InProgress
    ensures Sound(d, teams, k)
  {
    RoundsPositive(teams, k);
    forall pl | pl in d.matches
      ensures FedAt(d, teams, k, pl) && WinnerPlayed(d.matches[pl]) && ByeSettled(d.matches[pl], pl.round)
    {
      if pl.round == 1 { FirstRoundRow(d, teams, k, pl); } else { LaterRow(d, teams, k, pl); }
    }
    var final := Place(k, 1);
    assert d.matches[final] == GeneratedMatch(teams, k, final);
  }

  // ---- One recorded result ----

  /** Row by row, what a result changes. */
  lemma AfterRow(d: Draw, k: nat, pl: Place, w: TeamId, s1: Option<nat>, s2: Option<nat>, q: Place)
    requires HasRounds(d.matches, k) && Legal(d, pl, w) && q in d.matches
    ensures var d' := AfterResult(d, pl, w, s1, s2);
      && d'.matches.Keys == d.matches.Keys
      && d'.matches[q] ==
        if q == pl then d.matches[q].(winner := Some(w), score1 := s1, score2 := s2)
        else if q == Parent(pl) then Advance(d.matches[q], pl.position, w)
        else d.matches[q]
    ensures Parent(pl) in d.matches <==> pl.round < k
  {
    assert InBracket(k, pl);
    ParentFeeders(k, pl);
  }

  lemma ParentFeeders(k: nat, pl: Place)
    requires InBracket(k, pl)
    ensures pl.round < k <==> InBracket(k, Parent(pl))
    ensures pl == if pl.position % 2 == 1 then Feeder1(Parent(pl)) else Feeder2(Parent(pl))
  {
    assert Pow2(0) == 1;
  }

  lemma OnlyParentIsFed(pl: Place, q: Place)
    requires q.round >= 2 && q.position >= 1
    ensures Feeder1(q) == pl <==> q == Parent(pl) && pl.round >= 1 && pl.position % 2 == 1
    ensures Feeder2(q) == pl <==> q == Parent(pl) && pl.round >= 1 && pl.position % 2 == 0
  {
  }

  /** Slots keep mirroring their feeders under any legal result, even one that re-records a decided match. */
  lemma RecordKeepsStructure(d: Draw, teams: seq<TeamId>, k: nat, pl: Place, w: TeamId, s1: Option<nat>, s2: Option<nat>)
    requires Structured(d, teams, k) && Legal(d, pl, w)
    ensures Structured(AfterResult(d, pl, w, s1, s2), teams, k)
  {
    var d' := AfterResult(d, pl, w, s1, s2);
    AfterRow(d, k, pl, w, s1, s2, pl);
    forall q | InBracket(k, q) && q in d'.matches
      ensures FedAt(d', teams, k, q)
    {
      assert FedAt(d, teams, k, q);
      AfterRow(d, k, pl, w, s1, s2, q);
      if q.round >= 2 {
        OnlyParentIsFed(pl, q);
        AfterRow(d, k, pl, w, s1, s2, Feeder1(q));
        AfterRow(d, k, pl, w, s1, s2, Feeder2(q));
      }
    }
  }

  /** Exactly when a legal result leaves every decided match with a winner that plays in it:
      it must not displace the winner of the match above. */
  lemma RecordKeepsWinnersIff(d: Draw, teams: seq<TeamId>, k: nat, pl: Place, w: TeamId, s1: Option<nat>, s2: Option<nat>)
    requires DrawnSound(d, teams, k) && Legal(d, pl, w)
    ensures WinnersPlayed(AfterResult(d, pl, w, s1, s2)) <==>
      (Decided(d, Parent(pl)) && d.matches[Parent(pl)].winner == d.matches[pl].winner ==> d.matches[pl].winner == Some(w))
  {
    var d' := AfterResult(d, pl, w, s1, s2);
    AfterRow(d, k, pl, w, s1, s2, pl);
    if pl.round < k {
      var up := Parent(pl);
      ParentFeeders(k, pl);
      AfterRow(d, k, pl, w, s1, s2, up);
      SlotTeamsDiffer(d, teams, k, up);
      assert FedAt(d, teams, k, up);
      assert WinnerPlayed(d.matches[up]);
      assert WinnerPlayed(d'.matches[up]) <==>
        (Decided(d, up) && d.matches[up].winner == d.matches[pl].winner ==> d.matches[pl].winner == Some(w));
    }
    forall q | q in d'.matches && q != Parent(pl)
      ensures WinnerPlayed(d'.matches[q])
    {
      AfterRow(d, k, pl, w, s1, s2, q);
      assert WinnerPlayed(d.matches[q]);
    }
  }

  /** The match above an undecided one is undecided. */
  lemma ParentUndecided(d: Draw, teams: seq<TeamId>, k: nat, pl: Place)
    requires Sound(d, teams, k) && pl in d.matches && !Decided(d, pl) && pl.round < k
    ensures Parent(pl) in d.matches && !Decided(d, Parent(pl))
  {
    assert InBracket(k, pl);
    ParentFeeders(k, pl);
    assert FedAt(d, teams, k, Parent(pl));
    assert ByeSettled(d.matches[Parent(pl)], Parent(pl).round);
  }

  /** A result on an undecided match keeps everything. */
  lemma RecordKeepsSound(d: Draw, teams: seq<TeamId>, k: nat, pl: Place, w: TeamId, s1: Option<nat>, s2: Option<nat>)
    requires Sound(d, teams, k) && Legal(d, pl, w) && !Decided(d, pl)
    ensures Sound(AfterResult(d, pl, w, s1, s2), teams, k)
  {
    var d' := AfterResult(d, pl, w, s1, s2);
    RecordKeepsStructure(d, teams, k, pl, w, s1, s2);
    RecordKeepsWinnersIff(d, teams, k, pl, w, s1, s2);
    RoundsPositive(teams, k);
    if pl.round < k { ParentUndecided(d, teams, k, pl); }
    forall q | q in d'.matches
      ensures ByeSettled(d'.matches[q], q.round)
    {
      AfterRow(d, k, pl, w, s1, s2, q);
      assert ByeSettled(d.matches[q], q.round);
    }
    AfterRow(d, k, pl, w, s1, s2, Place(k, 1));
  }

  // ---- Where a team can appear ----

  predicate IsSeedOf(teams: seq<TeamId>, seed: int, x: TeamId) {
    1 <= seed <= |teams| && teams[seed - 1] == x
  }

  /** The first-round slot of a registered team. */
  ghost function Home(teams: seq<TeamId>, k: nat, seed: nat): nat
    requires Fits(teams, k) && 1 <= seed <= |teams|
  {
    SeedSlot(k, seed)
  }

  predicate PlaysIn(d: Draw, pl: Place, x: TeamId) {
    pl in d.matches && (d.matches[pl].team1 == Some(x) || d.matches[pl].team2 == Some(x))
  }

  predicate LostAt(d: Draw, pl: Place, x: TeamId) {
    PlaysIn(d, pl, x) && Decided(d, pl) && d.matches[pl].winner != Some(x)
  }

  /** Slot by slot, the path up from home: the place in round r above first-round slot h. */
  ghost predicate OnPath(teams: seq<TeamId>, k: nat, pl: Place, x: TeamId, seed: int)
    requires Fits(teams, k)
  {
    IsSeedOf(teams, seed, x) && pl.position == Block(Home(teams, k, seed), pl.round) + 1
  }

  lemma FirstRoundOnPath(d: Draw, teams: seq<TeamId>, k: nat, pl: Place, x: TeamId) returns (seed: nat)
    requires Structured(d, teams, k) && PlaysIn(d, pl, x) && pl.round == 1
    ensures OnPath(teams, k, pl, x, seed)
  {
    assert InBracket(k, pl) && pl == Place(1, pl.position);
    var slot := if d.matches[pl].team1 == Some(x) then 2 * pl.position - 2 else 2 * pl.position - 1;
    assert FedAt(d, teams, k, pl);
    assert SlotTeam(teams, k, slot) == Some(x);
    seed := SeedOrder(k)[slot];
    SeedAtSlot(k, slot);
    BlockStep(slot, 0);
  }

  lemma PathStep(teams: seq<TeamId>, k: nat, pl: Place, below: Place, x: TeamId, seed: nat)
    requires Fits(teams, k) && OnPath(teams, k, below, x, seed)
    requires pl.position >= 1 && pl.round >= 1 && (below == Feeder1(pl) || below == Feeder2(pl))
    ensures OnPath(teams, k, pl, x, seed)
  {
    BlockStep(Home(teams, k, seed), below.round);
  }

  /** A team is only ever found on the path up from its own slot, and it won every match below. */
  lemma {:induction false} TeamOnItsPath(d: Draw, teams: seq<TeamId>, k: nat, pl: Place, x: TeamId) returns (seed: nat)
    requires DrawnSound(d, teams, k) && PlaysIn(d, pl, x)
    ensures OnPath(teams, k, pl, x, seed)
    decreases pl.round
  {
    assert InBracket(k, pl);
    if pl.round == 1 {
      seed := FirstRoundOnPath(d, teams, k, pl, x);
    } else {
      var below := WonBelow(d, teams, k, pl, x);
      seed := TeamOnItsPath(d, teams, k, below, x);
      PathStep(teams, k, pl, below, x, seed);
    }
  }

  /** A team in a later round won the match that feeds its slot. */
  lemma WonBelow(d: Draw, teams: seq<TeamId>, k: nat, pl: Place, x: TeamId) returns (below: Place)
    requires DrawnSound(d, teams, k) && PlaysIn(d, pl, x) && pl.round >= 2
    ensures pl.position >= 1 && (below == Feeder1(pl) || below == Feeder2(pl))
    ensures PlaysIn(d, below, x) && d.matches[below].winner == Some(x)
  {
    assert InBracket(k, pl);
    below := if d.matches[pl].team1 == Some(x) then Feeder1(pl) else Feeder2(pl);
    assert FedAt(d, teams, k, pl) && WinnerPlayed(d.matches[below]);
  }

  /** Two slots of the draw never hold the same team. */
  lemma DrawSlotsDiffer(teams: seq<TeamId>, k: nat, i: nat, j: nat)
    requires Distinct(teams) && i < Pow2(k) && j < Pow2(k) && i != j && SlotTeam(teams, k, i).Some?
    ensures SlotTeam(teams, k, i) != SlotTeam(teams, k, j)
  {
    SeedAtSlot(k, i);
    SeedAtSlot(k, j);
  }

  /** The two slots of a match never hold the same team. */
  lemma SlotTeamsDiffer(d: Draw, teams: seq<TeamId>, k: nat, pl: Place)
    requires DrawnSound(d, teams, k) && pl in d.matches
    ensures d.matches[pl].team1.Some? ==> d.matches[pl].team1 != d.matches[pl].team2
  {
    var m := d.matches[pl];
    assert InBracket(k, pl);
    if m.team1.Some? && m.team1 == m.team2 {
      var x := m.team1.value;
      if pl.round == 1 {
        assert FedAt(d, teams, k, pl);
        DrawSlotsDiffer(teams, k, 2 * pl.position - 2, 2 * pl.position - 1);
        assert false;
      } else {
        assert FedAt(d, teams, k, pl);
        assert WinnerPlayed(d.matches[Feeder1(pl)]) && WinnerPlayed(d.matches[Feeder2(pl)]);
        OnePlacePerRound(d, teams, k, Feeder1(pl), Feeder2(pl), x);
        assert false;
      }
    }
  }

  lemma OnePlacePerRound(d: Draw, teams: seq<TeamId>, k: nat, pl: Place, pl': Place, x: TeamId)
    requires DrawnSound(d, teams, k) && PlaysIn(d, pl, x) && PlaysIn(d, pl', x) && pl.round == pl'.round
    ensures pl == pl'
  {
    var seed := TeamOnItsPath(d, teams, k, pl, x);
    var seed' := TeamOnItsPath(d, teams, k, pl', x);
  }

  /** Among the top 2^m seeds, no two meet before only 2^m teams are left. */
  lemma TopSeedsMeetLate(d: Draw, teams: seq<TeamId>, k: nat, m: nat, pl: Place, s: nat, s': nat)
    requires DrawnSound(d, teams, k) && m <= k && pl.round <= k - m
    requires 1 <= s <= Pow2(m) && s <= |teams| && 1 <= s' <= Pow2(m) && s' <= |teams| && s != s'
    requires PlaysIn(d, pl, teams[s - 1])
    ensures !PlaysIn(d, pl, teams[s' - 1])
  {
    if PlaysIn(d, pl, teams[s' - 1]) {
      var seed := TeamOnItsPath(d, teams, k, pl, teams[s - 1]);
      var seed' := TeamOnItsPath(d, teams, k, pl, teams[s' - 1]);
      assert seed == s && seed' == s';
      assert Block(Home(teams, k, s), pl.round) == Block(Home(teams, k, s'), pl.round);
      BlockStaysJoined(Home(teams, k, s), Home(teams, k, s'), pl.round, k - m);
      TopSeedsSeparated(k, m, s, s');
      assert false;
    }
  }
}
