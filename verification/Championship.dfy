// Whole runs: a generated draw for n teams finishes after exactly n - 1 recorded results,
// a match can be played until then, and everyone but the champion loses exactly once.

module Championship {
  import opened Options
  import opened Seeding
  import opened Bracket
  import opened BracketRuns

  datatype Result = Result(place: Place, winnerId: TeamId, score1: Option<nat>, score2: Option<nat>)

  function Play(d: Draw, r: Result): Draw
    requires r.place in d.matches
  {
    AfterResult(d, r.place, r.winnerId, r.score1, r.score2)
  }

  /** Every result in turn is legal and lands on an undecided match, as the interface offers them. */
  predicate Run(d: Draw, results: seq<Result>)
    decreases |results|, 0
  {
    results == [] ||
    (Run(d, results[..|results| - 1]) &&
     var before := After(d, results[..|results| - 1]);
     var r := results[|results| - 1];
     Legal(before, r.place, r.winnerId) && !Decided(before, r.place))
  }

  function After(d: Draw, results: seq<Result>): Draw
    requires Run(d, results)
    decreases |results|, 1
  {
    if results == [] then d else Play(After(d, results[..|results| - 1]), results[|results| - 1])
  }

  /** Legal results in any order, decided matches included. */
  predicate LooseRun(d: Draw, results: seq<Result>)
    decreases |results|, 0
  {
    results == [] ||
    (LooseRun(d, results[..|results| - 1]) &&
     Legal(AfterLoose(d, results[..|results| - 1]), results[|results| - 1].place, results[|results| - 1].winnerId))
  }

  function AfterLoose(d: Draw, results: seq<Result>): Draw
    requires LooseRun(d, results)
    decreases |results|, 1
  {
    if results == [] then d else Play(AfterLoose(d, results[..|results| - 1]), results[|results| - 1])
  }

  /** Even when decided matches are recorded again, a filled later slot holds its feeder's winner. */
  lemma {:induction false} LooseRunsStayStructured(d: Draw, teams: seq<TeamId>, k: nat, results: seq<Result>)
    requires Structured(d, teams, k) && LooseRun(d, results)
    ensures Structured(AfterLoose(d, results), teams, k)
  {
    if results != [] {
      var r := results[|results| - 1];
      LooseRunsStayStructured(d, teams, k, results[..|results| - 1]);
      RecordKeepsStructure(AfterLoose(d, results[..|results| - 1]), teams, k, r.place, r.winnerId, r.score1, r.score2);
    }
  }

  // ---- Counting decided matches ----

  ghost function DecidedPlaces(d: Draw): set<Place> {
    set pl | pl in d.matches && d.matches[pl].winner.Some?
  }

  lemma {:induction false} RunsStaySound(d: Draw, teams: seq<TeamId>, k: nat, results: seq<Result>)
    requires Sound(d, teams, k) && Run(d, results)
    ensures Sound(After(d, results), teams, k)
    ensures |DecidedPlaces(After(d, results))| == |DecidedPlaces(d)| + |results|
  {
    if results != [] {
      var r := results[|results| - 1];
      var before := After(d, results[..|results| - 1]);
      RunsStaySound(d, teams, k, results[..|results| - 1]);
      RecordKeepsSound(before, teams, k, r.place, r.winnerId, r.score1, r.score2);
      DecidesOneMore(before, teams, k, r);
    }
  }

  lemma DecidesOneMore(d: Draw, teams: seq<TeamId>, k: nat, r: Result)
    requires Sound(d, teams, k) && Legal(d, r.place, r.winnerId) && !Decided(d, r.place)
    ensures |DecidedPlaces(Play(d, r))| == |DecidedPlaces(d)| + 1
  {
    var d' := Play(d, r);
    forall q | q in d.matches
      ensures q in DecidedPlaces(d') <==> q == r.place || q in DecidedPlaces(d)
    {
      AfterRow(d, k, r.place, r.winnerId, r.score1, r.score2, q);
    }
    AfterRow(d, k, r.place, r.winnerId, r.score1, r.score2, r.place);
    assert DecidedPlaces(d') == DecidedPlaces(d) + {r.place};
  }

  ghost function RowOf(r: nat, c: nat): set<Place> {
    set p: nat | 1 <= p <= c :: Place(r, p)
  }

  lemma {:induction false} RowSize(r: nat, c: nat)
    ensures |RowOf(r, c)| == c
  {
    if c == 0 {
      assert RowOf(r, 0) == {};
    } else {
      RowSize(r, c - 1);
      assert RowOf(r, c) == RowOf(r, c - 1) + {Place(r, c)};
    }
  }

  ghost function RoundsUpTo(k: nat, r: nat): set<Place>
    requires r <= k
  {
    if r == 0 then {} else RoundsUpTo(k, r - 1) + RowOf(r, Pow2(k - r))
  }

  lemma DisjointSizes(a: set<Place>, b: set<Place>)
    requires a !! b
    ensures |a + b| == |a| + |b|
  {
  }

  lemma {:induction false} InRoundsUpTo(k: nat, r: nat, pl: Place)
    requires r <= k
    ensures pl in RoundsUpTo(k, r) <==> InBracket(k, pl) && pl.round <= r
  {
    if r != 0 {
      InRoundsUpTo(k, r - 1, pl);
      assert pl in RowOf(r, Pow2(k - r)) <==> pl.round == r && InBracket(k, pl);
    }
  }

  lemma {:induction false} RoundsUpToSize(k: nat, r: nat)
    requires r <= k
    ensures |RoundsUpTo(k, r)| == Pow2(k) - Pow2(k - r)
  {
    if r != 0 {
      RoundsUpToSize(k, r - 1);
      var c := Pow2(k - r);
      RowSize(r, c);
      var lower, row := RoundsUpTo(k, r - 1), RowOf(r, c);
      forall pl | pl in lower
        ensures pl !in row
      {
        InRoundsUpTo(k, r - 1, pl);
      }
      assert RoundsUpTo(k, r) == lower + row;
      DisjointSizes(lower, row);
      assert Pow2(k - (r - 1)) == 2 * c;
    }
  }

  lemma BracketSize(d: Draw, k: nat)
    requires HasRounds(d.matches, k)
    ensures |d.matches.Keys| == Pow2(k) - 1
  {
    RoundsUpToSize(k, k);
    forall pl
      ensures pl in d.matches <==> pl in RoundsUpTo(k, k)
    {
      InRoundsUpTo(k, k, pl);
    }
    assert d.matches.Keys == RoundsUpTo(k, k);
    assert Pow2(0) == 1;
  }

  ghost function ByePlaces(pairs: set<nat>): set<Place> {
    set p | p in pairs :: Place(1, p + 1)
  }

  lemma {:induction false} ByePlacesSize(pairs: set<nat>)
    ensures |ByePlaces(pairs)| == |pairs|
  {
    if pairs != {} {
      var p :| p in pairs;
      ByePlacesSize(pairs - {p});
      forall pl | pl in ByePlaces(pairs) && pl != Place(1, p + 1)
        ensures pl in ByePlaces(pairs - {p})
      {
        var q :| q in pairs && pl == Place(1, q + 1);
        assert q in pairs - {p};
      }
      assert ByePlaces(pairs) == ByePlaces(pairs - {p}) + {Place(1, p + 1)};
    } else {
      assert ByePlaces(pairs) == {};
    }
  }

  /** The byes are the only matches decided by generation: 2^k - n of them. */
  lemma GeneratedByes(d: Draw, teams: seq<TeamId>, k: nat)
    requires Fits(teams, k) && IsGenerated(d.matches, teams, k) && d.status == InProgress
    ensures |DecidedPlaces(d)| == Pow2(k) - |teams|
  {
    RoundsPositive(teams, k);
    var pairs := PairsWithSeedUpTo(k, Pow2(k) - |teams|);
    PairsWithSeedCount(k, Pow2(k) - |teams|);
    ByePlacesSize(pairs);
    GeneratedIsSound(d, teams, k);
    forall pl
      ensures pl in DecidedPlaces(d) <==> pl in ByePlaces(pairs)
    {
      ByeDecided(d, teams, k, pl);
    }
    assert DecidedPlaces(d) == ByePlaces(pairs);
  }

  lemma InByePlaces(pairs: set<nat>, pl: Place)
    ensures pl in ByePlaces(pairs) <==> pl.round == 1 && pl.position >= 1 && pl.position - 1 in pairs
  {
    assert pl.round == 1 && pl.position >= 1 ==> pl == Place(1, (pl.position - 1) + 1);
  }

  /** A first-round match is decided from the start exactly if it is a bye. */
  lemma FirstRoundDecided(teams: seq<TeamId>, k: nat, p: nat)
    requires Fits(teams, k) && 1 <= k && Pow2(k) - |teams| < Pow2(k - 1) && 1 <= p <= Pow2(k - 1)
    ensures FirstRoundMatch(teams, k, p).winner.Some? <==> p - 1 in PairsWithSeedUpTo(k, Pow2(k) - |teams|)
  {
    GeneratedSlots(teams, k, p);
    if k == 1 {
      FinalOnlySlots(teams);
      assert Pow2(0) == 1;
    }
  }

  lemma ByeDecided(d: Draw, teams: seq<TeamId>, k: nat, pl: Place)
    requires Fits(teams, k) && IsGenerated(d.matches, teams, k) && 1 <= k && Pow2(k) - |teams| < Pow2(k - 1)
    ensures Decided(d, pl) <==> pl in ByePlaces(PairsWithSeedUpTo(k, Pow2(k) - |teams|))
  {
    InByePlaces(PairsWithSeedUpTo(k, Pow2(k) - |teams|), pl);
    if InBracket(k, pl) {
      assert d.matches[pl] == GeneratedMatch(teams, k, pl);
      if pl.round == 1 { FirstRoundDecided(teams, k, pl.position); }
    }
  }

  // ---- Progress and completion ----

  /** Below any undecided match there is one that can be played now. */
  lemma {:induction false} PlayableBelow(d: Draw, teams: seq<TeamId>, k: nat, pl: Place) returns (open: Place)
    requires Sound(d, teams, k) && pl in d.matches && !Decided(d, pl)
    ensures Playable(d, open)
    decreases pl.round
  {
    assert InBracket(k, pl);
    assert FedAt(d, teams, k, pl) && ByeSettled(d.matches[pl], pl.round);
    if pl.round >= 2 && !Decided(d, Feeder1(pl)) {
      open := PlayableBelow(d, teams, k, Feeder1(pl));
    } else if pl.round >= 2 && !Decided(d, Feeder2(pl)) {
      open := PlayableBelow(d, teams, k, Feeder2(pl));
    } else {
      open := pl;
    }
  }

  /** Once the final is decided, so is every match. */
  lemma {:induction false} FinalDecidesAll(d: Draw, teams: seq<TeamId>, k: nat, pl: Place)
    requires Sound(d, teams, k) && Decided(d, Place(k, 1)) && pl in d.matches
    ensures Decided(d, pl)
    decreases k - pl.round
  {
    RoundsPositive(teams, k);
    assert InBracket(k, pl);
    if pl.round < k {
      ParentFeeders(k, pl);
      FinalDecidesAll(d, teams, k, Parent(pl));
      assert FedAt(d, teams, k, Parent(pl)) && ByeSettled(d.matches[Parent(pl)], Parent(pl).round);
    }
  }

  lemma CompletedIffAllDecided(d: Draw, teams: seq<TeamId>, k: nat)
    requires Sound(d, teams, k)
    ensures |DecidedPlaces(d)| <= Pow2(k) - 1
    ensures d.status == Completed <==> |DecidedPlaces(d)| == Pow2(k) - 1
  {
    RoundsPositive(teams, k);
    BracketSize(d, k);
    SubsetSize(DecidedPlaces(d), d.matches.Keys);
    if d.status == Completed {
      forall pl | pl in d.matches
        ensures Decided(d, pl)
      {
        FinalDecidesAll(d, teams, k, pl);
      }
      assert DecidedPlaces(d) == d.matches.Keys;
    }
  }

  lemma {:induction false} SubsetSize<T>(a: set<T>, b: set<T>)
    requires a <= b
    ensures |a| <= |b|
    ensures |a| == |b| ==> a == b
  {
    if a != {} {
      var x :| x in a;
      SubsetSize(a - {x}, b - {x});
    }
  }

  /** A run over n teams completes the tournament exactly at its (n-1)-th result,
      and until then some match can be played. */
  lemma TournamentTakesAllButOneResults(d: Draw, teams: seq<TeamId>, k: nat, results: seq<Result>)
    requires Fits(teams, k) && IsGenerated(d.matches, teams, k) && d.status == InProgress
    requires Run(d, results)
    ensures |results| <= |teams| - 1
    ensures After(d, results).status == Completed <==> |results| == |teams| - 1
    ensures After(d, results).status != Completed ==> exists open :: Playable(After(d, results), open)
  {
    GeneratedIsSound(d, teams, k);
    GeneratedByes(d, teams, k);
    RunsStaySound(d, teams, k, results);
    var end := After(d, results);
    CompletedIffAllDecided(end, teams, k);
    if end.status != Completed {
      RoundsPositive(teams, k);
      var open := PlayableBelow(end, teams, k, Place(k, 1));
    }
  }

  // ---- The champion ----

  ghost function Defeats(d: Draw, x: TeamId): set<Place> {
    set pl | pl in d.matches && LostAt(d, pl, x)
  }

  /** A team seen in round r won at every lower round of its path. */
  lemma {:induction false} WonEarlierRounds(d: Draw, teams: seq<TeamId>, k: nat, pl: Place, low: Place, x: TeamId)
    requires DrawnSound(d, teams, k) && PlaysIn(d, pl, x) && PlaysIn(d, low, x) && low.round < pl.round
    ensures d.matches[low].winner == Some(x)
    decreases pl.round
  {
    assert InBracket(k, low);
    var below := WonBelow(d, teams, k, pl, x);
    if below.round == low.round {
      OnePlacePerRound(d, teams, k, below, low, x);
    } else {
      WonEarlierRounds(d, teams, k, below, low, x);
    }
  }

  /** At no moment has a team lost twice. */
  lemma NobodyLosesTwice(d: Draw, teams: seq<TeamId>, k: nat, x: TeamId, pl: Place, pl': Place)
    requires DrawnSound(d, teams, k) && LostAt(d, pl, x) && LostAt(d, pl', x)
    ensures pl == pl'
  {
    if pl.round == pl'.round {
      OnePlacePerRound(d, teams, k, pl, pl', x);
    } else if pl.round < pl'.round {
      WonEarlierRounds(d, teams, k, pl', pl, x);
    } else {
      WonEarlierRounds(d, teams, k, pl, pl', x);
    }
  }

  /** From any match it plays in, a team of a finished draw wins on to the title or is beaten. */
  lemma {:induction false} BeatenOrChampion(d: Draw, teams: seq<TeamId>, k: nat, pl: Place, x: TeamId) returns (lost: Place)
    requires Sound(d, teams, k) && d.status == Completed && PlaysIn(d, pl, x)
    ensures Place(k, 1) in d.matches && (d.matches[Place(k, 1)].winner == Some(x) || LostAt(d, lost, x))
    decreases k - pl.round
  {
    lost := pl;
    RoundsPositive(teams, k);
    FinalDecidesAll(d, teams, k, pl);
    assert InBracket(k, pl);
    if d.matches[pl].winner == Some(x) && pl.round < k {
      ParentFeeders(k, pl);
      assert FedAt(d, teams, k, Parent(pl));
      lost := BeatenOrChampion(d, teams, k, Parent(pl), x);
    }
  }

  lemma TeamPlaysFirstRound(d: Draw, teams: seq<TeamId>, k: nat, i: nat) returns (pl: Place)
    requires Structured(d, teams, k) && i < |teams|
    ensures PlaysIn(d, pl, teams[i])
  {
    RoundsPositive(teams, k);
    var slot := SlotOfSeed(k, i + 1);
    pl := Place(1, slot / 2 + 1);
    SlotPair(k, slot, pl.position);
    assert InBracket(k, pl) && FedAt(d, teams, k, pl);
  }

  lemma SlotOfSeed(k: nat, s: nat) returns (slot: nat)
    requires 1 <= s <= Pow2(k)
    ensures slot < Pow2(k) && SeedOrder(k)[slot] == s
  {
    slot := SeedSlot(k, s);
    SlotHoldsSeed(k, s);
  }

  lemma SlotPair(k: nat, slot: nat, p: nat)
    requires 1 <= k && slot < Pow2(k) && p == slot / 2 + 1
    ensures p <= Pow2(k - 1) && (slot == 2 * p - 2 || slot == 2 * p - 1)
  {
  }

  /** In a finished tournament the champion is unbeaten and every other team lost exactly one match. */
  lemma EveryoneElseLostOnce(d: Draw, teams: seq<TeamId>, k: nat, results: seq<Result>, i: nat)
    requires Fits(teams, k) && IsGenerated(d.matches, teams, k) && d.status == InProgress
    requires Run(d, results) && After(d, results).status == Completed && i < |teams|
    ensures var end := After(d, results);
      && Place(k, 1) in end.matches
      && |Defeats(end, teams[i])| == if end.matches[Place(k, 1)].winner == Some(teams[i]) then 0 else 1
  {
    GeneratedIsSound(d, teams, k);
    RunsStaySound(d, teams, k, results);
    var end, x := After(d, results), teams[i];
    var first := TeamPlaysFirstRound(end, teams, k, i);
    var lost := BeatenOrChampion(end, teams, k, first, x);
    if end.matches[Place(k, 1)].winner == Some(x) {
      forall pl | pl in end.matches
        ensures !LostAt(end, pl, x)
      {
        ChampionUnbeaten(end, teams, k, pl, x);
      }
      assert Defeats(end, x) == {};
    } else {
      forall pl | pl in Defeats(end, x)
        ensures pl == lost
      {
        NobodyLosesTwice(end, teams, k, x, pl, lost);
      }
      assert Defeats(end, x) == {lost};
    }
  }

  lemma ChampionUnbeaten(d: Draw, teams: seq<TeamId>, k: nat, pl: Place, x: TeamId)
    requires Sound(d, teams, k) && Decided(d, Place(k, 1)) && d.matches[Place(k, 1)].winner == Some(x) && pl in d.matches
    ensures !LostAt(d, pl, x)
  {
    if LostAt(d, pl, x) {
      RoundsPositive(teams, k);
      assert InBracket(k, pl) && WinnerPlayed(d.matches[Place(k, 1)]);
      if pl.round == k {
        assert false;
      } else {
        WonEarlierRounds(d, teams, k, Place(k, 1), pl, x);
        assert false;
      }
    }
  }
}
