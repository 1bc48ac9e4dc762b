// The single-elimination tree of one tournament: generating the draw and recording results.
// A match is addressed by its round and position, both counted from 1, as in the stored rows.

module Bracket {
  import opened Options
  import opened Seeding

  type TeamId = nat

  datatype Place = Place(round: nat, position: nat)

  datatype Match = Match(
    team1: Option<TeamId>, team2: Option<TeamId>, winner: Option<TeamId>,
    score1: Option<nat>, score2: Option<nat>)

  datatype Status = RegistrationOpen | InProgress | Completed | CancelledStatus

  /** The stored draw: the match rows and the tournament's status. */
  datatype Draw = Draw(matches: map<Place, Match>, status: Status)

  datatype GenerateOutcome = Generated(rounds: nat, bracketSize: nat) | WrongStatus | TooFewTeams

  datatype RecordOutcome = Recorded(final: bool) | MatchNotFound | TeamsUndecided | NotInThisMatch

  ghost predicate Distinct(teams: seq<TeamId>) {
    forall i, j :: 0 <= i < |teams| && 0 <= j < |teams| && teams[i] == teams[j] ==> i == j
  }

  // ---- The generated draw ----

  /** The places of a bracket of k rounds. */
  predicate InBracket(k: nat, pl: Place) {
    1 <= pl.round <= k && 1 <= pl.position <= Pow2(k - pl.round)
  }

  function Parent(pl: Place): Place {
    Place(pl.round + 1, (pl.position + 1) / 2)
  }

  function Feeder1(pl: Place): Place
    requires pl.round >= 1 && pl.position >= 1
  {
    Place(pl.round - 1, 2 * pl.position - 1)
  }

  function Feeder2(pl: Place): Place
    requires pl.round >= 1 && pl.position >= 1
  {
    Place(pl.round - 1, 2 * pl.position)
  }

  /** The team with seed s, or None (a bye) when fewer teams registered. */
  function TeamOfSeed(teams: seq<TeamId>, s: int): Option<TeamId> {
    if 1 <= s <= |teams| then Some(teams[s - 1]) else None
  }

  function SlotTeam(teams: seq<TeamId>, k: nat, slot: nat): Option<TeamId>
    requires slot < Pow2(k)
  {
    TeamOfSeed(teams, SeedOrder(k)[slot])
  }

  /** Whoever wins by default: the only team of a pair that has exactly one. */
  function Walkover(team1: Option<TeamId>, team2: Option<TeamId>): Option<TeamId> {
    if team1.None? then team2 else if team2.None? then team1 else None
  }

  /** A round-1 match of a draw of k rounds; byes are advanced only when there is a round 2. */
  function FirstRoundMatch(teams: seq<TeamId>, k: nat, p: nat): Match
    requires 1 <= k && 1 <= p <= Pow2(k - 1)
  {
    var team1 := SlotTeam(teams, k, 2 * p - 2);
    var team2 := SlotTeam(teams, k, 2 * p - 1);
    Match(team1, team2, if k > 1 then Walkover(team1, team2) else None, None, None)
  }

  function GeneratedMatch(teams: seq<TeamId>, k: nat, pl: Place): Match
    requires InBracket(k, pl)
  {
    if pl.round == 1 then FirstRoundMatch(teams, k, pl.position)
    else if pl.round == 2 then
      Match(FirstRoundMatch(teams, k, 2 * pl.position - 1).winner,
            FirstRoundMatch(teams, k, 2 * pl.position).winner, None, None, None)
    else Match(None, None, None, None, None)
  }

  ghost predicate HasRounds(matches: map<Place, Match>, k: nat) {
    forall pl :: pl in matches <==> InBracket(k, pl)
  }

  /** What a freshly generated draw of k rounds holds. */
  ghost predicate IsGenerated(matches: map<Place, Match>, teams: seq<TeamId>, k: nat) {
    && HasRounds(matches, k)
    && forall pl :: pl in matches ==> matches[pl] == GeneratedMatch(teams, k, pl)
  }

  // ---- Recording a result ----

  /** The result of a match may be recorded: both teams are known and the winner is one of them. */
  predicate Legal(d: Draw, pl: Place, winnerId: TeamId) {
    && pl in d.matches
    && d.matches[pl].team1.Some? && d.matches[pl].team2.Some?
    && (d.matches[pl].team1 == Some(winnerId) || d.matches[pl].team2 == Some(winnerId))
  }

  function Advance(m: Match, fromPosition: nat, winnerId: TeamId): Match {
    if fromPosition % 2 == 1 then m.(team1 := Some(winnerId)) else m.(team2 := Some(winnerId))
  }

  /** The draw after a legal result: the match is decided, the winner moves up or the tournament ends. */
  function AfterResult(d: Draw, pl: Place, winnerId: TeamId, score1: Option<nat>, score2: Option<nat>): Draw
    requires pl in d.matches
  {
    var decided := d.matches[pl := d.matches[pl].(winner := Some(winnerId), score1 := score1, score2 := score2)];
    if Parent(pl) in decided then
      d.(matches := decided[Parent(pl) := Advance(decided[Parent(pl)], pl.position, winnerId)])
    else
      Draw(decided, Completed)
  }

  // ---- The stored tournament ----

  class Tournament {
    var teams: seq<TeamId>          // in registration order
    var seeds: map<TeamId, nat>
    var matches: map<Place, Match>
    var status: Status

    constructor ()
      ensures teams == [] && seeds == map[] && matches == map[] && status == RegistrationOpen
    {
      teams, seeds, matches, status := [], map[], map[], RegistrationOpen;
    }

    ghost function State(): Draw
      reads this
    {
      Draw(matches, status)
    }

    method GenerateBracket() returns (outcome: GenerateOutcome)
      requires Distinct(teams)
      modifies this`seeds, this`matches, this`status
      ensures outcome == if old(status) in {Completed, CancelledStatus} then WrongStatus
                         else if |teams| < 2 then TooFewTeams
                         else Generated(RoundsFor(|teams|), Pow2(RoundsFor(|teams|)))
      ensures outcome.Generated? ==>
        && status == InProgress
        && IsGenerated(matches, teams, outcome.rounds)
        && forall i :: 0 <= i < |teams| ==> teams[i] in seeds && seeds[teams[i]] == i + 1
      ensures !outcome.Generated? ==> State() == old(State()) && seeds == old(seeds)
    {
      if status == Completed || status == CancelledStatus { return WrongStatus; }
      if |teams| < 2 { return TooFewTeams; }
      matches := map[];
      var rounds := RoundsFor(|teams|);
      assert Pow2(0) == 1;
      var size := Pow2(rounds);
      var seedOrder := BracketSeedOrder(|teams|);
      for i := 0 to |teams|
        invariant matches == map[]
        invariant forall j :: 0 <= j < i ==> teams[j] in seeds && seeds[teams[j]] == j + 1
      {
        seeds := seeds[teams[i] := i + 1];
      }
      InsertRounds(seedOrder, rounds);
      if rounds > 1 {
        AdvanceByes(seedOrder, rounds);
      }
      status := InProgress;
      return Generated(rounds, size);
    }

    /** One row a match, round by round; only round 1 knows its teams. */
    method InsertRounds(seedOrder: seq<int>, rounds: nat)
      requires matches == map[] && seedOrder == SeedOrder(rounds) && 1 <= rounds
      modifies this`matches
      ensures HasRounds(matches, rounds) && ByesAdvancedBelow(matches, teams, rounds, 1)
    {
      for r := 1 to rounds + 1
        invariant forall pl :: pl in matches <==> InBracket(rounds, pl) && pl.round < r
        invariant ByesAdvancedBelow(matches, teams, rounds, 1)
      {
        var count := Pow2(rounds - r);
        for p := 1 to count + 1
          invariant forall pl :: pl in matches <==>
            InBracket(rounds, pl) && (pl.round < r || (pl.round == r && pl.position < p))
          invariant ByesAdvancedBelow(matches, teams, rounds, 1)
        {
          assert r == 1 ==> |seedOrder| == 2 * count;
          var team1 := if r == 1 then TeamOfSeed(teams, seedOrder[(p - 1) * 2]) else None;
          var team2 := if r == 1 then TeamOfSeed(teams, seedOrder[(p - 1) * 2 + 1]) else None;
          assert Match(team1, team2, None, None, None) == PartlyAdvanced(teams, rounds, Place(r, p), 1);
          matches := matches[Place(r, p) := Match(team1, team2, None, None, None)];
        }
      }
    }

    /** Each round-1 match with exactly one team is decided, and its team moves into round 2. */
    method AdvanceByes(seedOrder: seq<int>, rounds: nat)
      requires 2 <= rounds && seedOrder == SeedOrder(rounds)
      requires HasRounds(matches, rounds) && ByesAdvancedBelow(matches, teams, rounds, 1)
      modifies this`matches
      ensures IsGenerated(matches, teams, rounds)
    {
      for p := 1 to Pow2(rounds - 1) + 1
        invariant HasRounds(matches, rounds)
        invariant ByesAdvancedBelow(matches, teams, rounds, p)
      {
        ghost var before := matches;
        FirstTwoRows(matches, rounds, p);
        AdvanceBye(seedOrder, p);
        ByeAdvanced(before, matches, teams, rounds, p);
      }
      AllByesAdvanced(matches, teams, rounds);
    }

    /** The body of the bye loop: a lone team wins its match and moves into the slot above on its side. */
    method AdvanceBye(seedOrder: seq<int>, p: nat)
      requires 1 <= p && 2 * p <= |seedOrder| && Place(1, p) in matches && Place(2, (p + 1) / 2) in matches
      modifies this`matches
      ensures WalkoverWritten(old(matches), matches, p, DrawnWalkover(teams, seedOrder, p))
    {
      var team1 := TeamOfSeed(teams, seedOrder[(p - 1) * 2]);
      var team2 := TeamOfSeed(teams, seedOrder[(p - 1) * 2 + 1]);
      if team1.None? != team2.None? {
        var winner := if team1.Some? then team1 else team2;
        var next := Place(2, (p + 1) / 2);
        matches := matches[Place(1, p) := matches[Place(1, p)].(winner := winner)];
        matches := matches[next :=
          if p % 2 == 1 then matches[next].(team1 := winner) else matches[next].(team2 := winner)];
      }
    }

    method RecordMatchResult(pl: Place, winnerId: TeamId, score1: Option<nat>, score2: Option<nat>)
      returns (outcome: RecordOutcome)
      modifies this`matches, this`status
      ensures outcome.Recorded? <==> Legal(old(State()), pl, winnerId)
      ensures outcome.Recorded? ==>
        && State() == AfterResult(old(State()), pl, winnerId, score1, score2)
        && (outcome.final <==> Parent(pl) !in old(matches))
      ensures outcome.Recorded? ==>
        var next := Place(pl.round + 1, (pl.position + 1) / 2);
        && matches.Keys == old(matches).Keys
        && matches[pl] == old(matches)[pl].(winner := Some(winnerId), score1 := score1, score2 := score2)
        && (next in matches ==> (matches[next] ==
              if pl.position % 2 == 1 then old(matches)[next].(team1 := Some(winnerId)) else old(matches)[next].(team2 := Some(winnerId))))
        && (forall q :: q in matches && q != pl && q != next ==> matches[q] == old(matches)[q])
        && status == if next in matches then old(status) else Completed
      ensures !outcome.Recorded? ==> State() == old(State())
      ensures outcome == NotInThisMatch <==>
        pl in old(matches) && old(matches)[pl].team1.Some? && old(matches)[pl].team2.Some? &&
        winnerId != old(matches)[pl].team1.value && winnerId != old(matches)[pl].team2.value
      ensures outcome == MatchNotFound <==> pl !in old(matches)
      ensures outcome == TeamsUndecided <==>
        pl in old(matches) && (old(matches[pl]).team1.None? || old(matches[pl]).team2.None?)
    {
      if pl !in matches { return MatchNotFound; }
      var m := matches[pl];
      if m.team1.None? || m.team2.None? { return TeamsUndecided; }
      if Some(winnerId) != m.team1 && Some(winnerId) != m.team2 { return NotInThisMatch; }
      matches := matches[pl := m.(winner := Some(winnerId), score1 := score1, score2 := score2)];
      var next := Place(pl.round + 1, (pl.position + 1) / 2);
      if next in matches {
        if pl.position % 2 == 1 {
          matches := matches[next := matches[next].(team1 := Some(winnerId))];
        } else {
          matches := matches[next := matches[next].(team2 := Some(winnerId))];
        }
        return Recorded(false);
      } else {
        status := Completed;
        return Recorded(true);
      }
    }
  }

  /** A row while the byes of round-1 positions below p have been advanced. */
  function PartlyAdvanced(teams: seq<TeamId>, k: nat, pl: Place, p: nat): Match
    requires InBracket(k, pl)
  {
    if pl.round == 1 then
      var m := FirstRoundMatch(teams, k, pl.position);
      if pl.position < p then m else m.(winner := None)
    else if pl.round == 2 then
      Match(
        if 2 * pl.position - 1 < p then FirstRoundMatch(teams, k, 2 * pl.position - 1).winner else None,
        if 2 * pl.position < p then FirstRoundMatch(teams, k, 2 * pl.position).winner else None,
        None, None, None)
    else Match(None, None, None, None, None)
  }

  /** The row at pl once w, the walkover of position p, is written to its match and to the match above. */
  function WithWalkover(m: Match, pl: Place, p: nat, w: Option<TeamId>): Match {
    if pl == Place(1, p) then m.(winner := w)
    else if pl != Place(2, (p + 1) / 2) then m
    else if p % 2 == 1 then m.(team1 := w)
    else m.(team2 := w)
  }

  lemma FirstRoundByeFurther(teams: seq<TeamId>, k: nat, q: nat, p: nat)
    requires 2 <= k && InBracket(k, Place(1, q)) && 1 <= p <= Pow2(k - 1)
    ensures var was, now, w := PartlyAdvanced(teams, k, Place(1, q), p), PartlyAdvanced(teams, k, Place(1, q), p + 1), FirstRoundMatch(teams, k, p).winner;
      now == WithWalkover(was, Place(1, q), p, w) && (w == None ==> now == was)
  {
  }

  lemma SecondRoundByeFurther(teams: seq<TeamId>, k: nat, q: nat, p: nat)
    requires 2 <= k && InBracket(k, Place(2, q)) && 1 <= p <= Pow2(k - 1)
    ensures var was, now, w := PartlyAdvanced(teams, k, Place(2, q), p), PartlyAdvanced(teams, k, Place(2, q), p + 1), FirstRoundMatch(teams, k, p).winner;
      now == WithWalkover(was, Place(2, q), p, w) && (w == None ==> now == was)
  {
    if q == (p + 1) / 2 {
      assert p == if p % 2 == 1 then 2 * q - 1 else 2 * q;
    }
  }

  /** Advancing the bye of position p touches that match and one slot of the match above it. */
  lemma OneByeFurther(teams: seq<TeamId>, k: nat, pl: Place, p: nat)
    requires 2 <= k && InBracket(k, pl) && 1 <= p <= Pow2(k - 1)
    ensures var was, now, w := PartlyAdvanced(teams, k, pl, p), PartlyAdvanced(teams, k, pl, p + 1), FirstRoundMatch(teams, k, p).winner;
      now == WithWalkover(was, pl, p, w) && (w == None ==> now == was)
  {
    if pl.round == 1 {
      FirstRoundByeFurther(teams, k, pl.position, p);
    } else if pl.round == 2 {
      SecondRoundByeFurther(teams, k, pl.position, p);
    }
  }

  /** Every row after the walkover of position p, if there is one. */
  ghost predicate WalkoverWritten(before: map<Place, Match>, after: map<Place, Match>, p: nat, w: Option<TeamId>) {
    && after.Keys == before.Keys
    && forall pl :: pl in before ==> after[pl] == if w.None? then before[pl] else WithWalkover(before[pl], pl, p, w)
  }

  /** One iteration of the bye loop. */
  lemma ByeAdvanced(before: map<Place, Match>, after: map<Place, Match>, teams: seq<TeamId>, k: nat, p: nat)
    requires 2 <= k && 1 <= p <= Pow2(k - 1) && HasRounds(before, k) && ByesAdvancedBelow(before, teams, k, p)
    requires WalkoverWritten(before, after, p, DrawnWalkover(teams, SeedOrder(k), p))
    ensures HasRounds(after, k) && ByesAdvancedBelow(after, teams, k, p + 1)
  {
    FirstRoundWalkover(teams, k, p);
    forall pl | pl in after
      ensures after[pl] == PartlyAdvanced(teams, k, pl, p + 1)
    {
      OneByeFurther(teams, k, pl, p);
      assert before[pl] == PartlyAdvanced(teams, k, pl, p);
    }
  }

  /** The walkover of position p, read off the seed order. */
  function DrawnWalkover(teams: seq<TeamId>, seedOrder: seq<int>, p: nat): Option<TeamId>
    requires 1 <= p && 2 * p <= |seedOrder|
  {
    Walkover(TeamOfSeed(teams, seedOrder[2 * p - 2]), TeamOfSeed(teams, seedOrder[2 * p - 1]))
  }

  lemma FirstRoundWalkover(teams: seq<TeamId>, k: nat, p: nat)
    requires 2 <= k && 1 <= p <= Pow2(k - 1)
    ensures FirstRoundMatch(teams, k, p).winner == DrawnWalkover(teams, SeedOrder(k), p)
  {
  }

  lemma FirstTwoRows(matches: map<Place, Match>, k: nat, p: nat)
    requires 2 <= k && 1 <= p <= Pow2(k - 1) && HasRounds(matches, k)
    ensures Place(1, p) in matches && Place(2, (p + 1) / 2) in matches
  {
    assert InBracket(k, Place(1, p)) && InBracket(k, Place(2, (p + 1) / 2));
  }

  lemma AllByesAdvanced(matches: map<Place, Match>, teams: seq<TeamId>, k: nat)
    requires 2 <= k && HasRounds(matches, k) && ByesAdvancedBelow(matches, teams, k, Pow2(k - 1) + 1)
    ensures IsGenerated(matches, teams, k)
  {
    forall pl | pl in matches
      ensures matches[pl] == GeneratedMatch(teams, k, pl)
    {
      assert InBracket(k, pl) && matches[pl] == PartlyAdvanced(teams, k, pl, Pow2(k - 1) + 1);
    }
  }

  ghost predicate ByesAdvancedBelow(matches: map<Place, Match>, teams: seq<TeamId>, k: nat, p: nat) {
    forall pl :: pl in matches && InBracket(k, pl) ==> matches[pl] == PartlyAdvanced(teams, k, pl, p)
  }
}
