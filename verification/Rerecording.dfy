// What the server allows and the page does not: recording a decided match again, and recording one match from two
// requests at once. recordMatchResult reads, writes the winner and moves it up in three separate statements.

module Rerecording {
  import opened Options
  import opened Seeding
  import opened Bracket
  import opened BracketRuns
  import opened Championship

  // ---- A stale winner ----

  lemma LooseRunMore(d: Draw, results: seq<Result>, r: Result)
    requires LooseRun(d, results) && Legal(AfterLoose(d, results), r.place, r.winnerId)
    ensures LooseRun(d, results + [r]) && AfterLoose(d, results + [r]) == Play(AfterLoose(d, results), r)
  {
    assert (results + [r])[..|results|] == results;
  }

  lemma FourTeamsFit(teams: seq<TeamId>)
    requires Distinct(teams) && |teams| == 4
    ensures Fits(teams, 2)
  {
    assert Pow2(1) == 2 && Pow2(2) == 4;
    RoundsUnique(4, RoundsFor(4), 2);
  }

  /** With four teams both semi-finals are full and open. */
  lemma SemiFinal(d: Draw, teams: seq<TeamId>, p: nat)
    requires Fits(teams, 2) && |teams| == 4 && IsGenerated(d.matches, teams, 2) && 1 <= p <= 2
    ensures Place(1, p) in d.matches && Playable(d, Place(1, p))
  {
    assert Pow2(1) == 2 && Pow2(2) == 4 && InBracket(2, Place(1, p));
    GeneratedSlots(teams, 2, p);
    assert p - 1 !in PairsWithSeedUpTo(2, 0);
  }

  /** One more result on an undecided match of a run. */
  lemma Recorded(d: Draw, teams: seq<TeamId>, results: seq<Result>, r: Result) returns (after: Draw)
    requires LooseRun(d, results) && Sound(AfterLoose(d, results), teams, 2)
    requires Legal(AfterLoose(d, results), r.place, r.winnerId) && !Decided(AfterLoose(d, results), r.place)
    ensures LooseRun(d, results + [r]) && AfterLoose(d, results + [r]) == after
    ensures after == Play(AfterLoose(d, results), r) && Sound(after, teams, 2)
  {
    LooseRunMore(d, results, r);
    RecordKeepsSound(AfterLoose(d, results), teams, 2, r.place, r.winnerId, r.score1, r.score2);
    after := AfterLoose(d, results + [r]);
  }

  /** Both semi-finals recorded: the final is between their winners and still open. */
  lemma SemiFinalsPlayed(d: Draw, teams: seq<TeamId>) returns (results: seq<Result>, d2: Draw)
    requires Fits(teams, 2) && |teams| == 4 && IsGenerated(d.matches, teams, 2) && d.status == InProgress
    ensures LooseRun(d, results) && AfterLoose(d, results) == d2 && Sound(d2, teams, 2)
    ensures Place(1, 1) in d2.matches && Place(2, 1) in d2.matches
    ensures var m, final := d2.matches[Place(1, 1)], d2.matches[Place(2, 1)];
      && m.team1.Some? && m.team2.Some? && m.winner == m.team1
      && final.team1 == m.winner && final.team2.Some? && final.winner == None
  {
    GeneratedIsSound(d, teams, 2);
    SemiFinal(d, teams, 1);
    SemiFinal(d, teams, 2);
    var first, second, final := Place(1, 1), Place(1, 2), Place(2, 1);
    assert InBracket(2, final) && d.matches[final] == GeneratedMatch(teams, 2, final);
    var r1 := Result(first, d.matches[first].team1.value, None, None);
    var r2 := Result(second, d.matches[second].team1.value, None, None);
    AfterRow(d, 2, first, r1.winnerId, None, None, first);
    AfterRow(d, 2, first, r1.winnerId, None, None, second);
    AfterRow(d, 2, first, r1.winnerId, None, None, final);
    var d1 := Recorded(d, teams, [], r1);
    AfterRow(d1, 2, second, r2.winnerId, None, None, first);
    AfterRow(d1, 2, second, r2.winnerId, None, None, second);
    AfterRow(d1, 2, second, r2.winnerId, None, None, final);
    d2 := Recorded(d, teams, [] + [r1], r2);
    results := [] + [r1] + [r2];
    assert FedAt(d2, teams, 2, final);
  }

  /** The first semi-final's winner also wins the final. */
  lemma FinalPlayed(d: Draw, teams: seq<TeamId>) returns (results: seq<Result>, d3: Draw)
    requires Fits(teams, 2) && |teams| == 4 && IsGenerated(d.matches, teams, 2) && d.status == InProgress
    ensures LooseRun(d, results) && AfterLoose(d, results) == d3 && Sound(d3, teams, 2)
    ensures Place(1, 1) in d3.matches && Decided(d3, Place(2, 1)) && d3.matches[Place(2, 1)].winner == d3.matches[Place(1, 1)].winner
    ensures var m := d3.matches[Place(1, 1)]; m.team1.Some? && m.team2.Some? && m.winner == m.team1
  {
    var played, d2 := SemiFinalsPlayed(d, teams);
    var r := Result(Place(2, 1), d2.matches[Place(1, 1)].team1.value, None, None);
    AfterRow(d2, 2, r.place, r.winnerId, None, None, Place(1, 1));
    AfterRow(d2, 2, r.place, r.winnerId, None, None, r.place);
    d3 := Recorded(d, teams, played, r);
    results := played + [r];
  }

  lemma OtherWayRound(d: Draw, teams: seq<TeamId>) returns (again: Result)
    requires Sound(d, teams, 2) && Place(1, 1) in d.matches
    requires Decided(d, Place(2, 1)) && d.matches[Place(2, 1)].winner == d.matches[Place(1, 1)].winner
    requires var m := d.matches[Place(1, 1)]; m.team1.Some? && m.team2.Some? && m.winner == m.team1
    ensures Legal(d, again.place, again.winnerId) && !WinnersPlayed(Play(d, again))
  {
    again := Result(Place(1, 1), d.matches[Place(1, 1)].team2.value, None, None);
    SlotTeamsDiffer(d, teams, 2, again.place);
    RecordKeepsWinnersIff(d, teams, 2, again.place, again.winnerId, None, None);
  }

  /** Both semi-finals and the final are recorded, then the winner's semi-final the other way round: the final
      keeps a winner that no longer plays in it. */
  lemma StaleWinner(d: Draw, teams: seq<TeamId>) returns (results: seq<Result>)
    requires Distinct(teams) && |teams| == 4 && IsGenerated(d.matches, teams, 2) && d.status == InProgress
    ensures LooseRun(d, results) && !WinnersPlayed(AfterLoose(d, results))
  {
    FourTeamsFit(teams);
    var played, d3 := FinalPlayed(d, teams);
    var again := OtherWayRound(d3, teams);
    LooseRunMore(d, played, again);
    results := played + [again];
  }

  // ---- Two requests at once ----

  /** A request between its read and its last write. */
  datatype Recording = Recording(result: Result, written: bool)

  datatype Board = Board(draw: Draw, open: map<nat, Recording>)

  datatype Action = Read(request: nat, result: Result) | WriteWinner(request: nat) | MoveUp(request: nat)

  predicate Enabled(b: Board, a: Action) {
    match a
    case Read(t, r) => t !in b.open && Legal(b.draw, r.place, r.winnerId)
    case WriteWinner(t) => t in b.open && !b.open[t].written && b.open[t].result.place in b.draw.matches
    case MoveUp(t) => t in b.open && b.open[t].written
  }

  function WinnerWritten(matches: map<Place, Match>, r: Result): map<Place, Match>
    requires r.place in matches
  {
    matches[r.place := matches[r.place].(winner := Some(r.winnerId), score1 := r.score1, score2 := r.score2)]
  }

  function MovedUp(d: Draw, r: Result): Draw {
    var next := Parent(r.place);
    if next in d.matches then d.(matches := d.matches[next := Advance(d.matches[next], r.place.position, r.winnerId)])
    else d.(status := Completed)
  }

  function Next(b: Board, a: Action): Board
    requires Enabled(b, a)
  {
    match a
    case Read(t, r) => b.(open := b.open[t := Recording(r, false)])
    case WriteWinner(t) =>
      Board(b.draw.(matches := WinnerWritten(b.draw.matches, b.open[t].result)), b.open[t := b.open[t].(written := true)])
    case MoveUp(t) => Board(MovedUp(b.draw, b.open[t].result), b.open - {t})
  }

  ghost predicate Runs(b: Board, actions: seq<Action>)
    decreases |actions|
  {
    actions == [] || (Enabled(b, actions[0]) && Runs(Next(b, actions[0]), actions[1..]))
  }

  ghost function Exec(b: Board, actions: seq<Action>): Board
    requires Runs(b, actions)
    decreases |actions|
  {
    if actions == [] then b else Exec(Next(b, actions[0]), actions[1..])
  }

  predicate BeingRecorded(b: Board, pl: Place) {
    exists t :: t in b.open && b.open[t].result.place == pl
  }

  /** Only matches at these places are read while another recording of them is under way. */
  ghost predicate OverlapsOnlyAt(b: Board, actions: seq<Action>, places: set<Place>)
    requires Runs(b, actions)
    decreases |actions|
  {
    actions == [] ||
    ((actions[0].Read? && BeingRecorded(b, actions[0].result.place) ==> actions[0].result.place in places) &&
     OverlapsOnlyAt(Next(b, actions[0]), actions[1..], places))
  }

  /** A match below the final that two teams can come to play: all but the first-round byes. */
  predicate Contestable(teams: seq<TeamId>, k: nat, pl: Place) {
    && InBracket(k, pl) && pl.round < k
    && (pl.round == 1 ==> SlotTeam(teams, k, 2 * pl.position - 2).Some? && SlotTeam(teams, k, 2 * pl.position - 1).Some?)
  }

  /** The winner of this match is written but has not moved up yet. */
  predicate OnItsWayUp(b: Board, pl: Place) {
    exists t :: t in b.open && b.open[t].written && b.open[t].result.place == pl
  }

  ghost predicate FedUnlessOpen(b: Board, teams: seq<TeamId>, k: nat, pl: Place)
    requires InBracket(k, pl) && pl in b.draw.matches
  {
    if pl.round == 1 then FedAt(b.draw, teams, k, pl)
    else
      && Feeder1(pl) in b.draw.matches && Feeder2(pl) in b.draw.matches
      && (OnItsWayUp(b, Feeder1(pl)) || b.draw.matches[pl].team1 == b.draw.matches[Feeder1(pl)].winner)
      && (OnItsWayUp(b, Feeder2(pl)) || b.draw.matches[pl].team2 == b.draw.matches[Feeder2(pl)].winner)
  }

  /** Below the final, a written winner still stands. */
  predicate RecordingOk(d: Draw, k: nat, rec: Recording) {
    rec.result.place in d.matches &&
    (rec.written && rec.result.place.round < k ==> d.matches[rec.result.place].winner == Some(rec.result.winnerId))
  }

  /** No two recordings are of one match, unless it is the final. */
  predicate Apart(open: map<nat, Recording>, k: nat) {
    forall t, t' :: t in open && t' in open && t != t' && open[t].result.place.round < k ==> open[t].result.place != open[t'].result.place
  }

  ghost predicate BoardOk(b: Board, teams: seq<TeamId>, k: nat) {
    && Fits(teams, k) && HasRounds(b.draw.matches, k)
    && (forall pl {:trigger FedUnlessOpen(b, teams, k, pl)} :: InBracket(k, pl) && pl in b.draw.matches ==> FedUnlessOpen(b, teams, k, pl))
    && (forall t :: t in b.open ==> RecordingOk(b.draw, k, b.open[t]))
    && Apart(b.open, k)
  }

  /** A winner on its way up stays so until its own request moves it. */
  lemma StaysOnItsWay(b: Board, a: Action, f: Place)
    requires Enabled(b, a) && OnItsWayUp(b, f)
    requires a.MoveUp? ==> b.open[a.request].result.place != f
    ensures OnItsWayUp(Next(b, a), f)
  {
    var t :| t in b.open && b.open[t].written && b.open[t].result.place == f;
    assert t in Next(b, a).open && Next(b, a).open[t] == b.open[t];
  }

  lemma WriteKeepsSlots(b: Board, t: nat, f: Place)
    requires Enabled(b, WriteWinner(t)) && f in b.draw.matches
    ensures var b' := Next(b, WriteWinner(t));
      && f in b'.draw.matches
      && b'.draw.matches[f].team1 == b.draw.matches[f].team1 && b'.draw.matches[f].team2 == b.draw.matches[f].team2
      && (OnItsWayUp(b, f) ==> OnItsWayUp(b', f))
      && (OnItsWayUp(b', f) || b'.draw.matches[f].winner == b.draw.matches[f].winner)
  {
    var b' := Next(b, WriteWinner(t));
    assert b'.open[t].written;
    if OnItsWayUp(b, f) { StaysOnItsWay(b, WriteWinner(t), f); }
  }

  lemma MoveUpKeepsSlots(b: Board, t: nat, q: Place)
    requires Enabled(b, MoveUp(t)) && q in b.draw.matches
    ensures var b', r := Next(b, MoveUp(t)), b.open[t].result;
      && q in b'.draw.matches
      && b'.draw.matches[q] == (if q == Parent(r.place) then Advance(b.draw.matches[q], r.place.position, r.winnerId) else b.draw.matches[q])
      && (OnItsWayUp(b, q) && q != r.place ==> OnItsWayUp(b', q))
  {
    if OnItsWayUp(b, q) && q != b.open[t].result.place { StaysOnItsWay(b, MoveUp(t), q); }
  }

  lemma MoveUpStaysFed(b: Board, t: nat, teams: seq<TeamId>, k: nat, pl: Place)
    requires BoardOk(b, teams, k) && Enabled(b, MoveUp(t)) && pl in b.draw.matches && InBracket(k, pl) && pl.round >= 2
    ensures pl in Next(b, MoveUp(t)).draw.matches && FedUnlessOpen(Next(b, MoveUp(t)), teams, k, pl)
  {
    var r := b.open[t].result;
    assert FedUnlessOpen(b, teams, k, pl) && RecordingOk(b.draw, k, b.open[t]);
    OnlyParentIsFed(r.place, pl);
    MoveUpKeepsSlots(b, t, pl);
    MoveUpKeepsSlots(b, t, Feeder1(pl));
    MoveUpKeepsSlots(b, t, Feeder2(pl));
  }

  lemma SlotStaysFed(b: Board, a: Action, teams: seq<TeamId>, k: nat, pl: Place)
    requires BoardOk(b, teams, k) && Enabled(b, a) && pl in b.draw.matches && InBracket(k, pl)
    ensures pl in Next(b, a).draw.matches && FedUnlessOpen(Next(b, a), teams, k, pl)
  {
    assert FedUnlessOpen(b, teams, k, pl);
    match a
    case Read(_, _) =>
      if pl.round >= 2 {
        if OnItsWayUp(b, Feeder1(pl)) { StaysOnItsWay(b, a, Feeder1(pl)); }
        if OnItsWayUp(b, Feeder2(pl)) { StaysOnItsWay(b, a, Feeder2(pl)); }
      }
    case WriteWinner(t) =>
      WriteKeepsSlots(b, t, pl);
      if pl.round >= 2 {
        WriteKeepsSlots(b, t, Feeder1(pl));
        WriteKeepsSlots(b, t, Feeder2(pl));
      }
    case MoveUp(t) =>
      if pl.round >= 2 { MoveUpStaysFed(b, t, teams, k, pl); } else { MoveUpKeepsSlots(b, t, pl); }
  }

  lemma RecordingStaysOk(b: Board, a: Action, teams: seq<TeamId>, k: nat, t: nat)
    requires BoardOk(b, teams, k) && Enabled(b, a) && t in Next(b, a).open
    ensures RecordingOk(Next(b, a).draw, k, Next(b, a).open[t])
  {
    if t in b.open {
      assert RecordingOk(b.draw, k, b.open[t]);
      assert a.WriteWinner? && a.request != t && b.open[t].result.place.round < k ==>
        b.open[t].result.place != b.open[a.request].result.place;
    }
  }

  lemma NextKeepsBoard(b: Board, a: Action, teams: seq<TeamId>, k: nat)
    requires BoardOk(b, teams, k) && Enabled(b, a)
    requires a.Read? && BeingRecorded(b, a.result.place) ==> !Contestable(teams, k, a.result.place)
    ensures BoardOk(Next(b, a), teams, k)
  {
    var b' := Next(b, a);
    assert b'.draw.matches.Keys == b.draw.matches.Keys;
    forall pl | InBracket(k, pl) && pl in b'.draw.matches
      ensures FedUnlessOpen(b', teams, k, pl)
    {
      SlotStaysFed(b, a, teams, k, pl);
    }
    forall t | t in b'.open
      ensures RecordingOk(b'.draw, k, b'.open[t])
    {
      RecordingStaysOk(b, a, teams, k, t);
    }
    RecordingsStayApart(b, a, teams, k);
  }

  /** A match that can be read is the final or can be contested. */
  lemma ReadableMatch(b: Board, teams: seq<TeamId>, k: nat, r: Result)
    requires BoardOk(b, teams, k) && Legal(b.draw, r.place, r.winnerId)
    ensures r.place.round < k ==> Contestable(teams, k, r.place)
  {
    assert InBracket(k, r.place) && FedUnlessOpen(b, teams, k, r.place);
  }

  lemma RecordingsStayApart(b: Board, a: Action, teams: seq<TeamId>, k: nat)
    requires BoardOk(b, teams, k) && Enabled(b, a)
    requires a.Read? && BeingRecorded(b, a.result.place) ==> !Contestable(teams, k, a.result.place)
    ensures Apart(Next(b, a).open, k)
  {
    if a.Read? { ReadableMatch(b, teams, k, a.result); }
  }

  /** As long as no match that can be contested is recorded by two requests at once, every slot holds its feeder's
      winner again as soon as nothing is under way, however the statements interleave. */
  lemma {:induction false} HarmlessOverlapsStayStructured(b: Board, actions: seq<Action>, teams: seq<TeamId>, k: nat, places: set<Place>)
    requires BoardOk(b, teams, k) && Runs(b, actions) && OverlapsOnlyAt(b, actions, places)
    requires forall pl :: pl in places ==> !Contestable(teams, k, pl)
    ensures BoardOk(Exec(b, actions), teams, k)
    ensures Exec(b, actions).open == map[] ==> Structured(Exec(b, actions).draw, teams, k)
    decreases |actions|
  {
    if actions == [] {
      forall pl | InBracket(k, pl) && pl in b.draw.matches && b.open == map[]
        ensures FedAt(b.draw, teams, k, pl)
      {
        assert FedUnlessOpen(b, teams, k, pl);
      }
    } else {
      NextKeepsBoard(b, actions[0], teams, k);
      HarmlessOverlapsStayStructured(Next(b, actions[0]), actions[1..], teams, k, places);
    }
  }

  /** In particular when no match is ever recorded by two requests at once. */
  lemma OneAtATimeStaysStructured(b: Board, actions: seq<Action>, teams: seq<TeamId>, k: nat)
    requires BoardOk(b, teams, k) && Runs(b, actions) && OverlapsOnlyAt(b, actions, {})
    ensures BoardOk(Exec(b, actions), teams, k)
    ensures Exec(b, actions).open == map[] ==> Structured(Exec(b, actions).draw, teams, k)
  {
    HarmlessOverlapsStayStructured(b, actions, teams, k, {});
  }
}
