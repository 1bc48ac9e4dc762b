// Exactly which matches two requests must not record at once: below the final, all that two teams can come to play.

module RecordingOverlaps {
  import opened Options
  import opened Seeding
  import opened Bracket
  import opened BracketRuns
  import opened Championship
  import opened Rerecording

  /** Uninterrupted, the three statements are the one step the runs of results are made of. */
  lemma ServedAlone(d: Draw, t: nat, r: Result)
    requires Legal(d, r.place, r.winnerId)
    ensures var b := Board(d, map[]);
      Enabled(b, Read(t, r)) &&
      (var b1 := Next(b, Read(t, r));
       Enabled(b1, WriteWinner(t)) &&
       (var b2 := Next(b1, WriteWinner(t));
        Enabled(b2, MoveUp(t)) && Next(b2, MoveUp(t)) == Board(Play(d, r), map[])))
  {
    var b1 := Next(Board(d, map[]), Read(t, r));
    var b2 := Next(b1, WriteWinner(t));
    assert b2.open - {t} == map[];
  }

  lemma RunsCons(b: Board, a: Action, rest: seq<Action>, places: set<Place>)
    requires Enabled(b, a) && Runs(Next(b, a), rest) && OverlapsOnlyAt(Next(b, a), rest, places)
    requires a.Read? && BeingRecorded(b, a.result.place) ==> a.result.place in places
    ensures Runs(b, [a] + rest) && OverlapsOnlyAt(b, [a] + rest, places)
    ensures Exec(b, [a] + rest) == Exec(Next(b, a), rest)
  {
    assert ([a] + rest)[1..] == rest;
  }

  lemma {:induction false} RunsConcat(b: Board, first: seq<Action>, second: seq<Action>, places: set<Place>)
    requires Runs(b, first) && OverlapsOnlyAt(b, first, places)
    requires Runs(Exec(b, first), second) && OverlapsOnlyAt(Exec(b, first), second, places)
    ensures Runs(b, first + second) && OverlapsOnlyAt(b, first + second, places)
    ensures Exec(b, first + second) == Exec(Exec(b, first), second)
    decreases |first|
  {
    if first == [] {
      assert first + second == second;
    } else {
      assert (first + second)[1..] == first[1..] + second;
      RunsConcat(Next(b, first[0]), first[1..], second, places);
    }
  }

  // ---- Any match but a bye can be filled, one result after another ----

  /** One whole recording. */
  lemma RecordedAlone(d: Draw, r: Result, places: set<Place>) returns (actions: seq<Action>)
    requires Legal(d, r.place, r.winnerId)
    ensures Runs(Board(d, map[]), actions) && OverlapsOnlyAt(Board(d, map[]), actions, places)
    ensures Exec(Board(d, map[]), actions) == Board(Play(d, r), map[])
  {
    ServedAlone(d, 0, r);
    var b0 := Board(d, map[]);
    var b1 := Next(b0, Read(0, r));
    var b2 := Next(b1, WriteWinner(0));
    RunsCons(b2, MoveUp(0), [], places);
    RunsCons(b1, WriteWinner(0), [MoveUp(0)] + [], places);
    RunsCons(b0, Read(0, r), [WriteWinner(0)] + ([MoveUp(0)] + []), places);
    actions := [Read(0, r)] + ([WriteWinner(0)] + ([MoveUp(0)] + []));
  }

  /** Served alone, the actions lead from one sound draw to another and decided matches stay decided. */
  ghost predicate Leads(d: Draw, actions: seq<Action>, d': Draw, teams: seq<TeamId>, k: nat, places: set<Place>) {
    && Runs(Board(d, map[]), actions) && OverlapsOnlyAt(Board(d, map[]), actions, places)
    && Exec(Board(d, map[]), actions) == Board(d', map[])
    && Sound(d', teams, k)
    && forall q :: Decided(d, q) ==> Decided(d', q)
  }

  lemma LeadsOn(d: Draw, first: seq<Action>, d1: Draw, second: seq<Action>, d2: Draw, teams: seq<TeamId>, k: nat, places: set<Place>)
    requires Leads(d, first, d1, teams, k, places) && Leads(d1, second, d2, teams, k, places)
    ensures Leads(d, first + second, d2, teams, k, places)
  {
    RunsConcat(Board(d, map[]), first, second, places);
  }

  lemma DecideFilled(d: Draw, teams: seq<TeamId>, k: nat, f: Place, places: set<Place>) returns (actions: seq<Action>, d': Draw)
    requires Sound(d, teams, k) && f in d.matches && d.matches[f].team1.Some? && d.matches[f].team2.Some? && !Decided(d, f)
    ensures Leads(d, actions, d', teams, k, places) && Decided(d', f)
  {
    var r := Result(f, d.matches[f].team1.value, None, None);
    actions := RecordedAlone(d, r, places);
    d' := Play(d, r);
    RecordKeepsSound(d, teams, k, f, r.winnerId, None, None);
    forall q | Decided(d, q) || q == f
      ensures Decided(d', q)
    {
      AfterRow(d, k, f, r.winnerId, None, None, q);
    }
  }

  lemma {:induction false} Decide(d: Draw, teams: seq<TeamId>, k: nat, f: Place, places: set<Place>) returns (actions: seq<Action>, d': Draw)
    requires Sound(d, teams, k) && InBracket(k, f) && f.round < k
    ensures Leads(d, actions, d', teams, k, places) && Decided(d', f)
    decreases f.round, 1
  {
    if Decided(d, f) {
      actions, d' := [], d;
    } else {
      assert ByeSettled(d.matches[f], f.round) && FedAt(d, teams, k, f);
      actions, d' := Fill(d, teams, k, f, places);
      if !Decided(d', f) {
        var last, d'' := DecideFilled(d', teams, k, f, places);
        LeadsOn(d, actions, d', last, d'', teams, k, places);
        actions, d' := actions + last, d'';
      }
    }
  }

  lemma {:induction false} Fill(d: Draw, teams: seq<TeamId>, k: nat, pl: Place, places: set<Place>) returns (actions: seq<Action>, d': Draw)
    requires Sound(d, teams, k) && Contestable(teams, k, pl)
    ensures Leads(d, actions, d', teams, k, places)
    ensures pl in d'.matches && d'.matches[pl].team1.Some? && d'.matches[pl].team2.Some?
    decreases pl.round, 0
  {
    if pl.round == 1 {
      actions, d' := [], d;
      assert pl in d.matches && FedAt(d, teams, k, pl);
    } else {
      FeedersInside(k, pl);
      var first, d1 := Decide(d, teams, k, Feeder1(pl), places);
      var second, d2 := Decide(d1, teams, k, Feeder2(pl), places);
      LeadsOn(d, first, d1, second, d2, teams, k, places);
      actions, d' := first + second, d2;
      assert Decided(d', Feeder1(pl)) && pl in d'.matches && FedAt(d', teams, k, pl);
    }
  }

  // ---- Two recordings of one match ----

  /** Two requests record one match differently and move their winners up in the other order. */
  function Crossing(pl: Place, x: TeamId, y: TeamId): seq<Action> {
    [Read(0, Result(pl, x, None, None))] + ([Read(1, Result(pl, y, None, None))] + AllWrites())
  }

  function AllWrites(): seq<Action> {
    [WriteWinner(0)] + ([WriteWinner(1)] + ([MoveUp(1)] + ([MoveUp(0)] + [])))
  }

  lemma WritesCross(b: Board, pl: Place, x: TeamId, y: TeamId, places: set<Place>) returns (b': Board)
    requires pl in b.draw.matches
    requires b.open == map[0 := Recording(Result(pl, x, None, None), false), 1 := Recording(Result(pl, y, None, None), false)]
    ensures Runs(b, AllWrites()) && OverlapsOnlyAt(b, AllWrites(), places) && Exec(b, AllWrites()) == b'
    ensures b'.open == map[] && pl in b'.draw.matches && b'.draw.matches[pl].winner == Some(y)
    ensures Parent(pl) in b.draw.matches ==> (
      && Parent(pl) in b'.draw.matches
      && var up := b'.draw.matches[Parent(pl)]; Some(x) == if pl.position % 2 == 1 then up.team1 else up.team2)
  {
    var b1 := Next(b, WriteWinner(0));
    var b2 := Next(b1, WriteWinner(1));
    var b3 := Next(b2, MoveUp(1));
    b' := Next(b3, MoveUp(0));
    RunsCons(b3, MoveUp(0), [], places);
    RunsCons(b2, MoveUp(1), [MoveUp(0)] + [], places);
    RunsCons(b1, WriteWinner(1), [MoveUp(1)] + ([MoveUp(0)] + []), places);
    RunsCons(b, WriteWinner(0), [WriteWinner(1)] + ([MoveUp(1)] + ([MoveUp(0)] + [])), places);
  }

  /** The match above ends up with a team that did not win. */
  lemma OverlapMisplacesWinner(d: Draw, teams: seq<TeamId>, k: nat, pl: Place, x: TeamId, y: TeamId) returns (b: Board)
    requires Structured(d, teams, k) && pl.round < k && Legal(d, pl, x) && Legal(d, pl, y) && x != y
    ensures Runs(Board(d, map[]), Crossing(pl, x, y)) && OverlapsOnlyAt(Board(d, map[]), Crossing(pl, x, y), {pl})
    ensures Exec(Board(d, map[]), Crossing(pl, x, y)) == b && b.open == map[] && !Structured(b.draw, teams, k)
  {
    var b0 := Board(d, map[]);
    var b1 := Next(b0, Read(0, Result(pl, x, None, None)));
    var b2 := Next(b1, Read(1, Result(pl, y, None, None)));
    b := WritesCross(b2, pl, x, y, {pl});
    RunsCons(b1, Read(1, Result(pl, y, None, None)), AllWrites(), {pl});
    RunsCons(b0, Read(0, Result(pl, x, None, None)), [Read(1, Result(pl, y, None, None))] + AllWrites(), {pl});
    assert InBracket(k, pl);
    ParentFeeders(k, pl);
    assert !FedAt(b.draw, teams, k, Parent(pl));
  }

  lemma {:induction false} MoreOverlapsAllowed(b: Board, actions: seq<Action>, some: set<Place>, more: set<Place>)
    requires Runs(b, actions) && OverlapsOnlyAt(b, actions, some) && some <= more
    ensures OverlapsOnlyAt(b, actions, more)
    decreases |actions|
  {
    if actions != [] { MoreOverlapsAllowed(Next(b, actions[0]), actions[1..], some, more); }
  }

  // ---- The exact condition ----

  /** Whatever is recorded, with overlaps only at these places, slots hold their feeders' winners at rest. */
  ghost predicate SafeWithOverlapsAt(d: Draw, teams: seq<TeamId>, k: nat, places: set<Place>) {
    forall actions ::
      Runs(Board(d, map[]), actions) && OverlapsOnlyAt(Board(d, map[]), actions, places) && Exec(Board(d, map[]), actions).open == map[]
      ==> Structured(Exec(Board(d, map[]), actions).draw, teams, k)
  }

  /** The match is filled first, then recorded twice at once. */
  lemma ContestedRun(d: Draw, teams: seq<TeamId>, k: nat, places: set<Place>, pl: Place)
    requires Sound(d, teams, k) && Contestable(teams, k, pl) && pl in places
    ensures !SafeWithOverlapsAt(d, teams, k, places)
  {
    var filling, d1 := Fill(d, teams, k, pl, places);
    SlotTeamsDiffer(d1, teams, k, pl);
    var x, y := d1.matches[pl].team1.value, d1.matches[pl].team2.value;
    var b := OverlapMisplacesWinner(d1, teams, k, pl, x, y);
    MoreOverlapsAllowed(Board(d1, map[]), Crossing(pl, x, y), {pl}, places);
    RunsConcat(Board(d, map[]), filling, Crossing(pl, x, y), places);
    assert !Structured(Exec(Board(d, map[]), filling + Crossing(pl, x, y)).draw, teams, k);
  }

  lemma RestingBoardOk(d: Draw, teams: seq<TeamId>, k: nat)
    requires Structured(d, teams, k)
    ensures BoardOk(Board(d, map[]), teams, k)
  {
    forall pl | InBracket(k, pl) && pl in d.matches
      ensures FedUnlessOpen(Board(d, map[]), teams, k, pl)
    {
      assert FedAt(d, teams, k, pl);
    }
  }

  /** From any sound draw, a freshly generated one included: all runs whose overlapping recordings are of matches at the given
      places leave the draw in order if and only if no match below the final that two teams can play is among them. */
  lemma OverlapsAreSafeIff(d: Draw, teams: seq<TeamId>, k: nat, places: set<Place>)
    requires Sound(d, teams, k)
    ensures SafeWithOverlapsAt(d, teams, k, places) <==> forall pl :: pl in places ==> !Contestable(teams, k, pl)
  {
    if pl :| pl in places && Contestable(teams, k, pl) {
      ContestedRun(d, teams, k, places, pl);
    } else {
      var b := Board(d, map[]);
      RestingBoardOk(d, teams, k);
      forall actions | Runs(b, actions) && OverlapsOnlyAt(b, actions, places)
        ensures Exec(b, actions).open == map[] ==> Structured(Exec(b, actions).draw, teams, k)
      {
        HarmlessOverlapsStayStructured(b, actions, teams, k, places);
      }
    }
  }
}
