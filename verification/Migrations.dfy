/** Changing the recipe space in several steps is the same as changing it at once. */
module Migrations {
  import opened Prelude
  import opened RecipeSpace
  import opened RecipeLaws
  import opened Cpbo
  import opened TrustRegions
  import opened History
  import opened HistoryLaws
  import opened ReplayLaws
  import opened Ledgers
  import opened Service
  import opened Invariants
  import opened Faithfulness
  import opened Evidence
  import opened Guarantees
  import Engine

  /** Rebasing rebased shots yields the recipes that rebasing the original shots yields. */
  lemma {:induction false} RebaseShotsTwice(mid: Space, space: Space, t: RecipeTable, u: RecipeTable, shots: seq<Shot>)
    requires RebaseShots(mid, t, shots).Ok?
    requires RebaseShots(space, u, RebaseShots(mid, t, shots).value.shots).Ok?
    ensures RebaseShots(space, t, shots).Ok?
    ensures RebaseShots(space, t, shots).value.shots == RebaseShots(space, u, RebaseShots(mid, t, shots).value.shots).value.shots
  {
    if shots != [] {
      var init := shots[..|shots| - 1];
      var first := RebaseShots(mid, t, shots).value.shots;
      RebasedShots(mid, t, shots);
      RebasedShots(mid, t, init);
      assert first[..|first| - 1] == RebaseShots(mid, t, init).value.shots;
      RebaseShotsTwice(mid, space, t, u, init);
    }
  }

  /** Migrating to one set of limits and then to another leaves the same run, shots, comparisons, suggestions and state
      as migrating straight to the second; only superfluous recipe rows and their times differ. */
  lemma MigrationIsPathIndependent(s1: Settings, s2: Settings, l: Ledger, mode1: Mode, mode2: Mode, t1: nat, t2: nat)
    requires Inv(l) && Canonical(l) && Stamped(MarkersOf(l.state.region.transitions))
    requires MigrateRun(s1, l, mode1, t1).Ok? && MigrateRun(s2, MigrateRun(s1, l, mode1, t1).value, mode2, t2).Ok?
    ensures MigrateRun(s2, l, mode2, t2).Ok?
    ensures var twice, once := MigrateRun(s2, MigrateRun(s1, l, mode1, t1).value, mode2, t2).value, MigrateRun(s2, l, mode2, t2).value;
      && once.run == twice.run && once.shots == twice.shots && once.comparisons == twice.comparisons
      && once.suggestions == twice.suggestions && once.state == twice.state
  {
    var m := MigrateRun(s1, l, mode1, t1).value;
    var mid, first, state1 := MigrationParts(s1, l, mode1, t1);
    MovedKeeps(s1, l, m, mode1, mid, first, state1, t1);
    var space, second, state2 := MigrationParts(s2, m, mode2, t2);
    var direct := DirectRebase(s1, s2, l, m, MigrateRun(s2, m, mode2, t2).value, mode1, mode2, mid, space, first, second, state1, state2, t1, t2);
    RebasedInserts(l, s2.domain, space, direct);
    MigrationAccepted(s2, l, mode2, t2, space, direct);
    var space', direct', state' := MigrationParts(s2, l, mode2, t2);
    SameOutcome(s1, s2, l, m, MigrateRun(s2, l, mode2, t2).value, MigrateRun(s2, m, mode2, t2).value, mode1, mode2, mid, space, first, second, direct, state1, state2, state', t1, t2);
  }

  /** The direct rebase exists, yields the same shots, and its history rebuilds to the same state. */
  lemma DirectRebase(s1: Settings, s2: Settings, l: Ledger, m: Ledger, n: Ledger, mode1: Mode, mode2: Mode, mid: Space, space: Space,
                     first: Rebased, second: Rebased, state1: OptimizerState, state2: OptimizerState, t1: nat, t2: nat) returns (direct: Rebased)
    requires Inv(l) && Stamped(MarkersOf(l.state.region.transitions))
    requires Moved(s1, l, m, mode1, mid, first, state1, t1) && Moved(s2, m, n, mode2, space, second, state2, t2)
    ensures WithDomain(l.run.space, s2.domain) == Ok(space) && RebaseShots(space, l.table, l.shots) == Ok(direct) && direct.shots == second.shots
    ensures RebuildHistory(s2.schedule, l.state.region, direct.shots, RowsOf(direct.recipes), l.comparisons)
         == RebuildHistory(s2.schedule, m.state.region, second.shots, RowsOf(second.recipes), l.comparisons)
    ensures RebuildHistory(s2.schedule, l.state.region, direct.shots, RowsOf(direct.recipes), l.comparisons).Ok?
  {
    RebaseTwice(l.run.space, s1.domain, s2.domain);
    RebaseShotsTwice(mid, space, l.table, m.table, l.shots);
    direct := RebaseShots(space, l.table, l.shots).value;
    SamePlacesAtOnce(mid, space, l.table, m.table, l.shots);
    MovedMarkersStay(s1, l, m, mode1, mid, first, state1, t1);
    RebasedShots(space, l.table, l.shots);
    OutlineDecides(l.shots, direct.shots);
    RebuildReadsPlaces(s2.schedule, l.state.region, m.state.region, direct.shots, RowsOf(direct.recipes), RowsOf(second.recipes), l.comparisons);
  }

  lemma SameOutcome(s1: Settings, s2: Settings, l: Ledger, m: Ledger, once: Ledger, twice: Ledger, mode1: Mode, mode2: Mode, mid: Space, space: Space,
                    first: Rebased, second: Rebased, direct: Rebased, state1: OptimizerState, state2: OptimizerState, state': OptimizerState, t1: nat, t2: nat)
    requires Moved(s1, l, m, mode1, mid, first, state1, t1) && Moved(s2, m, twice, mode2, space, second, state2, t2)
    requires Moved(s2, l, once, mode2, space, direct, state', t2) && direct.shots == second.shots
    requires RebuildHistory(s2.schedule, l.state.region, direct.shots, RowsOf(direct.recipes), l.comparisons)
          == RebuildHistory(s2.schedule, m.state.region, second.shots, RowsOf(second.recipes), l.comparisons)
    requires RebuildHistory(s2.schedule, l.state.region, direct.shots, RowsOf(direct.recipes), l.comparisons).Ok?
    ensures once.run == twice.run && once.shots == twice.shots && once.comparisons == twice.comparisons
    ensures once.suggestions == twice.suggestions && once.state == twice.state
  {
    SupersedeTwice(l.suggestions);
    SameStates(s2, l, m, direct.shots, RowsOf(direct.recipes), RowsOf(second.recipes), t2);
  }

  /** Rebuilding reads the markers, the centre and the places of the region and rows it is given, nothing else. */
  lemma RebuildReadsPlaces(s: Schedule, a: TrustRegion, b: TrustRegion, shots: seq<Shot>, ra: RecipeRows, rb: RecipeRows, cs: seq<Comparison>)
    requires ShotRows(shots)
    requires DistinctMarkers(a.transitions) == DistinctMarkers(b.transitions) && MarkersOf(a.transitions) == MarkersOf(b.transitions)
    requires Baseline(shots).None? ==> a.center == b.center
    requires forall i :: 0 <= i < |shots| ==> PositionIn(ra, shots[i].recipe) == PositionIn(rb, shots[i].recipe)
    ensures RebuildHistory(s, a, shots, ra, cs) == RebuildHistory(s, b, shots, rb, cs)
  {
    CentersOfOutline(shots, shots, ra, rb);
  }

  lemma SamePlacesAtOnce(mid: Space, space: Space, t: RecipeTable, u: RecipeTable, shots: seq<Shot>)
    requires RebaseShots(mid, t, shots).Ok? && RebaseShots(space, t, shots).Ok?
    requires RebaseShots(space, u, RebaseShots(mid, t, shots).value.shots).Ok?
    requires RebaseShots(space, t, shots).value.shots == RebaseShots(space, u, RebaseShots(mid, t, shots).value.shots).value.shots
    ensures var direct, second := RebaseShots(space, t, shots).value, RebaseShots(space, u, RebaseShots(mid, t, shots).value.shots).value;
      forall i :: 0 <= i < |direct.shots| ==> PositionIn(RowsOf(direct.recipes), direct.shots[i].recipe) == PositionIn(RowsOf(second.recipes), direct.shots[i].recipe)
  {
    var first, direct := RebaseShots(mid, t, shots).value, RebaseShots(space, t, shots).value;
    RebasedShots(mid, t, shots);
    RebasedShots(space, t, shots);
    forall i | 0 <= i < |direct.shots|
      ensures PositionIn(RowsOf(direct.recipes), direct.shots[i].recipe)
           == PositionIn(RowsOf(RebaseShots(space, u, first.shots).value.recipes), direct.shots[i].recipe)
    {
      RebasedAt(mid, t, shots, i);
      RebasedAt(space, t, shots, i);
      RebasedAt(space, u, first.shots, i);
    }
  }

  lemma MovedMarkersStay(s: Settings, l: Ledger, m: Ledger, mode: Mode, space: Space, rebased: Rebased, state: OptimizerState, now: nat)
    requires Inv(l) && Stamped(MarkersOf(l.state.region.transitions)) && Moved(s, l, m, mode, space, rebased, state, now)
    ensures DistinctMarkers(l.state.region.transitions) && DistinctMarkers(m.state.region.transitions)
    ensures MarkersOf(m.state.region.transitions) == MarkersOf(l.state.region.transitions)
    ensures Baseline(l.shots).None? ==> m.state.region.center == l.state.region.center
    ensures Baseline(m.shots) == Baseline(l.shots)
  {
    RebasedShots(space, l.table, l.shots);
    OutlineDecides(l.shots, m.shots);
    RebuildIsProjection(s.schedule, l.state.region, m.shots, RowsOf(rebased.recipes), l.comparisons);
  }

  lemma SupersedeTwice(rows: seq<SuggestionRow>)
    ensures Supersede(Supersede(rows)) == Supersede(rows)
  {
  }

  /** Two states that differ only in what a migration overwrites are rebuilt to the same state. */
  lemma SameStates(s: Settings, l: Ledger, m: Ledger, shots: seq<Shot>, ra: RecipeRows, rb: RecipeRows, now: nat)
    requires RebuildHistory(s.schedule, l.state.region, shots, ra, l.comparisons) == RebuildHistory(s.schedule, m.state.region, shots, rb, l.comparisons)
    requires RebuildHistory(s.schedule, l.state.region, shots, ra, l.comparisons).Ok?
    requires m.state.iteration == l.state.iteration
    ensures var a, b := RebuildState(s, l.state, shots, ra, l.comparisons, false, now), RebuildState(s, m.state, shots, rb, l.comparisons, false, now);
      a.Ok? && b.Ok? && ClearPending(a.value).(seed := s.seed, configuration := s.configuration) == ClearPending(b.value).(seed := s.seed, configuration := s.configuration)
  {
  }

  /** A migration keeps every shot's identity, order, status and physical observation, the comparisons and both heads. */
  lemma MigrationKeepsEvidence(s: Settings, l: Ledger, mode: Mode, now: nat)
    requires Inv(l) && MigrateRun(s, l, mode, now).Ok?
    ensures var m := MigrateRun(s, l, mode, now).value;
      && SameOutline(l.shots, m.shots) && m.comparisons == l.comparisons
      && m.state.previous == l.state.previous && m.state.incumbent == l.state.incumbent
      && (forall i :: 0 <= i < |l.shots| && l.shots[i].observed.Some? ==> m.shots[i].observed == l.shots[i].observed)
      && (forall k :: k in l.table.rows ==> k in m.table.rows && m.table.rows[k] == l.table.rows[k])
      && NoPending(m.state) && PendingSuggestion(m.suggestions).None?
  {
    var m := MigrateRun(s, l, mode, now).value;
    var space, rebased, state := MigrationParts(s, l, mode, now);
    MovedKeeps(s, l, m, mode, space, rebased, state, now);
    RebasedShots(space, l.table, l.shots);
    OutlineDecides(l.shots, m.shots);
    InsertedRecipes(l.table, rebased.recipes);
    NoOpenRow(m);
    forall i | 0 <= i < |l.shots| && l.shots[i].observed.Some?
      ensures m.shots[i].observed == l.shots[i].observed
    {
      RebasedAt(space, l.table, l.shots, i);
    }
  }

  /** Leaving the limits and coming back restores every shot, recipe identity included, once observations match their recipes. */
  lemma MigrationRoundTrip(s1: Settings, s2: Settings, l: Ledger, mode1: Mode, mode2: Mode, t1: nat, t2: nat)
    requires Inv(l) && Canonical(l) && ObservationsMatch(l) && s2.domain == l.run.space.version
    requires forall i :: 0 <= i < |l.shots| ==> l.shots[i].observed.Some?
    requires MigrateRun(s1, l, mode1, t1).Ok? && MigrateRun(s2, MigrateRun(s1, l, mode1, t1).value, mode2, t2).Ok?
    ensures var back := MigrateRun(s2, MigrateRun(s1, l, mode1, t1).value, mode2, t2).value;
      back.shots == l.shots && back.run.space == l.run.space
  {
    var m := MigrateRun(s1, l, mode1, t1).value;
    var mid, first, state1 := MigrationParts(s1, l, mode1, t1);
    MovedRows(s1, l, m, mode1, mid, first, state1, t1);
    var space, second, state2 := MigrationParts(s2, m, mode2, t2);
    MovedBack(s1, s2, l, m, MigrateRun(s2, m, mode2, t2).value, mode1, mode2, mid, space, first, second, state1, state2, t1, t2);
  }

  lemma MovedBack(s1: Settings, s2: Settings, l: Ledger, m: Ledger, back: Ledger, mode1: Mode, mode2: Mode, mid: Space, space: Space,
                  first: Rebased, second: Rebased, state1: OptimizerState, state2: OptimizerState, t1: nat, t2: nat)
    requires Canonical(l) && ObservationsMatch(l) && s2.domain == l.run.space.version
    requires forall i :: 0 <= i < |l.shots| ==> l.shots[i].observed.Some?
    requires Moved(s1, l, m, mode1, mid, first, state1, t1) && Moved(s2, m, back, mode2, space, second, state2, t2)
    ensures back.shots == l.shots && back.run.space == l.run.space
  {
    RebaseTwice(l.run.space, s1.domain, s2.domain);
    RebasedShots(mid, l.table, l.shots);
    RebasedShots(space, m.table, m.shots);
    forall i | 0 <= i < |l.shots|
      ensures back.shots[i] == l.shots[i]
    {
      RebasedAt(mid, l.table, l.shots, i);
      RebasedAt(space, m.table, m.shots, i);
      assert Engine.ValidateObservation(l.run.space, l.table.rows, l.shots[i]).Ok?;
    }
  }
}
