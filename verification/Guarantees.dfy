/** What correction, exclusion, migration, convergence and redelivery guarantee. */
module Guarantees {
  import opened Prelude
  import opened RecipeSpace
  import opened RecipeLaws
  import opened Cpbo
  import opened TrustRegions
  import opened TrustRegionLaws
  import opened History
  import opened HistoryLaws
  import opened ReplayLaws
  import opened Ledgers
  import opened Service
  import opened Invariants
  import opened Faithfulness
  import opened Evidence
  import opened Markings
  import opened Tempos

  // ----- correction -----

  lemma {:induction false} CollectSucceeds(t: RecipeTable, start: RecipeRows, shots: seq<Shot>, except: Option<ShotId>)
    requires forall i :: 0 <= i < |shots| && except != Some(shots[i].id) ==> shots[i].recipe in t.rows
    ensures CollectRecipes(t, start, shots, except).Ok?
  {
    if shots != [] {
      CollectSucceeds(t, start, shots[..|shots| - 1], except);
    }
  }

  /** Whether a run can be rebuilt does not depend on where its shots are moved, and neither does whether it ends converged. */
  lemma RebuildAfterMove(s: Settings, l: Ledger, shots: seq<Shot>, rows: RecipeRows)
    requires Inv(l) && Stamped(MarkersOf(l.state.region.transitions)) && ShotRows(shots) && SameOutline(l.shots, shots)
    requires forall i :: 0 <= i < |shots| ==> shots[i].recipe in rows
    ensures RebuildHistory(s.schedule, l.state.region, shots, rows, l.comparisons).Ok? <==> CanRebuild(s, l)
    ensures RebuildHistory(s.schedule, l.state.region, shots, rows, l.comparisons).Ok? ==>
      (RebuildHistory(s.schedule, l.state.region, shots, rows, l.comparisons).value.region.locallyConverged <==> RebuildsConverged(s, l))
  {
    OutlineDecides(l.shots, shots);
    RebuildCondition(s.schedule, l.state.region, l.run.id, shots, rows, l.comparisons);
  }

  /** The labels, modes and markers of the stored history can be replayed. */
  predicate CanRebuild(s: Settings, l: Ledger) { Rebuildable(s.schedule, l.state.region, l.shots, l.comparisons) }

  /** The labels, modes and markers of the stored history end in local convergence. */
  predicate RebuildsConverged(s: Settings, l: Ledger)
  {
    && Baseline(l.shots).Some?
    && var x := TempoAfter(s.schedule, MarkersOf(l.state.region.transitions).Keys, l.comparisons); x.Some? && x.value.converged
  }

  /** A faithful run can always be rebuilt, and ends as converged as it is. */
  lemma FaithfulCanRebuild(s: Settings, l: Ledger)
    requires Inv(l) && Faithful(s, l)
    ensures CanRebuild(s, l) && (RebuildsConverged(s, l) <==> l.state.region.locallyConverged)
  {
    RebuildAfterMove(s, l, l.shots, l.table.rows);
  }

  /** The replay of any run succeeds exactly when the tempo of its history does. */
  lemma ReplayCondition(s: Settings, l: Ledger)
    requires Inv(l) && Marked(l)
    ensures ReplayOf(s, l).Ok? <==> CanRebuild(s, l)
    ensures ReplayOf(s, l).Ok? ==> (ReplayOf(s, l).value.region.locallyConverged <==> RebuildsConverged(s, l))
  {
    RebuildAfterMove(s, l, l.shots, l.table.rows);
  }

  /** The corrected observation stands for the recipe the shot already has. */
  predicate SameRecipe(l: Ledger, id: ShotId, observed: Triple)
    requires HasShot(l.shots, id)
  {
    FindShot(l.shots, id).value.recipe == RecipeId(l.run.space.version, QuantizeObserved(l.run.space, observed))
  }

  /** A correction succeeds exactly when its arguments can be placed and, if it changes the recipe, the history can be rebuilt. */
  lemma CorrectionCondition(s: Settings, l: Ledger, id: ShotId, controls: Controls, notes: map<nat, nat>, now: nat)
    requires Inv(l) && Canonical(l) && Marked(l)
    ensures CorrectShot(s, l, id, controls, notes, now).Ok? <==>
      && HasShot(l.shots, id) && controls.higherIsFiner == l.run.space.higherIsFiner && Placeable(l.run.space, controls.recipe)
      && (SameRecipe(l, id, controls.recipe) || CanRebuild(s, l))
  {
    if HasShot(l.shots, id) && controls.higherIsFiner == l.run.space.higherIsFiner && Placeable(l.run.space, controls.recipe) {
      var i := FoundShot(l.shots, id);
      ObserveCondition(l.run.space, controls.recipe, l.table.rows[l.shots[i].recipe].createdAt);
      var recipe := ObservationRecipe(l.run, controls, l.table.rows[l.shots[i].recipe].createdAt).value;
      ObservedIsCanonical(l.run.space, controls.recipe, l.table.rows[l.shots[i].recipe].createdAt);
      CanonicalNeverCollides(l.run.space, l.table, recipe);
      var shot := l.shots[i].(recipe := recipe.id, observed := Some(controls.recipe), notes := l.shots[i].notes + notes);
      CorrectionRebuilds(s, l, i, shot, recipe);
      CorrectionAccepted(s, l, id, i, controls, notes, now, recipe, shot);
    } else if CorrectShot(s, l, id, controls, notes, now).Ok? {
      var i, recipe := CorrectionRecord(s, l, id, controls, notes, now);
      ObserveCondition(l.run.space, controls.recipe, l.table.rows[l.shots[i].recipe].createdAt);
    }
  }

  /** A correction that changes the recipe leaves the region converged exactly when the history ends converged. */
  lemma CorrectionConvergence(s: Settings, l: Ledger, id: ShotId, controls: Controls, notes: map<nat, nat>, now: nat)
    requires Inv(l) && Marked(l) && CorrectShot(s, l, id, controls, notes, now).Ok? && CorrectShot(s, l, id, controls, notes, now).value.1.recipeChanged
    ensures CanRebuild(s, l)
    ensures CorrectShot(s, l, id, controls, notes, now).value.0.state.region.locallyConverged <==> RebuildsConverged(s, l)
  {
    var i, recipe := CorrectionParts(s, l, id, controls, notes, now);
    CorrectionRebuilds(s, l, i, CorrectShot(s, l, id, controls, notes, now).value.1.shot, recipe);
  }

  lemma CorrectionAccepted(s: Settings, l: Ledger, id: ShotId, i: nat, controls: Controls, notes: map<nat, nat>, now: nat, recipe: RecipePoint, shot: Shot)
    requires i < |l.shots| && FindShot(l.shots, id) == Some(l.shots[i]) && l.shots[i].id == id && l.shots[i].recipe in l.table.rows
    requires InEnvelope(controls.recipe)
    requires ObservationRecipe(l.run, controls, l.table.rows[l.shots[i].recipe].createdAt) == Ok(recipe)
    requires shot == l.shots[i].(recipe := recipe.id, observed := Some(controls.recipe), notes := l.shots[i].notes + notes)
    requires InsertRecipe(l.table, recipe).Ok? && HasShot(l.shots, id)
    requires CollectRecipes(l.table, map[recipe.id := recipe], Substitute(l.shots, shot), Some(id)).Ok?
    ensures var rows := CollectRecipes(l.table, map[recipe.id := recipe], Substitute(l.shots, shot), Some(id)).value;
      CorrectShot(s, l, id, controls, notes, now).Ok? <==>
        recipe.id == l.shots[i].recipe || RebuildHistory(s.schedule, l.state.region, Substitute(l.shots, shot), rows, l.comparisons).Ok?
  {
    var rows := CollectRecipes(l.table, map[recipe.id := recipe], Substitute(l.shots, shot), Some(id)).value;
    assert RebuildState(s, l.state, Substitute(l.shots, shot), rows, l.comparisons, true, now).Ok?
      <==> RebuildHistory(s.schedule, l.state.region, Substitute(l.shots, shot), rows, l.comparisons).Ok?;
  }

  lemma CorrectionRebuilds(s: Settings, l: Ledger, i: nat, shot: Shot, recipe: RecipePoint)
    requires Inv(l) && Marked(l) && i < |l.shots| && shot.recipe == recipe.id
    requires shot.id == l.shots[i].id && shot.sequence == l.shots[i].sequence && shot.status == l.shots[i].status
    ensures var shots := Substitute(l.shots, shot);
      var rows := CollectRecipes(l.table, map[recipe.id := recipe], shots, Some(shot.id));
      && rows.Ok?
      && (RebuildHistory(s.schedule, l.state.region, shots, rows.value, l.comparisons).Ok? <==> CanRebuild(s, l))
      && (RebuildHistory(s.schedule, l.state.region, shots, rows.value, l.comparisons).Ok? ==>
            (RebuildHistory(s.schedule, l.state.region, shots, rows.value, l.comparisons).value.region.locallyConverged <==> RebuildsConverged(s, l)))
  {
    SubstituteKeepsOutline(l.shots, i, shot);
    var shots := Substitute(l.shots, shot);
    CollectSucceeds(l.table, map[recipe.id := recipe], shots, Some(shot.id));
    CollectedRecipes(l.table, map[recipe.id := recipe], shots, Some(shot.id));
    RebuildAfterMove(s, l, shots, CollectRecipes(l.table, map[recipe.id := recipe], shots, Some(shot.id)).value);
  }

  /** A correction never touches a preference: comparisons, heads and an awaited comparison stay, a suggestion that
      was not pulled is superseded when the recipe changes, and the trust region stays on the same schedule. */
  lemma CorrectionIsPreferenceNeutral(s: Settings, l: Ledger, id: ShotId, controls: Controls, notes: map<nat, nat>, now: nat)
    requires Inv(l) && CorrectShot(s, l, id, controls, notes, now).Ok?
    ensures var (m, done) := CorrectShot(s, l, id, controls, notes, now).value;
      && m.comparisons == l.comparisons && m.run == l.run && SameOutline(l.shots, m.shots)
      && m.state.previous == l.state.previous && m.state.incumbent == l.state.incumbent
      && (l.state.pendingShot.Some? || !done.recipeChanged ==>
            m.state.pendingShot == l.state.pendingShot && m.state.pendingRecipe == l.state.pendingRecipe
            && m.state.pendingAnchor == l.state.pendingAnchor && m.suggestions == l.suggestions && !done.suggestionInvalidated)
      && (l.state.pendingShot.None? && done.recipeChanged ==> NoPending(m.state) && PendingSuggestion(m.suggestions).None?)
      && (done.suggestionInvalidated <==> done.recipeChanged && l.state.pendingRecipe.Some? && l.state.pendingShot.None?)
      && done.awaitingPreference == l.state.pendingShot.Some?
    ensures Live(s, l) ==> SameSchedule(l.state.region, CorrectShot(s, l, id, controls, notes, now).value.0.state.region)
  {
    var (m, done) := CorrectShot(s, l, id, controls, notes, now).value;
    var i, recipe := CorrectionParts(s, l, id, controls, notes, now);
    CorrectionKeeps(s, l, id, controls, notes, now);
    if done.recipeChanged {
      var rows := CollectRecipes(l.table, map[recipe.id := recipe], m.shots, Some(id)).value;
      RebuiltState(s, l, m, rows, now);
      if NoPending(m.state) {
        NoOpenRow(m);
      }
    }
    if Live(s, l) {
      CorrectionKeepsSchedule(s, l, id, controls, notes, now);
    }
  }

  lemma CorrectionKeepsSchedule(s: Settings, l: Ledger, id: ShotId, controls: Controls, notes: map<nat, nat>, now: nat)
    requires Inv(l) && Live(s, l) && CorrectShot(s, l, id, controls, notes, now).Ok?
    ensures SameSchedule(l.state.region, CorrectShot(s, l, id, controls, notes, now).value.0.state.region)
  {
    CorrectionKeeps(s, l, id, controls, notes, now);
    var i, recipe := CorrectionRecord(s, l, id, controls, notes, now);
    CorrectedSchedule(s, l, CorrectShot(s, l, id, controls, notes, now).value.0, i, recipe, now);
  }

  lemma CorrectedSchedule(s: Settings, l: Ledger, m: Ledger, i: nat, recipe: RecipePoint, now: nat)
    requires Inv(l) && Inv(m) && Live(s, l) && Corrected(s, l, m, i, recipe, now)
    ensures SameSchedule(l.state.region, m.state.region)
  {
    if recipe.id == l.shots[i].recipe {
      SameUpToCentre(l.state.region, m.state.region);
    } else {
      var rows := CollectRecipes(l.table, map[recipe.id := recipe], m.shots, Some(m.shots[i].id)).value;
      InsertedRecipe(l.table, recipe);
      OutlineDecides(l.shots, m.shots);
      CorrectedPlaces(l, m, i, recipe, rows);
      RebuiltIsFaithful(s, l.state.region, m, rows);
      RebuiltMarkers(s, l.state.region, m, rows);
      SameScheduleAfterMove(s, l, m);
    }
  }

  // ----- exclusion -----

  /** No comparison mentions a shot. */
  predicate Unmentioned(cs: seq<Comparison>, id: ShotId) { forall c :: c in cs ==> c.newShot != id && c.anchor != id }

  /** Exclusion leaves a subsequence of the comparisons without the excluded shot, the state they replay to and nothing open. */
  lemma ExclusionIsConsistent(s: Settings, l: Ledger, id: ShotId, now: nat)
    requires Inv(l) && Stamped(MarkersOf(l.state.region.transitions))
    requires ExcludeShot(s, l, id, now).Ok? && !FindShot(l.shots, id).value.status.Excluded?
    ensures var m := ExcludeShot(s, l, id, now).value;
      && Subsequence(m.comparisons, l.comparisons) && Unmentioned(m.comparisons, id)
      && ReplayOf(s, m) == Ok(Rebuilt(HeadOf(m.state), m.state.region))
      && NoPending(m.state) && PendingSuggestion(m.suggestions).None?
      && id !in Ranks(m.shots) && m.table == l.table && m.run == l.run
  {
    var m := ExcludeShot(s, l, id, now).value;
    var i, rows := ExclusionParts(s, l, id, now);
    ExcludedFaithful(s, l, m, i, rows, now);
    ExcludedRows(s, l, m, i, rows, now);
    KeptRows(l, m.shots);
    NoOpenRow(m);
    ShotInValid(m.shots, i);
    forall c | c in m.comparisons
      ensures c.newShot != id && c.anchor != id
    {
      var k :| 0 <= k < |m.comparisons| && m.comparisons[k] == c;
      ChainAt(m.run.id, Ranks(m.shots), Baseline(m.shots).value, m.comparisons, k);
    }
  }

  /** The comparisons an exclusion would keep can be replayed with the stored markers, all of which they name. */
  predicate CanExclude(s: Settings, l: Ledger, id: ShotId)
    requires HasShot(l.shots, id)
  {
    var shots := Substitute(l.shots, FindShot(l.shots, id).value.(status := Excluded));
    Rebuildable(s.schedule, l.state.region, shots, RetainedHistory(l.run.id, shots, l.comparisons))
  }

  /** An exclusion succeeds exactly for a known shot that is excluded already or whose comparisons can be spared. */
  lemma ExclusionCondition(s: Settings, l: Ledger, id: ShotId, now: nat)
    requires Inv(l) && Marked(l)
    ensures ExcludeShot(s, l, id, now).Ok? <==> HasShot(l.shots, id) && (FindShot(l.shots, id).value.status.Excluded? || CanExclude(s, l, id))
  {
    if HasShot(l.shots, id) && !FindShot(l.shots, id).value.status.Excluded? {
      var i := FoundShot(l.shots, id);
      var shot := l.shots[i].(status := Excluded);
      SubstituteKeepsOutline(l.shots, i, shot);
      ExclusionRebuilds(s, l, l.shots[i := shot]);
      var kept := RetainedHistory(l.run.id, l.shots[i := shot], l.comparisons);
      KeptDistinct(l, l.shots[i := shot]);
      assert HasShot(l.shots, shot.id);
    }
  }

  lemma ExclusionRebuilds(s: Settings, l: Ledger, shots: seq<Shot>)
    requires Inv(l) && Marked(l) && ShotRows(shots) && forall i :: 0 <= i < |shots| ==> shots[i].recipe in l.table.rows
    ensures var kept := RetainedHistory(l.run.id, shots, l.comparisons);
      var rows := CollectRecipes(l.table, map[], shots, None);
      && rows.Ok?
      && var r := RebuildHistory(s.schedule, l.state.region, shots, rows.value, kept);
      && (r.Ok? <==> Rebuildable(s.schedule, l.state.region, shots, kept))
      && (r.Ok? ==> (r.value.region.locallyConverged <==>
            Baseline(shots).Some? && TempoAfter(s.schedule, MarkersOf(l.state.region.transitions).Keys, kept).value.converged))
  {
    var kept := RetainedHistory(l.run.id, shots, l.comparisons);
    CollectSucceeds(l.table, map[], shots, None);
    CollectedRecipes(l.table, map[], shots, None);
    KeptRows(l, shots);
    if Baseline(shots).Some? {
      RetainedIsLegal(l.run.id, Ranks(shots), Baseline(shots).value, l.comparisons);
    }
    RebuildCondition(s.schedule, l.state.region, l.run.id, shots, CollectRecipes(l.table, map[], shots, None).value, kept);
  }

  lemma KeptDistinct(l: Ledger, shots: seq<Shot>)
    requires Inv(l)
    ensures var kept := RetainedHistory(l.run.id, shots, l.comparisons);
      DistinctRows(kept) && forall i :: 0 <= i < |kept| ==> kept[i].run == l.run.id
  {
    KeptRows(l, shots);
    if Baseline(shots).Some? {
      RetainedIsLegal(l.run.id, Ranks(shots), Baseline(shots).value, l.comparisons);
      ChainRows(l.run.id, Ranks(shots), Baseline(shots).value, RetainedHistory(l.run.id, shots, l.comparisons));
    }
  }

  lemma ChainRows(run: RunId, ranks: map<ShotId, nat>, base: ShotId, cs: seq<Comparison>)
    requires LegalChain(run, ranks, base, cs)
    ensures forall i :: 0 <= i < |cs| ==> cs[i].run == run
    ensures forall i, j :: 0 <= i < j < |cs| ==> cs[i].newShot != cs[j].newShot
  {
    forall i | 0 <= i < |cs|
      ensures cs[i].run == run && forall k :: 0 <= k < i ==> cs[k].newShot != cs[i].newShot
    {
      ChainAt(run, ranks, base, cs, i);
      forall k | 0 <= k < i
        ensures cs[k].newShot != cs[i].newShot
      {
        assert cs[..i][k] == cs[k];
      }
    }
  }

  /** An exclusion leaves the region converged exactly when the history it keeps ends converged. */
  lemma ExclusionConvergence(s: Settings, l: Ledger, id: ShotId, now: nat)
    requires Inv(l) && Marked(l) && ExcludeShot(s, l, id, now).Ok? && !FindShot(l.shots, id).value.status.Excluded?
    ensures var m := ExcludeShot(s, l, id, now).value;
      m.state.region.locallyConverged <==>
        && Baseline(m.shots).Some?
        && var x := TempoAfter(s.schedule, MarkersOf(l.state.region.transitions).Keys, m.comparisons); x.Some? && x.value.converged
  {
    var i, rows := ExclusionParts(s, l, id, now);
    ExclusionRebuilds(s, l, ExcludeShot(s, l, id, now).value.shots);
  }

  /** Excluding an excluded shot again returns without writing, with any settings and at any time. */
  lemma ExclusionIsIdempotent(s: Settings, l: Ledger, id: ShotId, now: nat, t: Settings, later: nat)
    requires Inv(l) && ExcludeShot(s, l, id, now).Ok?
    ensures var m := ExcludeShot(s, l, id, now).value; ExcludeShot(t, m, id, later) == Ok(m)
  {
    if !FindShot(l.shots, id).value.status.Excluded? {
      var i, rows := ExclusionParts(s, l, id, now);
      UniqueShot(ExcludeShot(s, l, id, now).value.shots, i);
    }
  }

  // ----- convergence -----

  /** A converged best-incumbent run records nothing more until it is resumed. */
  lemma ConvergedIsQuiescent(s: Settings, l: Ledger)
    requires Inv(l) && Live(s, l) && l.run.mode.BestIncumbent? && l.state.region.locallyConverged
    ensures NoPending(l.state) && PendingSuggestion(l.suggestions).None? && l.comparisons != []
    ensures forall p, now :: SuggestNext(s, l, p, now) == Err(Refusal.LocallyConverged)
    ensures forall r, deviate, now :: RecordShot(l, r, deviate, now).Err?
    ensures forall j, id, now :: RecordPreference(s, l, j, id, now).Ok? ==> RecordPreference(s, l, j, id, now).value == l
  {
    NoOpenRow(l);
    ConvergedAfterUnmarked(s, l);
  }

  /** Resume markers name distinct stored comparisons, so a rebuild never meets a duplicate marker. */
  lemma MarkersNameComparisons(s: Settings, l: Ledger)
    requires Inv(l) && Faithful(s, l)
    ensures DistinctMarkers(l.state.region.transitions)
    ensures forall k :: k in MarkersOf(l.state.region.transitions) ==> exists c :: c in l.comparisons && k == Some(c.id)
  {
    RebuildIsProjection(s.schedule, l.state.region, l.shots, l.table.rows, l.comparisons);
    assert MarkersOf(l.state.region.transitions).Keys <= Named(l.comparisons);
  }

  // ----- migration -----

  lemma {:induction false} RebasingCondition(space: Space, t: RecipeTable, shots: seq<Shot>)
    requires forall i :: 0 <= i < |shots| ==> shots[i].recipe in t.rows
    ensures RebaseShots(space, t, shots).Ok? <==> forall i :: 0 <= i < |shots| ==> Placeable(space, ObservedOf(t, shots[i]))
  {
    if shots != [] {
      var n := |shots| - 1;
      RebasingCondition(space, t, shots[..n]);
      assert forall i :: 0 <= i < n ==> shots[..n][i] == shots[i];
      ObserveCondition(space, ObservedOf(t, shots[n]), t.rows[shots[n].recipe].createdAt);
    }
  }

  /** Every stored observation can be placed under the new limits. */
  predicate AllPlaceable(space: Space, l: Ledger)
  {
    forall i :: 0 <= i < |l.shots| ==> l.shots[i].recipe in l.table.rows && Placeable(space, ObservedOf(l.table, l.shots[i]))
  }

  /** A migration succeeds exactly when the run is active and has shots, the resolutions fit the new limits, every observation can
      be placed and the history can be rebuilt. */
  lemma MigrationCondition(s: Settings, l: Ledger, mode: Mode, now: nat)
    requires Inv(l) && Canonical(l) && Marked(l)
    ensures MigrateRun(s, l, mode, now).Ok? <==>
      && l.run.active && l.shots != [] && StepsFit(l.run.space, s.domain)
      && AllPlaceable(WithDomain(l.run.space, s.domain).value, l)
      && CanRebuild(s, l)
  {
    RebaseCondition(l.run.space, s.domain);
    if StepsFit(l.run.space, s.domain) {
      var space := WithDomain(l.run.space, s.domain).value;
      RebasingCondition(space, l.table, l.shots);
      if RebaseShots(space, l.table, l.shots).Ok? {
        MigrationRebuilds(s, l, space);
        if l.run.active && l.shots != [] && CanRebuild(s, l) {
          var rebased := RebaseShots(space, l.table, l.shots).value;
          RebasedInserts(l, s.domain, space, rebased);
          MigrationAccepted(s, l, mode, now, space, rebased);
        }
      }
    }
    if MigrateRun(s, l, mode, now).Ok? {
      MigratedRun(s, l, mode, now);
    }
  }

  lemma MigratedRun(s: Settings, l: Ledger, mode: Mode, now: nat)
    requires MigrateRun(s, l, mode, now).Ok?
    ensures l.run.active && l.shots != [] && WithDomain(l.run.space, s.domain).Ok?
    ensures var space := WithDomain(l.run.space, s.domain).value;
      && RebaseShots(space, l.table, l.shots).Ok?
      && var rebased := RebaseShots(space, l.table, l.shots).value;
        RebuildState(s, l.state, rebased.shots, RowsOf(rebased.recipes), l.comparisons, false, now).Ok?
  {
    RebasedShots(WithDomain(l.run.space, s.domain).value, l.table, l.shots);
  }

  lemma MigrationRebuilds(s: Settings, l: Ledger, space: Space)
    requires Inv(l) && Marked(l) && RebaseShots(space, l.table, l.shots).Ok?
    ensures var rebased := RebaseShots(space, l.table, l.shots).value;
      var r := RebuildHistory(s.schedule, l.state.region, rebased.shots, RowsOf(rebased.recipes), l.comparisons);
      && (r.Ok? <==> CanRebuild(s, l))
      && (r.Ok? ==> (r.value.region.locallyConverged <==> RebuildsConverged(s, l)))
  {
    var rebased := RebaseShots(space, l.table, l.shots).value;
    RebasedShots(space, l.table, l.shots);
    RebasedInRows(space, l.table, l.shots);
    OutlineRows(l.shots, rebased.shots);
    RebuildAfterMove(s, l, rebased.shots, RowsOf(rebased.recipes));
  }

  lemma OutlineRows(a: seq<Shot>, b: seq<Shot>)
    requires ShotRows(a) && SameOutline(a, b)
    ensures ShotRows(b)
  {
  }

  /** A migration leaves the region converged exactly when the history ends converged. */
  lemma MigrationConvergence(s: Settings, l: Ledger, mode: Mode, now: nat)
    requires Inv(l) && Marked(l) && MigrateRun(s, l, mode, now).Ok?
    ensures CanRebuild(s, l)
    ensures MigrateRun(s, l, mode, now).value.state.region.locallyConverged <==> RebuildsConverged(s, l)
  {
    var space, rebased, state := MigrationParts(s, l, mode, now);
    MigrationRebuilds(s, l, space);
  }

  lemma RebasedInRows(space: Space, t: RecipeTable, shots: seq<Shot>)
    requires RebaseShots(space, t, shots).Ok?
    ensures var r := RebaseShots(space, t, shots).value;
      && |r.shots| == |shots| && (forall i :: 0 <= i < |r.shots| ==> r.shots[i].recipe in RowsOf(r.recipes))
      && (forall i :: 0 <= i < |r.shots| ==> exists j :: 0 <= j < |r.recipes| && r.recipes[j].id == r.shots[i].recipe)
  {
    RebasedShots(space, t, shots);
    var r := RebaseShots(space, t, shots).value;
    RowsHold(r.recipes);
    forall i | 0 <= i < |r.shots|
      ensures r.shots[i].recipe in RowsOf(r.recipes)
      ensures exists j :: 0 <= j < |r.recipes| && r.recipes[j].id == r.shots[i].recipe
    {
      RebasedAt(space, t, shots, i);
      var row := RowsOf(r.recipes)[r.shots[i].recipe];
      var j :| 0 <= j < |r.recipes| && r.recipes[j] == row;
    }
  }

  lemma RebasedInserts(l: Ledger, d: RecipeDomain, space: Space, rebased: Rebased)
    requires Canonical(l) && WithDomain(l.run.space, d) == Ok(space) && RebaseShots(space, l.table, l.shots) == Ok(rebased)
    ensures InsertRecipes(l.table, rebased.recipes).Ok?
  {
    RebaseTwice(l.run.space, d, d);
    forall k | k in l.table.rows
      ensures CanonicalRow(space, l.table.rows[k])
    {
      RebasedStaysCanonical(l.run.space, d, l.table.rows[k]);
    }
    RebasedRecipesCanonical(space, l.table, l.shots);
    CanonicalInserts(space, l.table, rebased.recipes);
  }

  lemma MigrationAccepted(s: Settings, l: Ledger, mode: Mode, now: nat, space: Space, rebased: Rebased)
    requires ShotRows(l.shots) && l.run.active && l.shots != []
    requires WithDomain(l.run.space, s.domain) == Ok(space) && RebaseShots(space, l.table, l.shots) == Ok(rebased)
    requires RebuildHistory(s.schedule, l.state.region, rebased.shots, RowsOf(rebased.recipes), l.comparisons).Ok?
    requires InsertRecipes(l.table, rebased.recipes).Ok?
    ensures MigrateRun(s, l, mode, now).Ok?
  {
    RebasedShots(space, l.table, l.shots);
    RebasedInRows(space, l.table, l.shots);
    var run := l.run.(mode := mode, space := space, configuration := s.configuration);
    var state := RebuildState(s, l.state, rebased.shots, RowsOf(rebased.recipes), l.comparisons, false, now).value;
    MigrateAccepted(l, run, rebased.recipes, rebased.shots,
                    ClearPending(state).(seed := s.seed, configuration := s.configuration, updatedAt := now));
  }

  lemma MigrateAccepted(l: Ledger, run: Run, recipes: seq<RecipePoint>, shots: seq<Shot>, state: OptimizerState)
    requires ShotRows(l.shots) && SameOutline(l.shots, shots) && shots != [] && run.active && l.run.active && NoPending(state)
    requires DistinctRecipes(recipes) && InsertRecipes(l.table, recipes).Ok?
    requires RecipesListed(shots, recipes)
    ensures Migrate(l, run, recipes, shots, state).Ok?
  {
    assert forall i :: 0 <= i < |l.shots| ==> shots[i].id == l.shots[i].id;
    assert Covers(shots, l.shots);
    assert CheckMigration(l, run, recipes, shots, state).Ok?;
  }
}
