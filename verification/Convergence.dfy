/** Local convergence: when it can be left, what a reconfiguration forgets of it, and when a judgement meets it. */
module Convergence {
  import opened Prelude
  import opened RecipeSpace
  import opened RecipeLaws
  import opened Cpbo
  import opened TrustRegions
  import opened TrustRegionLaws
  import opened History
  import opened HistoryLaws
  import opened ReplayLaws
  import opened Ledgers
  import opened Service
  import opened Invariants
  import opened Faithfulness
  import opened Evidence
  import opened Markings
  import opened Tempos
  import opened Guarantees

  // ----- resuming -----

  /** The latest transition is the resumption this very request asked for. */
  predicate AlreadyResumed(t: TrustRegion, control: Option<ControlId>)
  {
    && control.Some? && t.transitions != []
    && t.transitions[|t.transitions| - 1].action.Resumed? && t.transitions[|t.transitions| - 1].control == control
  }

  /** A resumption is accepted exactly in an active best-incumbent run that has converged with nothing pending, or as the
      repetition of the latest transition. */
  lemma ResumeCondition(s: Settings, l: Ledger, control: Option<ControlId>, now: nat)
    requires Inv(l) && Marked(l)
    ensures ResumeLocalExploration(s, l, control, now).Ok? <==>
      && l.run.active && l.run.mode.BestIncumbent?
      && if l.state.region.locallyConverged then NoPending(l.state) else AlreadyResumed(l.state.region, control)
  {
    if l.run.active && l.run.mode.BestIncumbent? && l.state.region.locallyConverged && NoPending(l.state) {
      NoOpenRow(l);
      IncumbentIsStored(l);
    }
  }

  /** The incumbent of a run with a baseline is a stored shot with a stored recipe. */
  lemma IncumbentIsStored(l: Ledger)
    requires Inv(l) && Baseline(l.shots).Some?
    ensures l.state.incumbent.Some? && HasShot(l.shots, l.state.incumbent.value)
    ensures FindShot(l.shots, l.state.incumbent.value).value.recipe in l.table.rows
  {
    BaselineIsFirst(l.shots);
    ChainIsValid(l.run.id, Ranks(l.shots), Baseline(l.shots).value, l.comparisons);
    var i := ValidAt(l.shots, l.state.incumbent.value);
    UniqueShot(l.shots, i);
  }

  /** A converged run that was not reconfigured can be resumed exactly while it is active and judges against the incumbent. */
  lemma LiveResumeCondition(s: Settings, l: Ledger, control: Option<ControlId>, now: nat)
    requires Inv(l) && Marked(l) && Live(s, l) && l.state.region.locallyConverged
    ensures ResumeLocalExploration(s, l, control, now).Ok? <==> l.run.active && l.run.mode.BestIncumbent?
  {
    ResumeCondition(s, l, control, now);
  }

  // ----- judging -----

  /** The length the schedule gives the region for one more label is one it allows. */
  predicate LengthFits(s: Schedule, t: TrustRegion, preference: Preference)
  {
    s.limits.minimum <= Paced(s, TempoOf(t), preference).length <= s.limits.maximum
  }

  lemma JudgeCondition(s: Schedule, t: TrustRegion, c: Comparison, x: Point, incumbent: Option<ShotId>)
    ensures Judge(s, t, c, Some(x), incumbent).Ok? <==>
      c.mode.GlobalPrevious? || (!t.locallyConverged && LengthFits(s, t, c.preference))
    ensures OnSchedule(s, t) ==> LengthFits(s, t, c.preference)
  {
    ClampedIsInside(x);
  }

  /** An awaited judgement with a new identifier is accepted exactly when it is made against the previous shot, or outside local
      convergence; only a schedule that changed since the shot was pulled can add a length it does not allow. */
  lemma JudgementCondition(s: Settings, l: Ledger, j: Judgement, id: ComparisonId, now: nat)
    requires Inv(l) && l.state.pendingShot == Some(j.newShot) && l.state.pendingAnchor == Some(j.anchor)
    ensures RecordPreference(s, l, j, id, now).Ok? <==>
      && (forall i :: 0 <= i < |l.comparisons| ==> l.comparisons[i].id != id)
      && (l.run.mode.GlobalPrevious? || (!l.state.region.locallyConverged && LengthFits(s.schedule, l.state.region, j.preference)))
    ensures OnSchedule(s.schedule, l.state.region) ==> LengthFits(s.schedule, l.state.region, j.preference)
  {
    var k := OpenRow(l);
    var n := AwaitedIsStored(l, j.newShot);
    var a := AwaitedIsStored(l, j.anchor);
    var c := Comparison(id, l.run.id, j.newShot, j.anchor, j.preference, l.run.mode, now);
    var position := l.table.rows[l.shots[n].recipe].position;
    JudgedState(s, l, c, position, now);
    assert j.newShot !in Compared(l.comparisons);
    ComparedAt(l.comparisons);
    JudgementSteps(s, l, j, id, now, k, position);
  }

  lemma JudgedState(s: Settings, l: Ledger, c: Comparison, position: Point, now: nat)
    ensures StateWithComparison(s, l.state, c, position, now).Ok? <==>
      c.mode.GlobalPrevious? || (!l.state.region.locallyConverged && LengthFits(s.schedule, l.state.region, c.preference))
    ensures OnSchedule(s.schedule, l.state.region) ==> LengthFits(s.schedule, l.state.region, c.preference)
  {
    var incumbent := if c.preference.NewBetter? && l.state.incumbent == Some(c.anchor) then Some(c.newShot) else l.state.incumbent;
    JudgeCondition(s.schedule, l.state.region, c, position, incumbent);
  }

  lemma JudgementSteps(s: Settings, l: Ledger, j: Judgement, id: ComparisonId, now: nat, k: nat, position: Point)
    requires l.state.pendingShot == Some(j.newShot) && l.state.pendingAnchor == Some(j.anchor)
    requires k < |l.suggestions| && PendingSuggestion(l.suggestions) == Some(l.suggestions[k].suggestion) && l.suggestions[k].suggestion.mode == l.run.mode
    requires Latest(l.suggestions, {AwaitingPreference}).Some?
    requires HasShot(l.shots, j.newShot) && HasShot(l.shots, j.anchor)
    requires FindShot(l.shots, j.newShot).value.status.Valid? && FindShot(l.shots, j.anchor).value.status.Valid?
    requires FindShot(l.shots, j.anchor).value.sequence < FindShot(l.shots, j.newShot).value.sequence
    requires FindShot(l.shots, j.newShot).value.recipe in l.table.rows
    requires l.table.rows[FindShot(l.shots, j.newShot).value.recipe].position == position
    requires forall i :: 0 <= i < |l.comparisons| ==> l.comparisons[i].newShot != j.newShot
    ensures RecordPreference(s, l, j, id, now).Ok? <==>
      && (forall i :: 0 <= i < |l.comparisons| ==> l.comparisons[i].id != id)
      && StateWithComparison(s, l.state, Comparison(id, l.run.id, j.newShot, j.anchor, j.preference, l.run.mode, now), position, now).Ok?
  {
  }

  lemma AwaitedIsStored(l: Ledger, id: ShotId) returns (i: nat)
    requires Inv(l) && id in Ranks(l.shots)
    ensures i < |l.shots| && FindShot(l.shots, id) == Some(l.shots[i]) && l.shots[i].id == id && l.shots[i].status.Valid?
    ensures Ranks(l.shots)[id] == l.shots[i].sequence && HasShot(l.shots, id)
  {
    i := ValidAt(l.shots, id);
    UniqueShot(l.shots, i);
    ShotInValid(l.shots, i);
  }

  lemma ComparedAt(cs: seq<Comparison>)
    ensures forall i :: 0 <= i < |cs| ==> cs[i].newShot in Compared(cs)
  {
  }

  // ----- what a reconfiguration forgets -----

  /** The same shots and comparisons, without any transition. */
  predicate Forgotten(l: Ledger, m: Ledger)
  {
    m.shots == l.shots && m.comparisons == l.comparisons && m.state.region.transitions == []
  }

  lemma ForgottenTempo(s: Settings, l: Ledger, marked: Marks)
    requires Inv(l) && CanRebuild(s, l) && marked == MarkersOf(l.state.region.transitions).Keys && Baseline(l.shots).Some?
    ensures TempoAfter(s.schedule, {}, l.comparisons).Some? <==> OnlyGlobalAfterMarks(marked, l.comparisons)
    ensures TempoAfter(s.schedule, {}, l.comparisons).Some? ==>
      (TempoAfter(s.schedule, {}, l.comparisons).value.converged <==> RebuildsConverged(s, l) || marked != {})
  {
    WithoutMarkers(s.schedule, marked, l.comparisons);
    MarkedNames(marked, l.comparisons);
  }

  lemma MarkedNames(marked: Marks, cs: seq<Comparison>)
    requires marked <= Named(cs)
    ensures AnyMarked(marked, cs) <==> marked != {}
  {
    if k :| k in marked {
      var c :| c in cs && Some(c.id) == k;
      var i :| 0 <= i < |cs| && cs[i] == c;
    }
  }

  lemma WithoutTransitions(s: Settings, m: Ledger)
    requires m.state.region.transitions == []
    ensures CanRebuild(s, m) <==> (Baseline(m.shots).Some? ==> TempoAfter(s.schedule, {}, m.comparisons).Some?)
    ensures RebuildsConverged(s, m) <==>
      Baseline(m.shots).Some? && TempoAfter(s.schedule, {}, m.comparisons).Some? && TempoAfter(s.schedule, {}, m.comparisons).value.converged
  {
    assert MarkersOf(m.state.region.transitions) == map[];
    var none := MarkersOf(m.state.region.transitions).Keys;
    assert none == {};
  }

  /** A run whose transitions are gone can be rebuilt exactly when no best-incumbent comparison followed a resumption: the markers
      are gone, but the comparisons they followed are not. If it can, the rebuild ends converged exactly when the run was
      converged or had ever been resumed. */
  lemma ForgottenCondition(s: Settings, l: Ledger, m: Ledger)
    requires Inv(l) && Faithful(s, l) && Forgotten(l, m)
    ensures var marked := MarkersOf(l.state.region.transitions).Keys;
      && (CanRebuild(s, m) <==> OnlyGlobalAfterMarks(marked, l.comparisons))
      && (CanRebuild(s, m) ==> (RebuildsConverged(s, m) <==> l.state.region.locallyConverged || marked != {}))
  {
    FaithfulCanRebuild(s, l);
    WithoutTransitions(s, m);
    var marked := MarkersOf(l.state.region.transitions).Keys;
    if Baseline(l.shots).Some? {
      ForgottenTempo(s, l, marked);
    } else {
      assert marked == {};
    }
  }

  /** A reconfiguration succeeds exactly in an active run. */
  lemma ReconfigurationCondition(t: Settings, l: Ledger, mode: Mode, now: nat)
    requires Inv(l)
    ensures ReconfigureRun(t, l, mode, now).Ok? <==> l.run.active
  {
    if Baseline(l.shots).Some? {
      BaselineIsFirst(l.shots);
      ChainIsValid(l.run.id, Ranks(l.shots), Baseline(l.shots).value, l.comparisons);
      var i := AwaitedIsStored(l, l.state.previous.value);
      var j := AwaitedIsStored(l, l.state.incumbent.value);
    }
  }

  lemma ReconfigurationForgets(t: Settings, l: Ledger, mode: Mode, now: nat)
    requires ReconfigureRun(t, l, mode, now).Ok?
    ensures var m := ReconfigureRun(t, l, mode, now).value;
      && Forgotten(l, m) && m.table == l.table && m.run == l.run.(mode := mode, configuration := t.configuration)
      && !m.state.region.locallyConverged && NoPending(m.state)
      && m.state.previous == l.state.previous && m.state.incumbent == l.state.incumbent
  {
  }

  /** A reconfiguration clears convergence. Afterwards the run can be rebuilt exactly when no best-incumbent comparison followed a
      resumption, and the rebuild is converged again exactly when the run was, or had ever been resumed. */
  lemma ReconfiguredCondition(s: Settings, t: Settings, l: Ledger, mode: Mode, now: nat)
    requires Inv(l) && Faithful(s, l) && t.schedule == s.schedule && ReconfigureRun(t, l, mode, now).Ok?
    ensures var m := ReconfigureRun(t, l, mode, now).value;
      var marked := MarkersOf(l.state.region.transitions).Keys;
      && m.run.mode == mode && !m.state.region.locallyConverged
      && (CanRebuild(t, m) <==> OnlyGlobalAfterMarks(marked, l.comparisons))
      && (CanRebuild(t, m) ==> (RebuildsConverged(t, m) <==> l.state.region.locallyConverged || marked != {}))
  {
    var m := ReconfigureRun(t, l, mode, now).value;
    ReconfigurationForgets(t, l, mode, now);
    ForgottenCondition(s, l, m);
    SameScheduleRebuilds(s, t, m);
  }

  lemma SameScheduleRebuilds(s: Settings, t: Settings, m: Ledger)
    requires s.schedule == t.schedule
    ensures CanRebuild(t, m) == CanRebuild(s, m) && RebuildsConverged(t, m) == RebuildsConverged(s, m)
  {
  }

  /** A run stays marked and canonical when it is reconfigured. */
  lemma ForgottenStaysSound(l: Ledger, m: Ledger)
    requires Canonical(l) && Forgotten(l, m) && m.table == l.table && m.run.space == l.run.space && !m.state.region.locallyConverged
    ensures Canonical(m) && Marked(m)
  {
    assert MarkersOf(m.state.region.transitions) == map[];
  }

  /** Right after a reconfiguration a correction that changes a recipe is refused exactly when a best-incumbent comparison followed a
      resumption; otherwise it brings back the convergence that the reconfiguration had cleared, in whatever mode the run now is. */
  lemma CorrectionAfterReconfiguration(s: Settings, t: Settings, l: Ledger, mode: Mode, now: nat,
                                       id: ShotId, controls: Controls, notes: map<nat, nat>, later: nat)
    requires Inv(l) && Canonical(l) && Faithful(s, l) && t.schedule == s.schedule && ReconfigureRun(t, l, mode, now).Ok?
    requires HasShot(l.shots, id) && controls.higherIsFiner == l.run.space.higherIsFiner && Placeable(l.run.space, controls.recipe)
    requires !SameRecipe(l, id, controls.recipe)
    ensures var m := ReconfigureRun(t, l, mode, now).value;
      var marked := MarkersOf(l.state.region.transitions).Keys;
      var r := CorrectShot(t, m, id, controls, notes, later);
      && (r.Ok? <==> OnlyGlobalAfterMarks(marked, l.comparisons))
      && (r.Ok? ==> r.value.0.run.mode == mode && (r.value.0.state.region.locallyConverged <==> l.state.region.locallyConverged || marked != {}))
  {
    var m := ReconfigureRun(t, l, mode, now).value;
    ReconfigurationKeeps(t, l, mode, now);
    ReconfigurationForgets(t, l, mode, now);
    ReconfiguredCondition(s, t, l, mode, now);
    ForgottenStaysSound(l, m);
    assert HasShot(m.shots, id) && SameRecipe(m, id, controls.recipe) == SameRecipe(l, id, controls.recipe);
    RecipeChangeCondition(t, m, id, controls, notes, later);
  }

  /** A correction that changes the recipe succeeds exactly when the history can be rebuilt, and ends as converged as the rebuild. */
  lemma RecipeChangeCondition(s: Settings, l: Ledger, id: ShotId, controls: Controls, notes: map<nat, nat>, now: nat)
    requires Inv(l) && Canonical(l) && Marked(l)
    requires HasShot(l.shots, id) && controls.higherIsFiner == l.run.space.higherIsFiner && Placeable(l.run.space, controls.recipe)
    requires !SameRecipe(l, id, controls.recipe)
    ensures var r := CorrectShot(s, l, id, controls, notes, now);
      && (r.Ok? <==> CanRebuild(s, l))
      && (r.Ok? ==> r.value.0.run == l.run && r.value.1.recipeChanged && (r.value.0.state.region.locallyConverged <==> RebuildsConverged(s, l)))
  {
    CorrectionCondition(s, l, id, controls, notes, now);
    if CorrectShot(s, l, id, controls, notes, now).Ok? {
      CorrectionChanges(s, l, id, controls, notes, now);
      CorrectionConvergence(s, l, id, controls, notes, now);
    }
  }

  lemma CorrectionChanges(s: Settings, l: Ledger, id: ShotId, controls: Controls, notes: map<nat, nat>, now: nat)
    requires Inv(l) && CorrectShot(s, l, id, controls, notes, now).Ok?
    ensures var (m, done) := CorrectShot(s, l, id, controls, notes, now).value;
      m.run == l.run && done.recipeChanged == !SameRecipe(l, id, controls.recipe)
  {
    var i, recipe := CorrectionParts(s, l, id, controls, notes, now);
    var j, again := CorrectionRecord(s, l, id, controls, notes, now);
    ObserveCondition(l.run.space, controls.recipe, l.table.rows[l.shots[i].recipe].createdAt);
  }
}
