/** What each use case of the consecutive preference optimization service does to the rows of a run.
    A use case that raises leaves the rows unchanged, so each is a result over the new rows. */
module Service {
  import opened Prelude
  import opened RecipeSpace
  import opened Cpbo
  import opened TrustRegions
  import opened History
  import opened Ledgers
  import Engine

  /** What the service is configured with; the schedule is shared with the engine. */
  datatype Settings = Settings(schedule: Schedule, seed: nat, configuration: nat, domain: RecipeDomain)

  function ClearPending(s: OptimizerState): OptimizerState
  {
    s.(pendingRecipe := None, pendingAnchor := None, pendingShot := None)
  }

  function CreateState(s: Settings, center: Point, now: nat): OptimizerState
  {
    OptimizerState(None, None, 0, Fresh(s.schedule, center), None, None, s.seed, s.configuration, None, None, None, now)
  }

  /** Grid steps of the machine's controls. */
  datatype Resolutions = Resolutions(grind: real, dose: real, output: real)

  /** A new run around the baseline recipe. */
  function Initialize(s: Settings, id: RunId, mode: Mode, baseline: Controls, steps: Resolutions, now: nat): Result<Ledger>
  {
    var space :- SpaceAround(baseline.recipe.grind, steps.grind, steps.dose, steps.output, baseline.higherIsFiner, s.domain);
    var recipe :- Create(space, baseline.recipe, now);
    Ok(CreateRun(Run(id, mode, space, s.configuration, true), recipe, CreateState(s, recipe.position, now)))
  }

  function SuggestNext(s: Settings, l: Ledger, proposal: Option<Engine.Proposal>, now: nat): Result<(Ledger, Suggestion)>
  {
    var pending := PendingSuggestion(l.suggestions);
    if l.state.pendingRecipe.Some? then
      if l.state.pendingShot.Some? then Err(PreferenceDue)
      else if pending.None? then Err(SuggestionMissing)
      else Ok((l, pending.value))
    else
      var _ :- Need(!(l.run.mode.BestIncumbent? && l.state.region.locallyConverged), LocallyConverged);
      var made :- Engine.Suggest(s.configuration, l, proposal, now);
      var saved :- SaveSuggestion(l, made.suggestion, StateWithSuggestion(l.state, made, now));
      Ok((saved, made.suggestion))
  }

  function StateWithSuggestion(state: OptimizerState, made: Engine.Computation, now: nat): OptimizerState
  {
    state.(iteration := made.suggestion.iteration, model := Some(made.model), trace := made.trace,
           pendingRecipe := Some(made.suggestion.recipe.id), pendingAnchor := Some(made.suggestion.anchor), pendingShot := None,
           updatedAt := now)
  }

  function CanonicalRecipe(run: Run, c: Controls, now: nat): Result<RecipePoint>
  {
    var _ :- Need(c.higherIsFiner == run.space.higherIsFiner, DirectionDiffers);
    Create(run.space, c.recipe, now)
  }

  function ObservationRecipe(run: Run, c: Controls, createdAt: nat): Result<RecipePoint>
  {
    var _ :- Need(c.higherIsFiner == run.space.higherIsFiner, DirectionDiffers);
    Observe(run.space, c.recipe, createdAt)
  }

  /** What a machine reports about a finished attempt. */
  datatype ShotReport = ShotReport(id: ShotId, controls: Controls, status: Status, notes: map<nat, nat>)

  function RecordShot(l: Ledger, report: ShotReport, allowDeviation: bool, now: nat): Result<(Ledger, Shot)>
  {
    var recipe :- CanonicalRecipe(l.run, report.controls, now);
    var hasBaseline := Baseline(l.shots).Some?;
    var _ :- Need(hasBaseline ==> l.state.pendingRecipe.Some?, NoPendingSuggestion);
    var _ :- Need(hasBaseline ==> l.state.pendingShot.None?, PreferenceDue);
    var _ :- Need(hasBaseline ==> recipe.id == l.state.pendingRecipe.value || allowDeviation, RecipeMismatch);
    var _ :- Need(!hasBaseline ==> recipe.id == l.table.first, NotBaseline);
    var _ :- Need(InEnvelope(recipe.controls), OutsideEnvelope);
    var shot := Shot(report.id, recipe.id, |l.shots| + 1, report.status, Some(recipe.controls), None, report.notes);
    var saved :- SaveShot(l, recipe, shot, StateWithShot(l.state, hasBaseline, shot, recipe, now));
    Ok((saved, shot))
  }

  function StateWithShot(state: OptimizerState, hasBaseline: bool, shot: Shot, recipe: RecipePoint, now: nat): OptimizerState
  {
    if !shot.status.Valid? then ClearPending(state).(updatedAt := now)
    else if hasBaseline then state.(pendingShot := Some(shot.id), updatedAt := now)
    else state.(previous := Some(shot.id), incumbent := Some(shot.id), region := state.region.(center := recipe.position), updatedAt := now)
  }

  function RecordAbstention(l: Ledger, newShot: ShotId, anchor: ShotId, now: nat): Result<Ledger>
  {
    var shot := FindShot(l.shots, newShot);
    var _ :- Need(shot.Some?, UnknownShot);
    var _ :- Need(shot.value.status.Valid?, NotValidShot);
    if shot.value.abstention.Some? then
      var _ :- Need(shot.value.abstention.value.anchor == anchor, AnchorChanged);
      Ok(l)
    else
      var _ :- Need(l.state.pendingShot == Some(newShot) && l.state.pendingAnchor == Some(anchor), NotPendingShot);
      var anchorShot := FindShot(l.shots, anchor);
      var _ :- Need(anchorShot.Some?, UnknownShot);
      var _ :- Need(anchorShot.value.status.Valid?, NotValidShot);
      var _ :- Need(shot.value.recipe in l.table.rows, MissingRecipe);
      ReplaceShot(l, l.table.rows[shot.value.recipe], shot.value.(abstention := Some(Abstention(anchor, now))),
                  ClearPending(l.state).(updatedAt := now), true)
  }

  /** A judgement delivered by the user. */
  datatype Judgement = Judgement(newShot: ShotId, anchor: ShotId, preference: Preference)

  predicate Answers(c: Comparison, j: Judgement) { c.newShot == j.newShot && c.anchor == j.anchor }

  function RecordPreference(s: Settings, l: Ledger, j: Judgement, id: ComparisonId, now: nat): Result<Ledger>
  {
    if l.state.pendingShot != Some(j.newShot) then ReplayPreference(l, j)
    else
      var _ :- Need(l.state.pendingAnchor == Some(j.anchor), AnchorChanged);
      var newShot, anchor := FindShot(l.shots, j.newShot), FindShot(l.shots, j.anchor);
      var _ :- Need(newShot.Some? && anchor.Some?, UnknownShot);
      var _ :- Need(newShot.value.status.Valid? && anchor.value.status.Valid?, NotValidShot);
      var _ :- Need(newShot.value.sequence > anchor.value.sequence, NotNewer);
      var _ :- Need(newShot.value.recipe in l.table.rows, MissingRecipe);
      var pending := PendingSuggestion(l.suggestions);
      var _ :- Need(pending.Some?, SuggestionMissing);
      var _ :- Need(j.newShot != j.anchor, NotNewer);
      var c := Comparison(id, l.run.id, j.newShot, j.anchor, j.preference, pending.value.mode, now);
      var state :- StateWithComparison(s, l.state, c, l.table.rows[newShot.value.recipe].position, now);
      SaveComparison(l, c, state)
  }

  /** A repeated delivery is accepted when it repeats what is stored. */
  function ReplayPreference(l: Ledger, j: Judgement): Result<Ledger>
  {
    var _ :- Need(exists i :: 0 <= i < |l.comparisons| && Answers(l.comparisons[i], j), NotPendingShot);
    var _ :- Need(forall i :: 0 <= i < |l.comparisons| && Answers(l.comparisons[i], j) ==> l.comparisons[i].preference == j.preference, LabelConflict);
    Ok(l)
  }

  function StateWithComparison(s: Settings, state: OptimizerState, c: Comparison, position: Point, now: nat): Result<OptimizerState>
  {
    var incumbent := if c.preference.NewBetter? && state.incumbent == Some(c.anchor) then Some(c.newShot) else state.incumbent;
    var region :- Judge(s.schedule, state.region, c, Some(position), incumbent);
    Ok(ClearPending(state).(previous := Some(c.newShot), incumbent := incumbent, region := region, updatedAt := now))
  }

  function ResumeLocalExploration(s: Settings, l: Ledger, control: Option<ControlId>, now: nat): Result<Ledger>
  {
    var _ :- Need(l.run.active, NotActive);
    var _ :- Need(l.run.mode.BestIncumbent?, WrongMode);
    var ts := l.state.region.transitions;
    if !l.state.region.locallyConverged then
      var _ :- Need(control.Some? && ts != [] && ts[|ts| - 1].action.Resumed? && ts[|ts| - 1].control == control, NotConverged);
      Ok(l)
    else
      var _ :- Need(l.state.pendingRecipe.None? && l.state.pendingShot.None? && PendingSuggestion(l.suggestions).None?, WorkPending);
      var _ :- Need(l.state.incumbent.Some?, NoIncumbent);
      var shot := FindShot(l.shots, l.state.incumbent.value);
      var _ :- Need(shot.Some?, UnknownShot);
      var _ :- Need(shot.value.recipe in l.table.rows, MissingRecipe);
      var last := if l.comparisons == [] then None else Some(l.comparisons[|l.comparisons| - 1].id);
      var region :- Resume(s.schedule, l.state.region, ClampPoint(l.table.rows[shot.value.recipe].position), last,
                           l.state.incumbent.value, now, control);
      SaveState(l, l.state.(region := region, updatedAt := now), l.state.updatedAt)
  }

  /** Recipes of every listed shot, except of one that is being replaced. */
  function CollectRecipes(t: RecipeTable, start: RecipeRows, shots: seq<Shot>, except: Option<ShotId>): Result<RecipeRows>
  {
    if shots == [] then Ok(start)
    else
      var rows :- CollectRecipes(t, start, shots[..|shots| - 1], except);
      var last := shots[|shots| - 1];
      if except == Some(last.id) then Ok(rows)
      else if last.recipe !in t.rows then Err(MissingRecipe)
      else Ok(rows[last.recipe := t.rows[last.recipe]])
  }

  /** The state a history leads to, keeping an awaited comparison if asked and still possible. */
  function RebuildState(s: Settings, state: OptimizerState, shots: seq<Shot>, rows: RecipeRows, cs: seq<Comparison>,
                        preservePending: bool, now: nat): Result<OptimizerState>
  {
    var r :- RebuildHistory(s.schedule, state.region, shots, rows, cs);
    var valid := ValidById(shots);
    var awaiting := preservePending && state.pendingShot.Some? && state.pendingShot.value in valid
                    && state.pendingAnchor.Some? && state.pendingAnchor.value in valid;
    var kept := if awaiting then state else ClearPending(state);
    Ok(kept.(previous := if r.head.Some? then Some(r.head.value.previous) else None,
             incumbent := if r.head.Some? then Some(r.head.value.incumbent) else None,
             region := r.region, model := None, trace := None, updatedAt := now))
  }

  datatype Correction = Correction(shot: Shot, recipeChanged: bool, awaitingPreference: bool, suggestionInvalidated: bool)

  function CorrectShot(s: Settings, l: Ledger, id: ShotId, controls: Controls, notes: map<nat, nat>, now: nat): Result<(Ledger, Correction)>
  {
    var stored := FindShot(l.shots, id);
    var _ :- Need(stored.Some?, UnknownShot);
    var _ :- Need(stored.value.recipe in l.table.rows, MissingRecipe);
    var _ :- Need(InEnvelope(controls.recipe), OutsideEnvelope);
    var recipe :- ObservationRecipe(l.run, controls, l.table.rows[stored.value.recipe].createdAt);
    var shot := stored.value.(recipe := recipe.id, observed := Some(controls.recipe), notes := stored.value.notes + notes);
    if recipe.id == stored.value.recipe then
      var saved :- ReplaceShot(l, recipe, shot, l.state, false);
      Ok((saved, Correction(shot, false, l.state.pendingShot.Some?, false)))
    else
      var shots := Substitute(l.shots, shot);
      var rows :- CollectRecipes(l.table, map[recipe.id := recipe], shots, Some(id));
      var state :- RebuildState(s, l.state, shots, rows, l.comparisons, true, now);
      var invalidate := l.state.pendingRecipe.Some? && state.pendingRecipe.None?;
      var saved :- ReplaceShot(l, recipe, shot, state, invalidate);
      Ok((saved, Correction(shot, true, state.pendingShot.Some?, invalidate)))
  }

  function ExcludeShot(s: Settings, l: Ledger, id: ShotId, now: nat): Result<Ledger>
  {
    var stored := FindShot(l.shots, id);
    var _ :- Need(stored.Some?, UnknownShot);
    if stored.value.status.Excluded? then Ok(l)
    else
      var shot := stored.value.(status := Excluded);
      var shots := Substitute(l.shots, shot);
      var rows :- CollectRecipes(l.table, map[], shots, None);
      var kept := RetainedHistory(l.run.id, shots, l.comparisons);
      var state :- RebuildState(s, l.state, shots, rows, kept, false, now);
      ReplaceHistory(l, shot, kept, state)
  }

  /** A list of recipes keyed by identifier: a later one replaces an earlier one in place. */
  function Put(rs: seq<RecipePoint>, r: RecipePoint): seq<RecipePoint>
  {
    if rs == [] then [r]
    else if rs[|rs| - 1].id == r.id then rs[..|rs| - 1] + [r]
    else Put(rs[..|rs| - 1], r) + [rs[|rs| - 1]]
  }

  function RowsOf(rs: seq<RecipePoint>): RecipeRows
  {
    if rs == [] then map[] else RowsOf(rs[..|rs| - 1])[rs[|rs| - 1].id := rs[|rs| - 1]]
  }

  datatype Rebased = Rebased(recipes: seq<RecipePoint>, shots: seq<Shot>)

  /** What was physically observed; rows without an observation stand for their recipe. */
  function ObservedOf(t: RecipeTable, shot: Shot): Triple
    requires shot.recipe in t.rows
  {
    if shot.observed.Some? then shot.observed.value else t.rows[shot.recipe].controls
  }

  function RebaseShots(space: Space, t: RecipeTable, shots: seq<Shot>): Result<Rebased>
  {
    if shots == [] then Ok(Rebased([], []))
    else
      var r :- RebaseShots(space, t, shots[..|shots| - 1]);
      var last := shots[|shots| - 1];
      var _ :- Need(last.recipe in t.rows, MissingRecipe);
      var observed := ObservedOf(t, last);
      var recipe :- Observe(space, observed, t.rows[last.recipe].createdAt);
      Ok(Rebased(Put(r.recipes, recipe), r.shots + [last.(recipe := recipe.id, observed := Some(observed))]))
  }

  function MigrateRun(s: Settings, l: Ledger, mode: Mode, now: nat): Result<Ledger>
  {
    var space :- WithDomain(l.run.space, s.domain);
    var run := l.run.(mode := mode, space := space, configuration := s.configuration);
    var rebased :- RebaseShots(space, l.table, l.shots);
    var state :- RebuildState(s, l.state, rebased.shots, RowsOf(rebased.recipes), l.comparisons, false, now);
    Migrate(l, run, rebased.recipes, rebased.shots,
                   ClearPending(state).(seed := s.seed, configuration := s.configuration, updatedAt := now))
  }

  function ReconfigureRun(s: Settings, l: Ledger, mode: Mode, now: nat): Result<Ledger>
  {
    var anchor := if mode.GlobalPrevious? then l.state.previous else l.state.incumbent;
    var center :- ReconfiguredCenter(l, anchor);
    var state := ClearPending(l.state).(
      region := Fresh(s.schedule, ClampPoint(center)), model := None, trace := None,
      seed := s.seed, configuration := s.configuration, updatedAt := now);
    UpdateConfiguration(l, l.run.(mode := mode, configuration := s.configuration), state)
  }

  function ReconfiguredCenter(l: Ledger, anchor: Option<ShotId>): Result<Point>
  {
    if anchor.None? then
      if l.table.first in l.table.rows then Ok(l.table.rows[l.table.first].position) else Err(MissingRecipe)
    else
      var shot := FindShot(l.shots, anchor.value);
      var _ :- Need(shot.Some?, UnknownShot);
      var _ :- Need(shot.value.recipe in l.table.rows, MissingRecipe);
      Ok(l.table.rows[shot.value.recipe].position)
  }

  predicate MatchesConfiguration(s: Settings, run: Run, mode: Option<Mode>)
  {
    run.configuration == s.configuration && run.space.version == s.domain && (mode.None? || run.mode == mode.value)
  }

  /** How an active run meets the current settings. */
  datatype Fit = AsItIs | Retired | Migrated | Reconfigured

  function FitOf(s: Settings, l: Ledger, mode: Option<Mode>): Fit
  {
    if l.run.space.version != s.domain then
      if l.state.pendingShot.Some? then AsItIs else if l.shots == [] then Retired else Migrated
    else if MatchesConfiguration(s, l.run, mode) || l.state.pendingShot.Some? then AsItIs
    else Reconfigured
  }

  /** The run to continue under the current settings; its `active` flag is false when it was retired. */
  function CompatibleRun(s: Settings, l: Ledger, mode: Option<Mode>, now: nat): Result<Ledger>
  {
    var desired := if mode.Some? then mode.value else l.run.mode;
    match FitOf(s, l, mode)
    case AsItIs => Ok(l)
    case Retired => Ok(Deactivate(l))
    case Migrated => MigrateRun(s, l, desired, now)
    case Reconfigured => ReconfigureRun(s, l, desired, now)
  }
}
