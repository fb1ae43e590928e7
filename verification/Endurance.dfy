/** What lasts over whole runs: the markers of the trust region, canonical recipes and the evidence the optimizer needs. */
module Endurance {
  import opened Prelude
  import opened RecipeSpace
  import opened RecipeLaws
  import opened Cpbo
  import opened TrustRegions
  import opened TrustRegionLaws
  import opened History
  import opened HistoryLaws
  import opened ReplayLaws
  import opened Ledgers
  import opened Service
  import opened Invariants
  import opened Faithfulness
  import opened Evidence
  import opened Guarantees
  import opened Frames
  import opened Markings
  import opened Runs
  import Engine

  /** Markers and pending work stay in order, whatever happens to the run. */
  lemma StepStaysMarked(x: Session, e: Event)
    requires Inv(x.ledger) && Allowed(x, e) && Marked(x.ledger)
    ensures Marked(Step(x, e).ledger)
  {
    var s, l := x.settings, x.ledger;
    if Attempt(s, l, e).Ok? {
      match e
      case Suggest(p, now) => SuggestionParts(s, l, p, now);
      case Report(r, deviate, now) => RecordedParts(l, r, deviate, now);
      case Abstain(n, a, now) => var i := AbstentionParts(l, n, a, now);
      case Prefer(j, id, now) => JudgeStaysMarked(s, l, j, id, now);
      case Reopen(control, now) => ResumeStaysMarked(s, l, control, now);
      case Correct(id, controls, notes, now) => CorrectStaysMarked(s, l, id, controls, notes, now);
      case Exclude(id, now) => ExcludeStaysMarked(s, l, id, now);
      case Configure(_) =>
      case Meet(mode, now) => MeetStaysMarked(s, l, mode, now);
    }
  }

  /** Every shot carries an observation, and its recipe is the one that observation stands for. */
  predicate Matching(l: Ledger)
  {
    ObservationsMatch(l) && forall i :: 0 <= i < |l.shots| ==> l.shots[i].observed.Some?
  }

  /** Evidence kept in a run whose space is aligned: canonical recipes and observations that match them. */
  predicate Sound(l: Ledger) { Canonical(l) && Matching(l) }

  lemma StepStaysCanonical(x: Session, e: Event)
    requires Inv(x.ledger) && Canonical(x.ledger) && Allowed(x, e)
    ensures Canonical(Step(x, e).ledger)
  {
    var s, l := x.settings, x.ledger;
    if Attempt(s, l, e).Ok? {
      match e
      case Suggest(p, now) => SuggestionStaysCanonical(s, l, p, now);
      case Report(r, deviate, now) => ShotStaysCanonical(l, r, deviate, now);
      case Abstain(n, a, now) => AbstainFrame(l, n, a, now);
      case Prefer(j, id, now) => JudgeFrame(s, l, j, id, now);
      case Reopen(control, now) => ResumeFrame(s, l, control, now);
      case Correct(id, controls, notes, now) => CorrectionStaysCanonical(s, l, id, controls, notes, now);
      case Exclude(id, now) => ExcludeFrame(s, l, id, now);
      case Configure(_) =>
      case Meet(mode, now) => MetStaysCanonical(s, l, mode, now);
    }
  }

  lemma MetStaysCanonical(s: Settings, l: Ledger, mode: Option<Mode>, now: nat)
    requires Inv(l) && Canonical(l) && CompatibleRun(s, l, mode, now).Ok?
    ensures Canonical(CompatibleRun(s, l, mode, now).value)
  {
    MeetFrame(s, l, mode, now);
    if FitOf(s, l, mode).Migrated? {
      var desired := if mode.Some? then mode.value else l.run.mode;
      var space, rebased, state := MigrationParts(s, l, desired, now);
      MovedStaysCanonical(s, l, CompatibleRun(s, l, mode, now).value, desired, space, rebased, state, now);
    }
  }

  /** Shots that keep recipe and observation keep matching when recipes are only added. */
  lemma MatchingPersists(l: Ledger, m: Ledger)
    requires Matching(l) && m.run.space == l.run.space && SameObservations(l.shots, m.shots) && MoreRecipes(l, m)
    ensures Matching(m)
  {
    forall i | 0 <= i < |m.shots|
      ensures m.shots[i].recipe in m.table.rows && Engine.ValidateObservation(m.run.space, m.table.rows, m.shots[i]).Ok?
    {
      assert Engine.ValidateObservation(l.run.space, l.table.rows, l.shots[i]).Ok?;
    }
  }

  lemma CorrectedStaysMatching(s: Settings, l: Ledger, id: ShotId, controls: Controls, notes: map<nat, nat>, now: nat)
    requires Inv(l) && Sound(l) && CorrectShot(s, l, id, controls, notes, now).Ok?
    ensures Matching(CorrectShot(s, l, id, controls, notes, now).value.0)
  {
    var i, recipe := CorrectionRecord(s, l, id, controls, notes, now);
    InsertedRecipe(l.table, recipe);
    OneShotRewritten(l, CorrectShot(s, l, id, controls, notes, now).value.0, i, controls.recipe, recipe);
  }

  lemma OneShotRewritten(l: Ledger, m: Ledger, i: nat, observed: Triple, recipe: RecipePoint)
    requires Matching(l) && i < |l.shots| && |m.shots| == |l.shots| && m.shots == l.shots[i := m.shots[i]] && m.run == l.run
    requires MoreRecipes(l, m) && recipe.id in m.table.rows && m.shots[i].recipe == recipe.id && m.shots[i].observed == Some(observed)
    requires Observe(l.run.space, observed, recipe.createdAt) == Ok(recipe)
    ensures Matching(m)
  {
    forall j | 0 <= j < |m.shots|
      ensures m.shots[j].recipe in m.table.rows && Engine.ValidateObservation(m.run.space, m.table.rows, m.shots[j]).Ok?
    {
      if j != i {
        assert Engine.ValidateObservation(l.run.space, l.table.rows, l.shots[j]).Ok?;
      }
    }
  }

  lemma MovedStaysMatching(s: Settings, l: Ledger, m: Ledger, mode: Mode, space: Space, rebased: Rebased, state: OptimizerState, now: nat)
    requires Inv(l) && Moved(s, l, m, mode, space, rebased, state, now)
    ensures Matching(m)
  {
    MovedRows(s, l, m, mode, space, rebased, state, now);
    RebasedShots(space, l.table, l.shots);
    forall i | 0 <= i < |m.shots|
      ensures Engine.ValidateObservation(m.run.space, m.table.rows, m.shots[i]).Ok? && m.shots[i].observed.Some?
    {
      MovedObservation(space, l.table, m.table, l.shots, i);
    }
  }

  lemma MovedObservation(space: Space, t: RecipeTable, u: RecipeTable, shots: seq<Shot>, i: nat)
    requires RebaseShots(space, t, shots).Ok? && i < |shots| && i < |RebaseShots(space, t, shots).value.shots|
    requires RebaseShots(space, t, shots).value.shots[i].recipe in u.rows
    ensures var shot := RebaseShots(space, t, shots).value.shots[i];
      shot.observed.Some? && Engine.ValidateObservation(space, u.rows, shot).Ok?
  {
    RebasedAt(space, t, shots, i);
  }

  lemma StepObservesAlike(x: Session, e: Event)
    requires Inv(x.ledger) && Allowed(x, e) && !e.Report? && !e.Correct? && !e.Meet?
    ensures var l, m := x.ledger, Step(x, e).ledger; m.run.space == l.run.space && SameObservations(l.shots, m.shots) && MoreRecipes(l, m)
  {
    var s, l := x.settings, x.ledger;
    if Attempt(s, l, e).Ok? {
      match e
      case Suggest(p, now) => SuggestFrame(s, l, p, now);
      case Abstain(n, a, now) => AbstainFrame(l, n, a, now);
      case Prefer(j, id, now) => JudgeFrame(s, l, j, id, now);
      case Reopen(control, now) => ResumeFrame(s, l, control, now);
      case Exclude(id, now) => ExcludeFrame(s, l, id, now);
      case Configure(_) =>
    }
  }

  /** In an aligned space no step makes the optimizer's validation fail. */
  lemma StepStaysSound(x: Session, e: Event)
    requires Inv(x.ledger) && Sound(x.ledger) && Aligned(x.ledger.run.space) && Allowed(x, e)
    ensures Sound(Step(x, e).ledger)
  {
    var s, l := x.settings, x.ledger;
    StepStaysCanonical(x, e);
    if !e.Report? && !e.Correct? && !e.Meet? {
      StepObservesAlike(x, e);
      MatchingPersists(l, Step(x, e).ledger);
    } else if Attempt(s, l, e).Ok? {
      match e
      case Report(r, deviate, now) => RecordedStaysMatching(l, r, deviate, now);
      case Correct(id, controls, notes, now) => CorrectedStaysMatching(s, l, id, controls, notes, now);
      case Meet(mode, now) => MetStaysMatching(s, l, mode, now);
    }
  }

  lemma RecordedStaysMatching(l: Ledger, r: ShotReport, deviate: bool, now: nat)
    requires Inv(l) && Sound(l) && Aligned(l.run.space) && RecordShot(l, r, deviate, now).Ok?
    ensures Matching(RecordShot(l, r, deviate, now).value.0)
  {
    RecordedParts(l, r, deviate, now);
    RecordedObservation(l, r, deviate, now);
  }

  lemma MetStaysMatching(s: Settings, l: Ledger, mode: Option<Mode>, now: nat)
    requires Inv(l) && Sound(l) && CompatibleRun(s, l, mode, now).Ok?
    ensures Matching(CompatibleRun(s, l, mode, now).value)
  {
    var m := CompatibleRun(s, l, mode, now).value;
    MeetFrame(s, l, mode, now);
    if FitOf(s, l, mode).Migrated? {
      var desired := if mode.Some? then mode.value else l.run.mode;
      var space, rebased, state := MigrationParts(s, l, desired, now);
      MovedStaysMatching(s, l, m, desired, space, rebased, state, now);
    } else {
      MatchingPersists(l, m);
    }
  }

  /** The run's space is aligned before every step. */
  predicate AllAligned(x: Session, es: seq<Event>)
  {
    es != [] ==> AllAligned(x, es[..|es| - 1]) && Aligned(Play(x, es[..|es| - 1]).ledger.run.space)
  }

  /** In every run over aligned spaces the optimizer's validation accepts the evidence once there is a valid shot. */
  lemma {:induction false} EveryAlignedRunIsSound(x: Session, es: seq<Event>)
    requires Inv(x.ledger) && Sound(x.ledger) && AllAllowed(x, es) && AllAligned(x, es)
    ensures Inv(Play(x, es).ledger) && Sound(Play(x, es).ledger)
    ensures Baseline(Play(x, es).ledger.shots).Some? ==> Engine.ValidateRunData(Play(x, es).ledger).Ok?
  {
    if es != [] {
      var y := Play(x, es[..|es| - 1]);
      EveryAlignedRunIsSound(x, es[..|es| - 1]);
      StepKeepsInv(y, es[|es| - 1]);
      StepStaysSound(y, es[|es| - 1]);
    }
    ValidationAccepts(Play(x, es).ledger);
  }
}
