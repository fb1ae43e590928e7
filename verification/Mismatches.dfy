/** A shot whose recipe is not the one its observation stands for: what keeps it so, what repairs it, and what it blocks meanwhile. */
module Mismatches {
  import opened Prelude
  import opened RecipeSpace
  import opened Cpbo
  import opened TrustRegions
  import opened History
  import opened HistoryLaws
  import opened Ledgers
  import opened Service
  import opened Invariants
  import opened Evidence
  import opened Endurance
  import opened Frames
  import opened Runs
  import Engine

  /** Shot i stands for the recipe its observation yields. */
  predicate MatchesAt(l: Ledger, i: nat)
    requires i < |l.shots|
  {
    l.shots[i].recipe in l.table.rows && Engine.ValidateObservation(l.run.space, l.table.rows, l.shots[i]).Ok?
  }

  /** The use cases that observe shot i anew: its own correction, and a migration. */
  predicate Repairs(s: Settings, l: Ledger, e: Event, i: nat)
    requires i < |l.shots|
  {
    Attempt(s, l, e).Ok? && ObservesAnew(s, l, e, i)
  }

  predicate ObservesAnew(s: Settings, l: Ledger, e: Event, i: nat)
    requires i < |l.shots|
  {
    (e.Correct? && e.shot == l.shots[i].id) || (e.Meet? && FitOf(s, l, e.mode).Migrated?)
  }

  /** Shot i keeps its recipe and observation in the same space. */
  predicate ObservedAlike(l: Ledger, m: Ledger, i: nat)
  {
    && i < |l.shots| && i < |m.shots| && m.run.space == l.run.space && MoreRecipes(l, m)
    && m.shots[i].recipe == l.shots[i].recipe && m.shots[i].observed == l.shots[i].observed
  }

  lemma SameMatch(l: Ledger, m: Ledger, i: nat)
    requires RecipesStored(l) && ObservedAlike(l, m, i)
    ensures MatchesAt(m, i) == MatchesAt(l, i)
  {
  }

  lemma CorrectionMatches(s: Settings, l: Ledger, id: ShotId, controls: Controls, notes: map<nat, nat>, now: nat, i: nat)
    requires Inv(l) && CorrectShot(s, l, id, controls, notes, now).Ok? && i < |l.shots|
    ensures var m := CorrectShot(s, l, id, controls, notes, now).value.0;
      i < |m.shots| && (MatchesAt(m, i) <==> MatchesAt(l, i) || l.shots[i].id == id)
  {
    var m := CorrectShot(s, l, id, controls, notes, now).value.0;
    var k, recipe := CorrectionRecord(s, l, id, controls, notes, now);
    CorrectedMatches(s, l, m, k, recipe, controls.recipe, now, i);
  }

  lemma CorrectedMatches(s: Settings, l: Ledger, m: Ledger, k: nat, recipe: RecipePoint, observed: Triple, now: nat, i: nat)
    requires Inv(l) && Corrected(s, l, m, k, recipe, now) && m.shots[k].observed == Some(observed) && i < |l.shots|
    requires Observe(l.run.space, observed, l.table.rows[l.shots[k].recipe].createdAt) == Ok(recipe)
    ensures MatchesAt(m, i) <==> MatchesAt(l, i) || k == i
  {
    InsertedRecipe(l.table, recipe);
    if k == i {
      assert Observe(l.run.space, observed, m.table.rows[recipe.id].createdAt).value.id == recipe.id;
    } else {
      SameMatch(l, m, i);
    }
  }

  lemma MeetingMatches(s: Settings, l: Ledger, mode: Option<Mode>, now: nat, i: nat)
    requires Inv(l) && CompatibleRun(s, l, mode, now).Ok? && i < |l.shots|
    ensures var m := CompatibleRun(s, l, mode, now).value;
      i < |m.shots| && (MatchesAt(m, i) <==> MatchesAt(l, i) || FitOf(s, l, mode).Migrated?)
  {
    var m := CompatibleRun(s, l, mode, now).value;
    MeetFrame(s, l, mode, now);
    if FitOf(s, l, mode).Migrated? {
      var desired := if mode.Some? then mode.value else l.run.mode;
      var space, rebased, state := MigrationParts(s, l, desired, now);
      MovedStaysMatching(s, l, m, desired, space, rebased, state, now);
    } else {
      SameMatch(l, m, i);
    }
  }

  lemma ReportingMatches(l: Ledger, r: ShotReport, deviate: bool, now: nat, i: nat)
    requires Inv(l) && RecordShot(l, r, deviate, now).Ok? && i < |l.shots|
    ensures var m := RecordShot(l, r, deviate, now).value.0; i < |m.shots| && MatchesAt(m, i) == MatchesAt(l, i)
  {
    ReportFrame(l, r, deviate, now);
    SameMatch(l, RecordShot(l, r, deviate, now).value.0, i);
  }

  lemma OtherStepMatches(x: Session, e: Event, i: nat)
    requires Inv(x.ledger) && Allowed(x, e) && i < |x.ledger.shots| && !e.Report? && !e.Correct? && !e.Meet?
    ensures i < |Step(x, e).ledger.shots| && MatchesAt(Step(x, e).ledger, i) == MatchesAt(x.ledger, i)
  {
    StepObservesAlike(x, e);
    SameMatch(x.ledger, Step(x, e).ledger, i);
  }

  lemma ObservingMatches(s: Settings, l: Ledger, e: Event, m: Ledger, i: nat)
    requires Inv(l) && i < |l.shots| && Attempt(s, l, e) == Ok(m) && (e.Report? || e.Correct? || e.Meet?)
    ensures i < |m.shots| && (MatchesAt(m, i) <==> MatchesAt(l, i) || ObservesAnew(s, l, e, i))
  {
    match e
    case Report(r, deviate, now) => ReportingMatches(l, r, deviate, now, i);
    case Correct(id, controls, notes, now) => CorrectionMatches(s, l, id, controls, notes, now, i);
    case Meet(mode, now) => MeetingMatches(s, l, mode, now, i);
  }

  /** A step makes a shot match exactly when it repairs it or the shot matched before. */
  lemma StepMatches(x: Session, e: Event, i: nat)
    requires Inv(x.ledger) && Allowed(x, e) && i < |x.ledger.shots|
    ensures i < |Step(x, e).ledger.shots|
    ensures MatchesAt(Step(x, e).ledger, i) <==> MatchesAt(x.ledger, i) || Repairs(x.settings, x.ledger, e, i)
  {
    if !e.Report? && !e.Correct? && !e.Meet? {
      OtherStepMatches(x, e, i);
    } else if m :| Attempt(x.settings, x.ledger, e) == Ok(m) {
      ObservingMatches(x.settings, x.ledger, e, m, i);
    }
  }

  /** No event of the sequence repairs shot i. */
  predicate Unrepaired(x: Session, es: seq<Event>, i: nat)
  {
    es != [] ==>
      && Unrepaired(x, es[..|es| - 1], i)
      && var y := Play(x, es[..|es| - 1]);
      i < |y.ledger.shots| && !Repairs(y.settings, y.ledger, es[|es| - 1], i)
  }

  /** Over any run a shot matches its observation exactly when it did at the start or was repaired since. */
  lemma {:induction false} MatchesOnceRepaired(x: Session, es: seq<Event>, i: nat)
    requires Inv(x.ledger) && AllAllowed(x, es) && i < |x.ledger.shots|
    ensures Inv(Play(x, es).ledger) && i < |Play(x, es).ledger.shots|
    ensures MatchesAt(Play(x, es).ledger, i) <==> MatchesAt(x.ledger, i) || !Unrepaired(x, es, i)
  {
    if es != [] {
      var y := Play(x, es[..|es| - 1]);
      MatchesOnceRepaired(x, es[..|es| - 1], i);
      StepKeepsInv(y, es[|es| - 1]);
      StepMatches(y, es[|es| - 1], i);
    }
  }

  // ----- what a mismatch blocks -----

  lemma OnlySuggestingSuggests(x: Session, e: Event)
    requires Inv(x.ledger) && Allowed(x, e) && !e.Suggest?
    ensures |Step(x, e).ledger.suggestions| == |x.ledger.suggestions|
  {
    var s, l := x.settings, x.ledger;
    if Attempt(s, l, e).Ok? {
      match e
      case Report(r, deviate, now) => RecordedParts(l, r, deviate, now);
      case Abstain(n, a, now) => var k := AbstentionParts(l, n, a, now);
      case Prefer(j, id, now) => JudgingSuggestsNothing(s, l, j, id, now);
      case Reopen(control, now) => ResumeFrame(s, l, control, now);
      case Correct(id, controls, notes, now) => CorrectingSuggestsNothing(s, l, id, controls, notes, now);
      case Exclude(id, now) => ExcludingSuggestsNothing(s, l, id, now);
      case Configure(_) =>
      case Meet(mode, now) => MeetingSuggestsNothing(s, l, mode, now);
    }
  }

  lemma JudgingSuggestsNothing(s: Settings, l: Ledger, j: Judgement, id: ComparisonId, now: nat)
    requires Inv(l) && KeyFollows(l, id, now) && RecordPreference(s, l, j, id, now).Ok?
    ensures |RecordPreference(s, l, j, id, now).value.suggestions| == |l.suggestions|
  {
    if l.state.pendingShot == Some(j.newShot) {
      var c, k := PreferenceParts(s, l, j, id, now);
    }
  }

  lemma CorrectingSuggestsNothing(s: Settings, l: Ledger, id: ShotId, controls: Controls, notes: map<nat, nat>, now: nat)
    requires CorrectShot(s, l, id, controls, notes, now).Ok?
    ensures |CorrectShot(s, l, id, controls, notes, now).value.0.suggestions| == |l.suggestions|
  {
  }

  lemma ExcludingSuggestsNothing(s: Settings, l: Ledger, id: ShotId, now: nat)
    requires Inv(l) && ExcludeShot(s, l, id, now).Ok?
    ensures |ExcludeShot(s, l, id, now).value.suggestions| == |l.suggestions|
  {
    if !FindShot(l.shots, id).value.status.Excluded? {
      var i, rows := ExclusionParts(s, l, id, now);
    }
  }

  lemma MeetingSuggestsNothing(s: Settings, l: Ledger, mode: Option<Mode>, now: nat)
    requires Inv(l) && CompatibleRun(s, l, mode, now).Ok?
    ensures |CompatibleRun(s, l, mode, now).value.suggestions| == |l.suggestions|
  {
    match FitOf(s, l, mode)
    case AsItIs =>
    case Retired =>
    case Migrated =>
      var space, rebased, state := MigrationParts(s, l, if mode.Some? then mode.value else l.run.mode, now);
    case Reconfigured =>
  }

  lemma MismatchSuggestsNothing(s: Settings, l: Ledger, p: Option<Engine.Proposal>, now: nat, i: nat)
    requires Inv(l) && i < |l.shots| && !MatchesAt(l, i) && SuggestNext(s, l, p, now).Ok?
    ensures SuggestNext(s, l, p, now).value.0 == l
  {
    if l.state.pendingRecipe.None? {
      MismatchBlocksSuggestions(s, l, p, now);
    }
  }

  /** From a mismatch on, whatever happens, no suggestion is ever added until the shot is corrected or the run is migrated; excluding
      the shot does not help. */
  lemma {:induction false} NothingIsSuggestedUntilRepaired(x: Session, es: seq<Event>, i: nat)
    requires Inv(x.ledger) && AllAllowed(x, es) && i < |x.ledger.shots| && !MatchesAt(x.ledger, i) && Unrepaired(x, es, i)
    ensures |Play(x, es).ledger.suggestions| == |x.ledger.suggestions|
  {
    if es != [] {
      var y, e := Play(x, es[..|es| - 1]), es[|es| - 1];
      NothingIsSuggestedUntilRepaired(x, es[..|es| - 1], i);
      MatchesOnceRepaired(x, es[..|es| - 1], i);
      if !e.Suggest? {
        OnlySuggestingSuggests(y, e);
      } else if Attempt(y.settings, y.ledger, e).Ok? {
        MismatchSuggestsNothing(y.settings, y.ledger, e.proposal, e.now, i);
      }
    }
  }
}
