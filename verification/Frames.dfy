/** What each use case leaves alone. */
module Frames {
  import opened Prelude
  import opened RecipeSpace
  import opened Cpbo
  import opened TrustRegions
  import opened History
  import opened HistoryLaws
  import opened Ledgers
  import opened Service
  import opened Invariants
  import Engine

  /** Recipe rows are only ever added. */
  predicate MoreRecipes(l: Ledger, m: Ledger)
  {
    forall k :: k in l.table.rows ==> k in m.table.rows && m.table.rows[k] == l.table.rows[k]
  }

  /** Shots keep identity, order, recipe and observation. */
  predicate SameObservations(a: seq<Shot>, b: seq<Shot>)
  {
    && |a| == |b|
    && forall i :: 0 <= i < |a| ==> b[i].id == a[i].id && b[i].sequence == a[i].sequence && b[i].recipe == a[i].recipe && b[i].observed == a[i].observed
  }

  lemma SuggestFrame(s: Settings, l: Ledger, p: Option<Engine.Proposal>, now: nat)
    requires Inv(l) && SuggestNext(s, l, p, now).Ok?
    ensures var m := SuggestNext(s, l, p, now).value.0;
      && m.run == l.run && m.shots == l.shots && m.comparisons == l.comparisons && MoreRecipes(l, m)
      && m.state.region == l.state.region && m.state.pendingShot == l.state.pendingShot
  {
    SuggestionParts(s, l, p, now);
    if l.state.pendingRecipe.None? {
      InsertedRecipe(l.table, SuggestNext(s, l, p, now).value.1.recipe);
    }
  }

  lemma ReportFrame(l: Ledger, r: Service.ShotReport, deviate: bool, now: nat)
    requires RecordShot(l, r, deviate, now).Ok?
    ensures var (m, shot) := RecordShot(l, r, deviate, now).value;
      && m.run == l.run && m.comparisons == l.comparisons && MoreRecipes(l, m)
      && m.shots == l.shots + [shot] && shot.id == r.id && shot.abstention.None? && !HasShot(l.shots, r.id)
      && m.state.region.transitions == l.state.region.transitions && m.state.region.locallyConverged == l.state.region.locallyConverged
      && (shot.status.Valid? && Baseline(l.shots).Some? ==> m.state.pendingShot == Some(r.id))
      && (!(shot.status.Valid? && Baseline(l.shots).Some?) ==> m.state.pendingShot == None || m.state.pendingShot == l.state.pendingShot)
  {
    RecordedParts(l, r, deviate, now);
    InsertedRecipe(l.table, CanonicalRecipe(l.run, r.controls, now).value);
  }

  lemma AbstainFrame(l: Ledger, newShot: ShotId, anchor: ShotId, now: nat)
    requires Inv(l) && RecordAbstention(l, newShot, anchor, now).Ok?
    ensures var m := RecordAbstention(l, newShot, anchor, now).value;
      && m.run == l.run && m.table == l.table && m.comparisons == l.comparisons && m.state.region == l.state.region
      && OneAbstained(l.shots, m.shots, newShot)
      && (m == l || (l.state.pendingShot == Some(newShot) && m.state.pendingShot.None?))
  {
    var i := AbstentionParts(l, newShot, anchor, now);
    AbstentionIsLocal(l.shots, i, Abstention(anchor, now));
  }

  /** Only the named shot changes, and only by gaining an abstention it then keeps. */
  predicate OneAbstained(before: seq<Shot>, after: seq<Shot>, id: ShotId)
  {
    && SameObservations(before, after) && SameOutline(before, after)
    && (forall i :: 0 <= i < |before| && before[i].id != id ==> after[i] == before[i])
    && (forall i :: 0 <= i < |before| && before[i].abstention.Some? ==> after[i].abstention == before[i].abstention)
    && HasShot(before, id) && FindShot(after, id).Some? && FindShot(after, id).value.abstention.Some?
  }

  lemma AbstentionIsLocal(shots: seq<Shot>, i: nat, entry: Abstention)
    requires ShotRows(shots) && i < |shots|
    ensures OneAbstained(shots, if shots[i].abstention.Some? then shots else shots[i := shots[i].(abstention := Some(entry))], shots[i].id)
  {
    var after := if shots[i].abstention.Some? then shots else shots[i := shots[i].(abstention := Some(entry))];
    SubstituteKeepsOutline(shots, i, after[i]);
    UniqueShot(after, i);
  }

  lemma JudgeFrame(s: Settings, l: Ledger, j: Judgement, id: ComparisonId, now: nat)
    requires Inv(l) && KeyFollows(l, id, now) && RecordPreference(s, l, j, id, now).Ok?
    ensures var m := RecordPreference(s, l, j, id, now).value;
      && m.run == l.run && m.table == l.table && m.shots == l.shots
      && (m == l || (l.state.pendingShot == Some(j.newShot) && m.state.pendingShot.None? && Compared(m.comparisons) == Compared(l.comparisons) + {j.newShot}))
  {
    if l.state.pendingShot == Some(j.newShot) {
      var c, k := PreferenceParts(s, l, j, id, now);
      HeadAppend(0, l.comparisons, c);
    }
  }

  lemma ResumeFrame(s: Settings, l: Ledger, control: Option<ControlId>, now: nat)
    requires ResumeLocalExploration(s, l, control, now).Ok?
    ensures var m := ResumeLocalExploration(s, l, control, now).value;
      m == l.(state := l.state.(region := m.state.region, updatedAt := m.state.updatedAt))
  {
  }

  lemma CorrectFrame(s: Settings, l: Ledger, id: ShotId, controls: Controls, notes: map<nat, nat>, now: nat)
    requires Inv(l) && CorrectShot(s, l, id, controls, notes, now).Ok?
    ensures var m := CorrectShot(s, l, id, controls, notes, now).value.0;
      && m.run == l.run && m.comparisons == l.comparisons && MoreRecipes(l, m) && SameOutline(l.shots, m.shots)
      && (forall i :: 0 <= i < |l.shots| ==> m.shots[i].abstention == l.shots[i].abstention)
      && m.state.pendingShot == l.state.pendingShot
  {
    var (m, done) := CorrectShot(s, l, id, controls, notes, now).value;
    var i, recipe := CorrectionParts(s, l, id, controls, notes, now);
    InsertedRecipe(l.table, recipe);
    if done.recipeChanged {
      RebuiltState(s, l, m, CollectRecipes(l.table, map[recipe.id := recipe], m.shots, Some(id)).value, now);
    }
  }

  lemma ExcludeFrame(s: Settings, l: Ledger, id: ShotId, now: nat)
    requires Inv(l) && ExcludeShot(s, l, id, now).Ok?
    ensures var m := ExcludeShot(s, l, id, now).value;
      && m.run == l.run && m.table == l.table && SameObservations(l.shots, m.shots)
      && (forall i :: 0 <= i < |l.shots| ==> m.shots[i].abstention == l.shots[i].abstention)
      && (m == l || m.state.pendingShot.None?)
  {
    if !FindShot(l.shots, id).value.status.Excluded? {
      var i, rows := ExclusionParts(s, l, id, now);
    }
  }

  lemma MeetFrame(s: Settings, l: Ledger, mode: Option<Mode>, now: nat)
    requires Inv(l) && CompatibleRun(s, l, mode, now).Ok?
    ensures var m := CompatibleRun(s, l, mode, now).value;
      && m.comparisons == l.comparisons && MoreRecipes(l, m) && SameOutline(l.shots, m.shots)
      && (forall i :: 0 <= i < |l.shots| ==> m.shots[i].abstention == l.shots[i].abstention)
      && (FitOf(s, l, mode).Migrated? || (m.shots == l.shots && m.run.space == l.run.space && m.table == l.table))
      && (FitOf(s, l, mode).Reconfigured? || FitOf(s, l, mode).Migrated? || m.state == l.state)
      && m.state.pendingShot == l.state.pendingShot
      && (FitOf(s, l, mode).Reconfigured? ==> m.state.region.transitions == [] && !m.state.region.locallyConverged)
  {
    if FitOf(s, l, mode).Migrated? {
      var desired := if mode.Some? then mode.value else l.run.mode;
      var space, rebased, state := MigrationParts(s, l, desired, now);
      MoveFrame(s, l, CompatibleRun(s, l, mode, now).value, desired, space, rebased, state, now);
    }
  }

  lemma MoveFrame(s: Settings, l: Ledger, m: Ledger, mode: Mode, space: Space, rebased: Rebased, state: OptimizerState, now: nat)
    requires Inv(l) && Moved(s, l, m, mode, space, rebased, state, now)
    ensures m.comparisons == l.comparisons && MoreRecipes(l, m) && SameOutline(l.shots, m.shots) && m.state.pendingShot.None?
    ensures forall i :: 0 <= i < |l.shots| ==> m.shots[i].abstention == l.shots[i].abstention
  {
    RebasedShots(space, l.table, l.shots);
    InsertedRecipes(l.table, rebased.recipes);
    forall i | 0 <= i < |l.shots|
      ensures m.shots[i].abstention == l.shots[i].abstention
    {
      RebasedAt(space, l.table, l.shots, i);
    }
  }
}
