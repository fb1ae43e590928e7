/** From creation on: what holds in every reachable state, and what each use case therefore does there. */
module Stories {
  import opened Prelude
  import opened RecipeSpace
  import opened RecipeLaws
  import opened Cpbo
  import opened TrustRegions
  import opened History
  import opened HistoryLaws
  import opened ReplayLaws
  import opened Ledgers
  import opened Service
  import opened Invariants
  import opened Faithfulness
  import opened Evidence
  import opened Markings
  import opened Tempos
  import opened Guarantees
  import opened Endurance
  import opened Frames
  import opened Recordings
  import opened Runs
  import Bridge
  import Conservation
  import Convergence
  import Engine
  import Migrations

  /** What every reachable state satisfies. */
  ghost predicate Sane(l: Ledger) { Inv(l) && Canonical(l) && Marked(l) && EarliestFirst(l.table) }

  lemma StepStaysSane(x: Session, e: Event)
    requires Sane(x.ledger) && Allowed(x, e)
    ensures Sane(Step(x, e).ledger)
  {
    StepKeepsInv(x, e);
    StepStaysCanonical(x, e);
    StepStaysMarked(x, e);
    StepStaysEarliest(x, e);
  }

  lemma {:induction false} PlayStaysSane(x: Session, es: seq<Event>)
    requires Sane(x.ledger) && AllAllowed(x, es)
    ensures Sane(Play(x, es).ledger)
  {
    if es != [] {
      PlayStaysSane(x, es[..|es| - 1]);
      StepStaysSane(Play(x, es[..|es| - 1]), es[|es| - 1]);
    }
  }

  lemma BeginningIsSane(st: Story)
    requires st.Created().Ok?
    ensures Sane(st.Start().ledger)
    ensures st.Start().ledger.shots == [] && st.Start().ledger.comparisons == []
  {
    InitializeEstablishes(st.settings, st.id, st.mode, st.baseline, st.steps, st.now);
    InitializeIsCanonical(st.settings, st.id, st.mode, st.baseline, st.steps, st.now);
  }

  /** Rows agree, recipes are canonical, markers name unresumed history and nothing undercuts the first recipe, in every story. */
  lemma EveryStoryIsSane(st: Story)
    requires st.Told()
    ensures Sane(st.End().ledger)
  {
    BeginningIsSane(st);
    PlayStaysSane(st.Start(), st.events);
  }

  // ----- the errors no story meets -----

  /** The errors that would mean suggestion rows and pending fields disagree. */
  predicate Mismatched(e: Refusal) { e in {Refusal.SuggestionMissing, SuggestionOpen, SuggestionMismatch} }

  lemma ReportErrors(l: Ledger, r: ShotReport, deviate: bool, now: nat)
    requires Inv(l)
    ensures var a := RecordShot(l, r, deviate, now); a.Err? ==> !Mismatched(a.why)
  {
    var recipe := CanonicalRecipe(l.run, r.controls, now);
    if recipe.Ok? && (Baseline(l.shots).Some? ==> l.state.pendingRecipe.Some? && l.state.pendingShot.None?) {
      var shot := Shot(r.id, recipe.value.id, |l.shots| + 1, r.status, Some(recipe.value.controls), None, r.notes);
      StoreErrors(l, recipe.value, shot, now);
    }
  }

  lemma StoreErrors(l: Ledger, recipe: RecipePoint, shot: Shot, now: nat)
    requires Inv(l) && (Baseline(l.shots).Some? ==> l.state.pendingRecipe.Some? && l.state.pendingShot.None?)
    ensures var a := SaveShot(l, recipe, shot, StateWithShot(l.state, Baseline(l.shots).Some?, shot, recipe, now)); a.Err? ==> !Mismatched(a.why)
  {
    if Baseline(l.shots).Some? {
      var k := OpenRow(l);
    }
  }

  lemma SuggestErrors(s: Settings, l: Ledger, p: Option<Engine.Proposal>, now: nat)
    requires Inv(l)
    ensures var a := SuggestNext(s, l, p, now); a.Err? ==> !Mismatched(a.why)
  {
    if l.state.pendingShot.None? && SuggestNext(s, l, p, now).Err? {
      Bridge.SuggestErrors(s, l, p, now);
    }
  }

  lemma MeetErrors(s: Settings, l: Ledger, mode: Option<Mode>, now: nat)
    ensures var a := CompatibleRun(s, l, mode, now); a.Err? ==> !Bridge.Misuse(a.why)
  {
    var desired := if mode.Some? then mode.value else l.run.mode;
    match FitOf(s, l, mode)
    case AsItIs =>
    case Retired =>
    case Migrated => Bridge.MigrateErrors(s, l, desired, now);
    case Reconfigured => ReconfigureErrors(s, l, desired, now);
  }

  lemma ReconfigureErrors(s: Settings, l: Ledger, mode: Mode, now: nat)
    ensures var a := ReconfigureRun(s, l, mode, now); a.Err? ==> !Bridge.Misuse(a.why)
  {
  }

  lemma AttemptErrors(s: Settings, l: Ledger, e: Event)
    requires Inv(l)
    ensures var a := Attempt(s, l, e); a.Err? ==> !Mismatched(a.why)
  {
    if e.Suggest? || e.Report? {
      match e
      case Suggest(p, now) => SuggestErrors(s, l, p, now);
      case Report(r, deviate, now) => ReportErrors(l, r, deviate, now);
    } else {
      OtherErrors(s, l, e);
    }
  }

  lemma OtherErrors(s: Settings, l: Ledger, e: Event)
    requires SuggestionsAgree(l) && !e.Suggest? && !e.Report?
    ensures var a := Attempt(s, l, e); a.Err? ==> !Bridge.Misuse(a.why)
  {
    match e
    case Abstain(n, a, now) => Bridge.AbstainErrors(l, n, a, now);
    case Prefer(j, id, now) => Bridge.JudgeErrors(s, l, j, id, now);
    case Reopen(control, now) => Bridge.ResumeErrors(s, l, control, now);
    case Correct(id, controls, notes, now) => Bridge.CorrectErrors(s, l, id, controls, notes, now);
    case Exclude(id, now) => Bridge.ExcludeErrors(s, l, id, now);
    case Configure(_) =>
    case Meet(mode, now) => MeetErrors(s, l, mode, now);
  }

  /** No use case in any reachable state ever misses its suggestion, finds another one open, or saves one that its state does not name. */
  lemma SuggestionsAreNeverMissed(st: Story, e: Event)
    requires st.Told()
    ensures var a := Attempt(st.End().settings, st.End().ledger, e); a.Err? ==> !Mismatched(a.why)
  {
    EveryStoryIsSane(st);
    AttemptErrors(st.End().settings, st.End().ledger, e);
  }

  // ----- use cases in reachable states -----

  /** In every story a replay succeeds exactly when the labels, modes and markers of the history allow it. */
  lemma WhenReplaySucceeds(st: Story)
    requires st.Told()
    ensures var y := st.End();
      && (ReplayOf(y.settings, y.ledger).Ok? <==> CanRebuild(y.settings, y.ledger))
      && (ReplayOf(y.settings, y.ledger).Ok? ==> (ReplayOf(y.settings, y.ledger).value.region.locallyConverged <==> RebuildsConverged(y.settings, y.ledger)))
  {
    EveryStoryIsSane(st);
    ReplayCondition(st.End().settings, st.End().ledger);
  }

  /** In every story, reconfigured or not, a shot is corrected exactly when its new observation can be placed and, if that changes its
      recipe, the history can be rebuilt. */
  lemma WhenCorrectionSucceeds(st: Story, id: ShotId, controls: Controls, notes: map<nat, nat>, now: nat)
    requires st.Told()
    ensures var (s, l) := (st.End().settings, st.End().ledger);
      CorrectShot(s, l, id, controls, notes, now).Ok? <==>
        && HasShot(l.shots, id) && controls.higherIsFiner == l.run.space.higherIsFiner && Placeable(l.run.space, controls.recipe)
        && (SameRecipe(l, id, controls.recipe) || CanRebuild(s, l))
  {
    EveryStoryIsSane(st);
    CorrectionCondition(st.End().settings, st.End().ledger, id, controls, notes, now);
  }

  /** In every story a shot is excluded exactly when it is excluded already or what is kept without it can be rebuilt. */
  lemma WhenExclusionSucceeds(st: Story, id: ShotId, now: nat)
    requires st.Told()
    ensures var (s, l) := (st.End().settings, st.End().ledger);
      ExcludeShot(s, l, id, now).Ok? <==> HasShot(l.shots, id) && (FindShot(l.shots, id).value.status.Excluded? || CanExclude(s, l, id))
  {
    EveryStoryIsSane(st);
    ExclusionCondition(st.End().settings, st.End().ledger, id, now);
  }

  /** In every story the run is migrated exactly when it is active and has shots, the new limits hold a step of each control and every
      observation, and the history can be rebuilt. */
  lemma WhenMigrationSucceeds(st: Story, mode: Mode, now: nat)
    requires st.Told()
    ensures var (s, l) := (st.End().settings, st.End().ledger);
      MigrateRun(s, l, mode, now).Ok? <==>
        && l.run.active && l.shots != [] && StepsFit(l.run.space, s.domain)
        && AllPlaceable(WithDomain(l.run.space, s.domain).value, l) && CanRebuild(s, l)
  {
    EveryStoryIsSane(st);
    MigrationCondition(st.End().settings, st.End().ledger, mode, now);
  }

  /** In every story the run is resumed exactly when it is active, best-incumbent and converged with nothing pending, or when the
      request repeats the latest transition. */
  lemma WhenResumptionSucceeds(st: Story, control: Option<ControlId>, now: nat)
    requires st.Told()
    ensures var (s, l) := (st.End().settings, st.End().ledger);
      ResumeLocalExploration(s, l, control, now).Ok? <==>
        && l.run.active && l.run.mode.BestIncumbent?
        && if l.state.region.locallyConverged then NoPending(l.state) else Convergence.AlreadyResumed(l.state.region, control)
  {
    EveryStoryIsSane(st);
    Convergence.ResumeCondition(st.End().settings, st.End().ledger, control, now);
  }

  /** In every story an exclusion leaves exactly a subsequence without the shot, its replay and nothing open. */
  lemma ExclusionIsConsistentInEveryStory(st: Story, id: ShotId, now: nat)
    requires st.Told() && ExcludeShot(st.End().settings, st.End().ledger, id, now).Ok?
    requires !FindShot(st.End().ledger.shots, id).value.status.Excluded?
    ensures var (s, l) := (st.End().settings, st.End().ledger);
      var m := ExcludeShot(s, l, id, now).value;
      && Subsequence(m.comparisons, l.comparisons) && Unmentioned(m.comparisons, id) && id !in Ranks(m.shots)
      && Faithful(s, m) && NoPending(m.state) && PendingSuggestion(m.suggestions).None?
  {
    EveryStoryIsSane(st);
    var s, l := st.End().settings, st.End().ledger;
    ExclusionIsConsistent(s, l, id, now);
    var i, rows := ExclusionParts(s, l, id, now);
    ExcludedFaithful(s, l, ExcludeShot(s, l, id, now).value, i, rows, now);
  }

  /** In every story two migrations end where the second alone would. */
  lemma MigrationIsPathIndependentInEveryStory(st: Story, s1: Settings, s2: Settings, mode1: Mode, mode2: Mode, t1: nat, t2: nat)
    requires st.Told() && MigrateRun(s1, st.End().ledger, mode1, t1).Ok?
    requires MigrateRun(s2, MigrateRun(s1, st.End().ledger, mode1, t1).value, mode2, t2).Ok?
    ensures MigrateRun(s2, st.End().ledger, mode2, t2).Ok?
    ensures var l := st.End().ledger;
      var twice, once := MigrateRun(s2, MigrateRun(s1, l, mode1, t1).value, mode2, t2).value, MigrateRun(s2, l, mode2, t2).value;
      && once.run == twice.run && once.shots == twice.shots && once.comparisons == twice.comparisons
      && once.suggestions == twice.suggestions && once.state == twice.state
  {
    EveryStoryIsSane(st);
    Migrations.MigrationIsPathIndependent(s1, s2, st.End().ledger, mode1, mode2, t1, t2);
  }

  /** In every story over aligned spaces the optimizer's validation accepts the evidence once there is a valid shot. */
  lemma EveryAlignedStoryIsSound(st: Story)
    requires st.Told() && AllAligned(st.Start(), st.events)
    ensures Sound(st.End().ledger)
    ensures Engine.ValidateRunData(st.End().ledger).Ok? <==> Baseline(st.End().ledger.shots).Some?
  {
    BeginningIsSane(st);
    EveryAlignedRunIsSound(st.Start(), st.events);
    ValidationAccepts(st.End().ledger);
  }

  /** In every story without exclusions each valid shot is the baseline, compared, abstained or awaited, and only one of these. */
  lemma EveryShotOfAStoryHasOneRole(st: Story, i: nat)
    requires st.Told() && forall k :: 0 <= k < |st.events| ==> !st.events[k].Exclude?
    requires i < |st.End().ledger.shots| && st.End().ledger.shots[i].status.Valid?
    ensures Conservation.OneRole(st.End().ledger, i)
  {
    BeginningIsSane(st);
    Conservation.EveryShotHasOneRole(st.Start(), st.events);
  }

  /** In every story a shot is recorded exactly when it is new, fits the space and stands for the recipe that is due. */
  lemma WhenRecordingSucceeds(st: Story, r: ShotReport, deviate: bool, now: nat)
    requires st.Told()
    ensures var l := st.End().ledger;
      RecordShot(l, r, deviate, now).Ok? <==>
        && r.controls.higherIsFiner == l.run.space.higherIsFiner && Proposable(l.run.space, r.controls.recipe)
        && var q := QuantizeRecipe(l.run.space, r.controls.recipe).value;
           GrindInEnvelope(q) && !HasShot(l.shots, r.id) && IsDue(l, RecipeId(l.run.space.version, q), deviate)
  {
    EveryStoryIsSane(st);
    RecordCondition(st.End().ledger, r, deviate, now);
  }

  /** In every story a run without a valid shot can get one exactly when the recipe listed first belongs to its limits, lies on its grid and
      is within the physical envelope. */
  lemma WhenABaselineCanBeRecorded(st: Story)
    requires st.Told() && Unfounded(st.End().ledger)
    ensures var l := st.End().ledger;
      TakesShots(l) <==>
        !Away(l) && QuantizeRecipe(l.run.space, l.table.first.controls) == Ok(l.table.first.controls) && GrindInEnvelope(l.table.first.controls)
  {
    EveryStoryIsSane(st);
    BaselineCondition(st.End().ledger);
  }

  /** In every story the recipe listed first is stored, none is older, and of those as old none sorts before it. */
  lemma EveryFirstIsEarliest(st: Story)
    requires st.Told()
    ensures var t := st.End().ledger.table;
      && t.first in t.rows
      && forall k :: k in t.rows ==>
           && t.rows[t.first].createdAt <= t.rows[k].createdAt
           && (t.rows[k].createdAt == t.rows[t.first].createdAt && k in t.order ==> t.first in t.order && t.order[t.first] <= t.order[k])
  {
    EveryStoryIsSane(st);
    var t := st.End().ledger.table;
    forall k | k in t.rows
      ensures t.rows[t.first].createdAt <= t.rows[k].createdAt
      ensures t.rows[k].createdAt == t.rows[t.first].createdAt && k in t.order ==> t.first in t.order && t.order[t.first] <= t.order[k]
    {
      assert !ListedBefore(t.order, t.rows[k], t.rows[t.first]);
    }
  }

  /** In every story a migration changes which recipe is listed first exactly when a copy it makes is new, as old as the first recipe and
      sorts before it. */
  lemma WhenAMigrationMovesTheFirst(st: Story, s: Settings, mode: Mode, now: nat)
    requires st.Told() && MigrateRun(s, st.End().ledger, mode, now).Ok?
    ensures WithDomain(st.End().ledger.run.space, s.domain).Ok? && st.End().ledger.table.first in st.End().ledger.table.rows
    ensures var l := st.End().ledger;
      MigrateRun(s, l, mode, now).value.table.first != l.table.first <==> SomeUsurps(l, WithDomain(l.run.space, s.domain).value)
  {
    EveryStoryIsSane(st);
    MigrationMovesFirst(s, st.End().ledger, mode, now);
  }

  /** In every story over aligned spaces, leaving the limits and coming back restores space and shots. */
  lemma MigrationRoundTripInEveryStory(st: Story, s1: Settings, s2: Settings, mode1: Mode, mode2: Mode, t1: nat, t2: nat)
    requires st.Told() && AllAligned(st.Start(), st.events) && s2.domain == st.End().ledger.run.space.version
    requires MigrateRun(s1, st.End().ledger, mode1, t1).Ok?
    requires MigrateRun(s2, MigrateRun(s1, st.End().ledger, mode1, t1).value, mode2, t2).Ok?
    ensures var l := st.End().ledger;
      var back := MigrateRun(s2, MigrateRun(s1, l, mode1, t1).value, mode2, t2).value;
      back.shots == l.shots && back.run.space == l.run.space && back.comparisons == l.comparisons
  {
    EveryStoryIsSane(st);
    EveryAlignedStoryIsSound(st);
    Migrations.MigrationRoundTrip(s1, s2, st.End().ledger, mode1, mode2, t1, t2);
    Migrations.MigrationIsPathIndependent(s1, s2, st.End().ledger, mode1, mode2, t1, t2);
    var space, rebased, state := MigrationParts(s2, st.End().ledger, mode2, t2);
  }

  /** In every story each stored recipe lies at its own controls within the limits it was made for. */
  lemma EveryRecipeIsPositioned(st: Story, id: RecipeId)
    requires st.Told() && id in st.End().ledger.table.rows
    ensures var l := st.End().ledger;
      && l.table.rows[id].id == id && l.table.rows[id].controls == id.controls && WithDomain(l.run.space, id.version).Ok?
      && Positioned(WithDomain(l.run.space, id.version).value, id.controls, l.table.rows[id].position)
  {
    EveryStoryIsSane(st);
    var l := st.End().ledger;
    assert CanonicalRow(l.run.space, l.table.rows[id]);
    NormalizedIsPositioned(WithDomain(l.run.space, id.version).value, id.controls);
  }

  // ----- the history and the incumbent -----

  /** In every story the filter leaves the stored comparisons as they are. */
  lemma EveryHistoryIsRetained(st: Story)
    requires st.Told()
    ensures var l := st.End().ledger; RetainedHistory(l.run.id, l.shots, l.comparisons) == l.comparisons
  {
    EveryStoryIsSane(st);
    var l := st.End().ledger;
    if Baseline(l.shots).Some? {
      RetainedIsIdentity(l.run.id, Ranks(l.shots), Baseline(l.shots).value, l.comparisons);
    }
  }

  /** In every story with a valid shot the stored incumbent is reached from the first valid shot by stored wins with increasing
      sequence numbers. */
  lemma EveryIncumbentIsReached(st: Story) returns (wins: seq<Comparison>)
    requires st.Told() && Baseline(st.End().ledger.shots).Some?
    ensures var l := st.End().ledger;
      && l.state.incumbent.Some? && Subsequence(wins, l.comparisons)
      && WinsLeadTo(wins, Ranks(l.shots), Baseline(l.shots).value, l.state.incumbent.value)
  {
    EveryStoryIsSane(st);
    var l := st.End().ledger;
    wins := IncumbentIsReached(l.run.id, Ranks(l.shots), Baseline(l.shots).value, l.comparisons);
  }

  predicate JudgedIn(cs: seq<Comparison>, mode: Mode) { forall i :: 0 <= i < |cs| ==> cs[i].mode == mode }

  /** The comparison that makes its new shot the incumbent: the last win, in best-incumbent mode, or the last of the longest prefix of wins,
      in global-previous mode. None when the first valid shot is the incumbent. */
  function Decider(cs: seq<Comparison>, mode: Mode): Option<Comparison>
  {
    var n := if mode.BestIncumbent? then LastWin(cs) else WinningPrefix(cs);
    if n == 0 then None else Some(cs[n - 1])
  }

  predicate IsDecided(l: Ledger, mode: Mode)
  {
    var c := Decider(l.comparisons, mode);
    l.state.incumbent == if c.None? then Baseline(l.shots) else Some(c.value.newShot)
  }

  lemma IncumbentOfOneMode(l: Ledger, mode: Mode)
    requires ShotRows(l.shots) && Chained(l) && Baseline(l.shots).Some? && JudgedIn(l.comparisons, mode)
    ensures IsDecided(l, mode)
  {
    var base := Baseline(l.shots).value;
    BaselineIsFirst(l.shots);
    if mode.BestIncumbent? {
      BestIncumbentIsLastWin(l.run.id, Ranks(l.shots), base, l.comparisons);
    } else {
      GlobalIncumbentEndsWinningPrefix(l.run.id, Ranks(l.shots), base, l.comparisons);
    }
  }

  /** In every story judged in one mode only, the last win or the longest prefix of wins decides the stored incumbent. */
  lemma WhatEveryIncumbentIs(st: Story, mode: Mode)
    requires st.Told() && Baseline(st.End().ledger.shots).Some? && JudgedIn(st.End().ledger.comparisons, mode)
    ensures IsDecided(st.End().ledger, mode)
  {
    EveryStoryIsSane(st);
    IncumbentOfOneMode(st.End().ledger, mode);
  }

  // ----- the iteration -----

  predicate Counted(l: Ledger) { l.state.iteration == |l.suggestions| }

  lemma StepStaysCounted(x: Session, e: Event)
    requires Inv(x.ledger) && Allowed(x, e) && Counted(x.ledger)
    ensures Counted(Step(x, e).ledger)
  {
    var s, l := x.settings, x.ledger;
    if Attempt(s, l, e).Ok? {
      match e
      case Suggest(p, now) => SuggestStaysCounted(s, l, p, now);
      case Report(r, deviate, now) => ReportStaysCounted(l, r, deviate, now);
      case Abstain(n, a, now) => var i := AbstentionParts(l, n, a, now);
      case Prefer(j, id, now) => PreferStaysCounted(s, l, j, id, now);
      case Reopen(control, now) => ResumeFrame(s, l, control, now);
      case Correct(id, controls, notes, now) => CorrectStaysCounted(s, l, id, controls, notes, now);
      case Exclude(id, now) => ExcludeStaysCounted(s, l, id, now);
      case Configure(_) =>
      case Meet(mode, now) => MeetStaysCounted(s, l, mode, now);
    }
  }

  lemma SuggestStaysCounted(s: Settings, l: Ledger, p: Option<Engine.Proposal>, now: nat)
    requires Inv(l) && Counted(l) && SuggestNext(s, l, p, now).Ok?
    ensures Counted(SuggestNext(s, l, p, now).value.0)
  {
    SuggestionParts(s, l, p, now);
  }

  lemma ReportStaysCounted(l: Ledger, r: ShotReport, deviate: bool, now: nat)
    requires Counted(l) && RecordShot(l, r, deviate, now).Ok?
    ensures Counted(RecordShot(l, r, deviate, now).value.0)
  {
    RecordedParts(l, r, deviate, now);
  }

  lemma PreferStaysCounted(s: Settings, l: Ledger, j: Judgement, id: ComparisonId, now: nat)
    requires Inv(l) && Counted(l) && KeyFollows(l, id, now) && RecordPreference(s, l, j, id, now).Ok?
    ensures Counted(RecordPreference(s, l, j, id, now).value)
  {
    if l.state.pendingShot == Some(j.newShot) {
      var c, k := PreferenceParts(s, l, j, id, now);
    }
  }

  lemma CorrectStaysCounted(s: Settings, l: Ledger, id: ShotId, controls: Controls, notes: map<nat, nat>, now: nat)
    requires Inv(l) && Counted(l) && CorrectShot(s, l, id, controls, notes, now).Ok?
    ensures Counted(CorrectShot(s, l, id, controls, notes, now).value.0)
  {
  }

  lemma ExcludeStaysCounted(s: Settings, l: Ledger, id: ShotId, now: nat)
    requires Inv(l) && Counted(l) && ExcludeShot(s, l, id, now).Ok?
    ensures Counted(ExcludeShot(s, l, id, now).value)
  {
    if !FindShot(l.shots, id).value.status.Excluded? {
      var i, rows := ExclusionParts(s, l, id, now);
    }
  }

  lemma MeetStaysCounted(s: Settings, l: Ledger, mode: Option<Mode>, now: nat)
    requires Inv(l) && Counted(l) && CompatibleRun(s, l, mode, now).Ok?
    ensures Counted(CompatibleRun(s, l, mode, now).value)
  {
    if FitOf(s, l, mode).Migrated? {
      var space, rebased, state := MigrationParts(s, l, if mode.Some? then mode.value else l.run.mode, now);
    }
  }

  lemma {:induction false} PlayStaysCounted(x: Session, es: seq<Event>)
    requires Sane(x.ledger) && AllAllowed(x, es) && Counted(x.ledger)
    ensures Counted(Play(x, es).ledger)
  {
    if es != [] {
      PlayStaysCounted(x, es[..|es| - 1]);
      PlayStaysSane(x, es[..|es| - 1]);
      StepStaysCounted(Play(x, es[..|es| - 1]), es[|es| - 1]);
    }
  }

  /** In every story the stored iteration, which seeds the next suggestion, counts the suggestions made so far. */
  lemma EveryIterationCounts(st: Story)
    requires st.Told()
    ensures st.End().ledger.state.iteration == |st.End().ledger.suggestions|
  {
    BeginningIsSane(st);
    PlayStaysCounted(st.Start(), st.events);
  }
}
