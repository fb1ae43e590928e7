/** The audit trail in every story: what each use case adds to it, and that rebuilds write it afresh. */
module AuditTrails {
  import opened Prelude
  import opened RecipeSpace
  import opened RecipeLaws
  import opened Cpbo
  import opened TrustRegions
  import opened TrustRegionLaws
  import opened History
  import opened HistoryLaws
  import opened ReplayLaws
  import opened Ledgers
  import opened Service
  import opened Invariants
  import opened Faithfulness
  import opened Markings
  import opened Frames
  import opened Trails
  import opened Runs
  import opened Stories
  import Engine
  import Standstill

  // ----- steps that leave the region -----

  lemma KeepsTrail(ss: set<Schedule>, l: Ledger, m: Ledger)
    requires Trailed(ss, l) && m.state.region == l.state.region && m.comparisons == l.comparisons && Baseline(m.shots) == Baseline(l.shots)
    requires Extends(Centers(l.shots, l.table.rows), Centers(m.shots, m.table.rows))
    ensures Trailed(ss, m)
  {
    PlacedInMore(Centers(l.shots, l.table.rows), Centers(m.shots, m.table.rows), l.state.region.transitions);
  }

  lemma OutlineKeepsTrail(ss: set<Schedule>, l: Ledger, m: Ledger)
    requires Inv(l) && Trailed(ss, l) && m.state.region == l.state.region && m.comparisons == l.comparisons
    requires ShotRows(m.shots) && SameOutline(l.shots, m.shots) && MoreRecipes(l, m)
    requires forall i :: 0 <= i < |l.shots| ==> m.shots[i].recipe == l.shots[i].recipe
    ensures Trailed(ss, m)
  {
    OutlineDecides(l.shots, m.shots);
    CentersOfOutline(l.shots, m.shots, l.table.rows, m.table.rows);
    KeepsTrail(ss, l, m);
  }

  lemma SuggestKeepsTrail(s: Settings, ss: set<Schedule>, l: Ledger, p: Option<Engine.Proposal>, now: nat)
    requires Inv(l) && Trailed(ss, l) && SuggestNext(s, l, p, now).Ok?
    ensures Trailed(ss, SuggestNext(s, l, p, now).value.0)
  {
    SuggestFrame(s, l, p, now);
    OutlineKeepsTrail(ss, l, SuggestNext(s, l, p, now).value.0);
  }

  lemma AbstainKeepsTrail(ss: set<Schedule>, l: Ledger, n: ShotId, anchor: ShotId, now: nat)
    requires Inv(l) && Trailed(ss, l) && RecordAbstention(l, n, anchor, now).Ok?
    ensures Trailed(ss, RecordAbstention(l, n, anchor, now).value)
  {
    AbstentionKeeps(l, n, anchor, now);
    AbstainFrame(l, n, anchor, now);
    OutlineKeepsTrail(ss, l, RecordAbstention(l, n, anchor, now).value);
  }

  lemma RecordedKeepsTrail(ss: set<Schedule>, l: Ledger, r: ShotReport, deviate: bool, now: nat)
    requires Inv(l) && Trailed(ss, l) && RecordShot(l, r, deviate, now).Ok?
    ensures Trailed(ss, RecordShot(l, r, deviate, now).value.0)
  {
    var (m, shot) := RecordShot(l, r, deviate, now).value;
    RecordedParts(l, r, deviate, now);
    ShotKeeps(l, r, deviate, now);
    InsertedRecipe(l.table, CanonicalRecipe(l.run, r.controls, now).value);
    AppendedCenters(l, m, shot);
    AppendShot(l.shots, shot);
    if Baseline(l.shots).Some? {
      KeepsTrail(ss, l, m);
    } else {
      FirstKeepsTrail(ss, l, m);
    }
  }

  /** Without a valid shot there is no trail, and the first one may move the region. */
  lemma FirstKeepsTrail(ss: set<Schedule>, l: Ledger, m: Ledger)
    requires Trailed(ss, l) && Chained(l) && Baseline(l.shots).None? && m.comparisons == l.comparisons
    requires m.state.region == l.state.region.(center := m.state.region.center)
    ensures Trailed(ss, m)
  {
    assert l.state.region.transitions == [];
    var s :| s in ss && Starts(s, PoseAt(l.state.region, 0));
    assert Starts(s, PoseAt(m.state.region, 0));
    if Baseline(m.shots).Some? {
      var base := Baseline(m.shots).value;
      assert [] + Audits(m.state.region.transitions) == TrailOf(base, m.comparisons, MarkersOf(m.state.region.transitions));
    }
  }

  // ----- steps that add to it -----

  lemma TellsMore(before: seq<Audit>, ts: seq<Transition>, e: Transition, trail: seq<Audit>)
    requires before + Audits(ts) == trail
    ensures before + Audits(ts + [e]) == trail + [AuditOf(e)]
  {
    AuditsAppend(ts, e);
  }

  /** One more comparison in the region and in the trail. */
  lemma JudgedTells(s: Schedule, ss: set<Schedule>, p: Places, t: TrustRegion, u: TrustRegion, c: Comparison, x: Point, incumbent: ShotId,
                    before: seq<Audit>, trail: seq<Audit>)
    requires Continuous(ss, t) && Placed(p, t.transitions) && s in ss && before + Audits(t.transitions) == trail
    requires c.newShot in p && p[c.newShot] == Some(x) && Judge(s, t, c, Some(x), Some(incumbent)) == Ok(u)
    ensures Continuous(ss, u) && Placed(p, u.transitions) && before + Audits(u.transitions) == trail + Told(c, incumbent, map[])
  {
    if c.mode.BestIncumbent? {
      var e := JudgeRecords(s, t, c, x, Some(incumbent));
      GrowsContinuous(s, ss, t, u, e);
      GrowsPlaced(p, t, u, e);
      TellsMore(before, t.transitions, e, trail);
    }
  }

  lemma ToldUnmarked(c: Comparison, incumbent: ShotId, m: Markers)
    requires Some(c.id) !in m
    ensures Told(c, incumbent, m) == Told(c, incumbent, map[])
  {
  }

  lemma NewIsUnmarked(l: Ledger, c: Comparison)
    requires Marked(l) && forall i :: 0 <= i < |l.comparisons| ==> l.comparisons[i].id != c.id
    ensures Some(c.id) !in MarkersOf(l.state.region.transitions)
  {
  }

  lemma JudgedTrail(s: Settings, ss: set<Schedule>, l: Ledger, m: Ledger, c: Comparison, k: nat, now: nat)
    requires Inv(l) && Inv(m) && Marked(l) && Trailed(ss, l) && s.schedule in ss && ComparisonAppended(s, l, m, c, k, now)
    ensures Trailed(ss, m)
  {
    var base, x := Baseline(l.shots).value, l.table.rows[FindShot(l.shots, c.newShot).value.recipe].position;
    var markers := MarkersOf(l.state.region.transitions);
    HeadsAgree(m);
    ComparedPlaces(l, c);
    NewIsUnmarked(l, c);
    JudgedMarkers(s.schedule, l.state.region, c, x, m.state.incumbent);
    TrailAppend(base, l.comparisons, c, markers);
    ToldUnmarked(c, HeadAfter(base, m.comparisons).incumbent, markers);
    var before: seq<Audit> :| before + Audits(l.state.region.transitions) == TrailOf(base, l.comparisons, markers);
    JudgedTells(s.schedule, ss, Centers(l.shots, l.table.rows), l.state.region, m.state.region, c, x, HeadAfter(base, m.comparisons).incumbent,
                before, TrailOf(base, l.comparisons, markers));
  }

  lemma PreferKeepsTrail(s: Settings, ss: set<Schedule>, l: Ledger, j: Judgement, id: ComparisonId, now: nat)
    requires Inv(l) && Marked(l) && Trailed(ss, l) && s.schedule in ss && KeyFollows(l, id, now) && RecordPreference(s, l, j, id, now).Ok?
    ensures Trailed(ss, RecordPreference(s, l, j, id, now).value)
  {
    if l.state.pendingShot == Some(j.newShot) {
      var c, k := PreferenceParts(s, l, j, id, now);
      PreferenceKeeps(s, l, j, id, now);
      JudgedTrail(s, ss, l, RecordPreference(s, l, j, id, now).value, c, k, now);
    }
  }

  lemma ResumedTrail(s: Settings, ss: set<Schedule>, l: Ledger, m: Ledger, base: ShotId, c: Comparison, center: Point,
                     control: Option<ControlId>, now: nat)
    requires Inv(l) && Marked(l) && Trailed(ss, l) && s.schedule in ss && l.state.region.locallyConverged
    requires Baseline(l.shots) == Some(base) && l.comparisons != [] && c == l.comparisons[|l.comparisons| - 1]
    requires var inc := HeadAfter(base, l.comparisons).incumbent;
      && PlacedAt(Centers(l.shots, l.table.rows), Some(inc), ClampPoint(center))
      && m == l.(state := l.state.(region := m.state.region, updatedAt := now))
      && Resume(s.schedule, l.state.region, ClampPoint(center), Some(c.id), inc, now, control) == Ok(m.state.region)
    ensures Trailed(ss, m)
  {
    var ts, us, inc := l.state.region.transitions, m.state.region.transitions, HeadAfter(base, l.comparisons).incumbent;
    var before: seq<Audit> :| before + Audits(ts) == TrailOf(base, l.comparisons, MarkersOf(ts));
    ResumedTells(s.schedule, ss, Centers(l.shots, l.table.rows), l.state.region, m.state.region, center, c.id, inc, control, now,
                 before, TrailOf(base, l.comparisons, MarkersOf(ts)));
    ResumedTold(base, l.comparisons, MarkersOf(ts), MarkersOf(us), control, now);
  }

  /** One more marker in the region and in the trail. */
  lemma ResumedTells(s: Schedule, ss: set<Schedule>, p: Places, t: TrustRegion, u: TrustRegion, center: Point, id: ComparisonId, incumbent: ShotId,
                     control: Option<ControlId>, now: nat, before: seq<Audit>, trail: seq<Audit>)
    requires Continuous(ss, t) && Placed(p, t.transitions) && s in ss && before + Audits(t.transitions) == trail
    requires PlacedAt(p, Some(incumbent), ClampPoint(center))
    requires Resume(s, t, ClampPoint(center), Some(id), incumbent, now, control) == Ok(u)
    ensures Continuous(ss, u) && Placed(p, u.transitions)
    ensures before + Audits(u.transitions) == trail + [Audit(None, None, None, None, Some(incumbent), Some(id), control, Some(now))]
    ensures MarkersOf(u.transitions) == MarkersOf(t.transitions)[Some(id) := Marker(Some(now), control)]
  {
    var e := ResumeRecords(s, t, ClampPoint(center), Some(id), incumbent, now, control);
    ClampedIsInside(center);
    GrowsContinuous(s, ss, t, u, e);
    GrowsPlaced(p, t, u, e);
    MarkersAppend(t.transitions, e);
    TellsMore(before, t.transitions, e, trail);
  }

  /** A marker after the last comparison adds its entry to what the history tells. */
  lemma ResumedTold(base: ShotId, cs: seq<Comparison>, m: Markers, n: Markers, control: Option<ControlId>, now: nat)
    requires cs != [] && Some(cs[|cs| - 1].id) !in m && n == m[Some(cs[|cs| - 1].id) := Marker(Some(now), control)] && DistinctIds(cs)
    ensures TrailOf(base, cs, n) == TrailOf(base, cs, m)
      + [Audit(None, None, None, None, Some(HeadAfter(base, cs).incumbent), Some(cs[|cs| - 1].id), control, Some(now))]
  {
    NamedSplit(cs);
    TrailReads(base, cs[..|cs| - 1], m, n);
  }

  lemma ReopenKeepsTrail(s: Settings, ss: set<Schedule>, l: Ledger, control: Option<ControlId>, now: nat)
    requires Inv(l) && Marked(l) && Trailed(ss, l) && s.schedule in ss && now > 0 && ResumeLocalExploration(s, l, control, now).Ok?
    ensures Trailed(ss, ResumeLocalExploration(s, l, control, now).value)
  {
    if l.state.region.locallyConverged {
      var base, n := Baseline(l.shots).value, |l.comparisons| - 1;
      var inc := HeadAfter(base, l.comparisons).incumbent;
      BaselineIsFirst(l.shots);
      ChainIsValid(l.run.id, Ranks(l.shots), base, l.comparisons);
      var i := ValidAt(l.shots, inc);
      ShotInValid(l.shots, i);
      UniqueShot(l.shots, i);
      ResumedTrail(s, ss, l, ResumeLocalExploration(s, l, control, now).value, base, l.comparisons[n],
                   l.table.rows[l.shots[i].recipe].position, control, now);
    }
  }

  // ----- steps that write it afresh -----

  lemma RebuiltTrail(s: Settings, ss: set<Schedule>, m: Ledger)
    requires Inv(m) && Faithful(s, m) && s.schedule in ss
    ensures Trailed(ss, m)
  {
    FaithfulTrail(s, m);
    MoreSchedules({s.schedule}, ss, m.state.region);
  }

  lemma CorrectKeepsTrail(s: Settings, ss: set<Schedule>, l: Ledger, id: ShotId, controls: Controls, notes: map<nat, nat>, now: nat)
    requires Inv(l) && Marked(l) && Trailed(ss, l) && s.schedule in ss && CorrectShot(s, l, id, controls, notes, now).Ok?
    ensures Trailed(ss, CorrectShot(s, l, id, controls, notes, now).value.0)
  {
    var m := CorrectShot(s, l, id, controls, notes, now).value.0;
    CorrectionKeeps(s, l, id, controls, notes, now);
    var i, recipe := CorrectionRecord(s, l, id, controls, notes, now);
    if CorrectShot(s, l, id, controls, notes, now).value.1.recipeChanged {
      Standstill.CorrectionStaysFaithful(s, l, id, controls, notes, now);
      RebuiltTrail(s, ss, m);
    } else {
      SameRecipeKeepsTrail(s, ss, l, m, i, recipe, now);
    }
  }

  lemma SameRecipeKeepsTrail(s: Settings, ss: set<Schedule>, l: Ledger, m: Ledger, i: nat, recipe: RecipePoint, now: nat)
    requires Inv(l) && Trailed(ss, l) && Corrected(s, l, m, i, recipe, now) && recipe.id == l.shots[i].recipe
    ensures Trailed(ss, m)
  {
    InsertedRecipe(l.table, recipe);
    OutlineKeepsTrail(ss, l, m);
  }

  lemma ExcludeKeepsTrail(s: Settings, ss: set<Schedule>, l: Ledger, id: ShotId, now: nat)
    requires Inv(l) && Marked(l) && Trailed(ss, l) && s.schedule in ss && ExcludeShot(s, l, id, now).Ok?
    ensures Trailed(ss, ExcludeShot(s, l, id, now).value)
  {
    if !FindShot(l.shots, id).value.status.Excluded? {
      ExclusionKeeps(s, l, id, now);
      var i, rows := ExclusionParts(s, l, id, now);
      ExcludedFaithful(s, l, ExcludeShot(s, l, id, now).value, i, rows, now);
      RebuiltTrail(s, ss, ExcludeShot(s, l, id, now).value);
    }
  }

  lemma ReconfigureKeepsTrail(s: Settings, ss: set<Schedule>, l: Ledger, mode: Mode, now: nat)
    requires s.schedule in ss && ReconfigureRun(s, l, mode, now).Ok?
    ensures Trailed(ss, ReconfigureRun(s, l, mode, now).value)
  {
    var m := ReconfigureRun(s, l, mode, now).value;
    assert Starts(s.schedule, PoseOf(m.state.region));
    if Baseline(m.shots).Some? {
      var trail := TrailOf(Baseline(m.shots).value, m.comparisons, MarkersOf(m.state.region.transitions));
      assert trail + Audits(m.state.region.transitions) == trail;
    }
  }

  lemma MeetKeepsTrail(s: Settings, ss: set<Schedule>, l: Ledger, mode: Option<Mode>, now: nat)
    requires Inv(l) && Marked(l) && Trailed(ss, l) && s.schedule in ss && CompatibleRun(s, l, mode, now).Ok?
    ensures Trailed(ss, CompatibleRun(s, l, mode, now).value)
  {
    var desired := if mode.Some? then mode.value else l.run.mode;
    match FitOf(s, l, mode)
    case AsItIs =>
    case Retired => KeepsTrail(ss, l, Deactivate(l));
    case Migrated =>
      MigrationKeeps(s, l, desired, now);
      MigrationStaysLive(s, l, desired, now);
      RebuiltTrail(s, ss, MigrateRun(s, l, desired, now).value);
    case Reconfigured => ReconfigureKeepsTrail(s, ss, l, desired, now);
  }

  // ----- every story -----

  lemma StepKeepsTrail(x: Session, ss: set<Schedule>, e: Event)
    requires Inv(x.ledger) && Marked(x.ledger) && Allowed(x, e) && Trailed(ss, x.ledger) && x.settings.schedule in ss
    ensures Trailed(ss, Step(x, e).ledger)
  {
    var s, l := x.settings, x.ledger;
    if Attempt(s, l, e).Ok? {
      match e
      case Suggest(p, now) => SuggestKeepsTrail(s, ss, l, p, now);
      case Report(r, deviate, now) => RecordedKeepsTrail(ss, l, r, deviate, now);
      case Abstain(n, a, now) => AbstainKeepsTrail(ss, l, n, a, now);
      case Prefer(j, id, now) => PreferKeepsTrail(s, ss, l, j, id, now);
      case Reopen(control, now) => ReopenKeepsTrail(s, ss, l, control, now);
      case Correct(id, controls, notes, now) => CorrectKeepsTrail(s, ss, l, id, controls, notes, now);
      case Exclude(id, now) => ExcludeKeepsTrail(s, ss, l, id, now);
      case Configure(_) =>
      case Meet(mode, now) => MeetKeepsTrail(s, ss, l, mode, now);
    }
  }

  /** The schedules of a story: the one it began with and every one that was configured since. */
  function Schedules(st: Story): set<Schedule>
  {
    {st.settings.schedule} + set i | 0 <= i < |st.events| && st.events[i].Configure? :: st.events[i].settings.schedule
  }

  lemma {:induction false} PlayKeepsTrail(x: Session, ss: set<Schedule>, es: seq<Event>)
    requires Sane(x.ledger) && AllAllowed(x, es) && Trailed(ss, x.ledger) && x.settings.schedule in ss
    requires forall i :: 0 <= i < |es| && es[i].Configure? ==> es[i].settings.schedule in ss
    ensures var y := Play(x, es); Trailed(ss, y.ledger) && y.settings.schedule in ss
  {
    if es != [] {
      PlayKeepsTrail(x, ss, es[..|es| - 1]);
      PlayStaysSane(x, es[..|es| - 1]);
      StepKeepsTrail(Play(x, es[..|es| - 1]), ss, es[|es| - 1]);
    }
  }

  lemma BeginningIsTrailed(st: Story)
    requires st.Created().Ok?
    ensures Trailed({st.settings.schedule}, st.Start().ledger)
  {
    InitializeEstablishes(st.settings, st.id, st.mode, st.baseline, st.steps, st.now);
    InitializeIsLive(st.settings, st.id, st.mode, st.baseline, st.steps, st.now);
    FaithfulTrail(st.settings, st.Start().ledger);
  }

  /** In every story the audit trail is continuous under the schedules of the story, leads along the places of the recorded shots, and is
      the end of what the history tells. */
  lemma EveryTrailIsSound(st: Story)
    requires st.Told()
    ensures Trailed(Schedules(st), st.End().ledger)
  {
    BeginningIsSane(st);
    BeginningIsTrailed(st);
    MoreSchedules({st.settings.schedule}, Schedules(st), st.Start().ledger.state.region);
    PlayKeepsTrail(st.Start(), Schedules(st), st.events);
  }

  /** In every story without reconfigurations the trail starts at the baseline and tells the whole history. */
  lemma EverySteadyTrailIsWhole(st: Story)
    requires st.Told() && AllSteady(st.Start(), st.events) && Baseline(st.End().ledger.shots).Some?
    ensures var l := st.End().ledger;
      var base := Baseline(l.shots).value;
      && Continuous({st.End().settings.schedule}, l.state.region)
      && PlacedAt(Centers(l.shots, l.table.rows), Some(base), PoseAt(l.state.region, 0).center)
      && Audits(l.state.region.transitions) == TrailOf(base, l.comparisons, MarkersOf(l.state.region.transitions))
  {
    EveryStoryIsSane(st);
    LiveEqualsReplay(st);
    FaithfulTrail(st.End().settings, st.End().ledger);
  }

  // ----- where a reconfiguration starts -----

  /** The place of the shot that the mode anchors the next comparison at: the previous shot, in global-previous mode, or the incumbent, in
      best-incumbent mode. Without a valid shot, the place of the recipe listed first. */
  predicate AnchoredAt(l: Ledger, mode: Mode, center: Point)
  {
    match Baseline(l.shots)
    case None => l.table.first in l.table.rows && center == ClampPoint(l.table.rows[l.table.first].position)
    case Some(base) =>
      var head := HeadAfter(base, l.comparisons);
      PlacedAt(Centers(l.shots, l.table.rows), Some(if mode.GlobalPrevious? then head.previous else head.incumbent), center)
  }

  lemma ReconfigurationAnchors(s: Settings, l: Ledger, mode: Mode, now: nat)
    requires Inv(l) && ReconfigureRun(s, l, mode, now).Ok?
    ensures AnchoredAt(l, mode, ReconfigureRun(s, l, mode, now).value.state.region.center)
  {
    if Baseline(l.shots).Some? {
      BaselineIsFirst(l.shots);
      ChainIsValid(l.run.id, Ranks(l.shots), Baseline(l.shots).value, l.comparisons);
      var head := HeadAfter(Baseline(l.shots).value, l.comparisons);
      StoredPlace(l, head.previous);
      StoredPlace(l, head.incumbent);
    }
  }

  lemma StoredPlace(l: Ledger, id: ShotId)
    requires ShotRows(l.shots) && RecipesStored(l) && id in Ranks(l.shots)
    ensures FindShot(l.shots, id).Some? && FindShot(l.shots, id).value.recipe in l.table.rows
    ensures PlacedAt(Centers(l.shots, l.table.rows), Some(id), ClampPoint(l.table.rows[FindShot(l.shots, id).value.recipe].position))
  {
    var i := ValidAt(l.shots, id);
    ShotInValid(l.shots, i);
    UniqueShot(l.shots, i);
  }

  /** In every story a reconfiguration that is accepted starts anew around the anchor of its new mode: initial length, no streak, no trail,
      nothing pending, no model. Run, heads and iteration stay but for mode, seed and configuration. */
  lemma WhereAReconfigurationStarts(st: Story, s: Settings, mode: Mode, now: nat)
    requires st.Told() && ReconfigureRun(s, st.End().ledger, mode, now).Ok?
    ensures var l, m := st.End().ledger, ReconfigureRun(s, st.End().ledger, mode, now).value;
      && AnchoredAt(l, mode, m.state.region.center)
      && m.run == l.run.(mode := mode, configuration := s.configuration)
      && m.state == OptimizerState(l.state.previous, l.state.incumbent, l.state.iteration,
                                   TrustRegion(m.state.region.center, s.schedule.initial, 0, 0, false, false, []), None, None, s.seed, s.configuration,
                                   None, None, None, now)
  {
    EveryStoryIsSane(st);
    ReconfigurationAnchors(s, st.End().ledger, mode, now);
  }

  /** A created run is active, has no shots and no history, and stands anew at its baseline: the grid values nearest to the given controls,
      at their position within limits that reach equally far on both sides of the given grind. */
  lemma WhereARunStarts(st: Story)
    requires st.Created().Ok?
    ensures var l, t := st.Start().ledger, st.baseline.recipe;
      && l.run.id == st.id && l.run.mode == st.mode && l.run.active && l.run.configuration == st.settings.configuration
      && l.run.space.version == st.settings.domain && l.run.space.higherIsFiner == st.baseline.higherIsFiner
      && l.run.space.grind.lo + l.run.space.grind.hi == 2.0 * t.grind
      && l.run.space.grind.hi - l.run.space.grind.lo == 2.0 * st.settings.domain.grindRadius
      && l.run.space.grind.step == st.steps.grind && l.run.space.dose.step == st.steps.dose && l.run.space.output.step == st.steps.output
      && l.run.space.dose.lo == st.settings.domain.doseMin && l.run.space.dose.hi == st.settings.domain.doseMax
      && l.run.space.output.lo == st.settings.domain.outputMin && l.run.space.output.hi == st.settings.domain.outputMax
      && Nearest(l.run.space.grind, t.grind, l.table.first.controls.grind)
      && Nearest(l.run.space.dose, t.dose, l.table.first.controls.dose)
      && Nearest(l.run.space.output, t.output, l.table.first.controls.output)
      && Positioned(l.run.space, l.table.first.controls, l.state.region.center)
      && l.table.rows.Keys == {l.table.first} && l.shots == [] && l.comparisons == [] && l.suggestions == []
      && l.state == OptimizerState(None, None, 0, TrustRegion(l.state.region.center, st.settings.schedule.initial, 0, 0, false, false, []), None, None,
                                   st.settings.seed, st.settings.configuration, None, None, None, st.now)
  {
    var s, t := st.Start().ledger.run.space, st.baseline.recipe;
    CreatePositions(s, t, st.now);
    CreateIsCanonical(s, t, st.now);
    QuantizeIsNearest(s.grind, t.grind);
    QuantizeIsNearest(s.dose, t.dose);
    QuantizeIsNearest(s.output, t.output);
  }
}
