/** Converged runs as users meet them: which visits to the bridge lead out of local convergence. */
module Standstill {
  import opened Prelude
  import opened RecipeSpace
  import opened Cpbo
  import opened TrustRegions
  import opened History
  import opened HistoryLaws
  import opened ReplayLaws
  import opened Ledgers
  import opened Service
  import opened Invariants
  import opened Faithfulness
  import opened Markings
  import opened Guarantees
  import opened Frames
  import opened Bridge
  import opened Visits
  import opened Escapes
  import opened Tempos
  import Convergence
  import Engine
  import Runs
  import Stories

  /** The visit excludes no shot. */
  predicate KeepsShots(v: Visit) { v.Amendment? ==> !v.edit.excluded }

  predicate AllKeepShots(vs: seq<Visit>) { forall i :: 0 <= i < |vs| ==> KeepsShots(vs[i]) }

  // ----- what leads nowhere -----

  /** Converged in global-previous mode, as the stored history has it. */
  ghost predicate Stuck(s: Settings, mode: Mode, l: Ledger)
  {
    Inv(l) && Faithful(s, l) && InLine(s, mode, l) && mode.GlobalPrevious? && l.state.region.locallyConverged
  }

  /** A converged run answers a new shot with convergence, in either mode, and no shot changes it. */
  lemma ShotChangesNothing(s: Settings, mode: Mode, l: Ledger, r: ShotRecord, aid: Aid, now: nat)
    requires Inv(l) && InLine(s, mode, l) && l.state.region.locallyConverged
    ensures var reply := HandleShot(s, mode, Some(l), r, aid, now);
      && reply.book == Some(l) && RecommendedBy(reply.result) == None
      && (r.espresso && !r.excluded && !HasShot(l.shots, r.id) && KnownRecipe(r).Some? && r.hasContext ==>
            reply.result == Ok(Outcome(None, false, Some(Reason.Converged))))
  {
    BaselineIsRecorded(l);
    InLineIsMet(s, mode, l, now);
  }

  lemma AnswerKeepsConvergence(s: Settings, mode: Mode, l: Ledger, a: Answer, id: ComparisonId, p: Option<Engine.Proposal>, now: nat)
    requires Stuck(s, mode, l) && (a.Preferred? ==> KeyFollows(l, id, now))
    ensures var (m, r) := HandleAnswer(s, l, a, id, p, now);
      Stuck(s, mode, m) && SameOutline(l.shots, m.shots) && (r.Ok? ==> r.value == None)
  {
    if RecordAnswer(s, l, a, id, now).Ok? {
      match a
      case Preferred(j) => JudgedStaysStuck(s, mode, l, j, id, now);
      case Abstained(n, anchor) => AbstainedStaysStuck(s, mode, l, n, anchor, now);
    }
  }

  lemma JudgedStaysStuck(s: Settings, mode: Mode, l: Ledger, j: Judgement, id: ComparisonId, now: nat)
    requires Stuck(s, mode, l) && KeyFollows(l, id, now) && RecordPreference(s, l, j, id, now).Ok?
    ensures Stuck(s, mode, RecordPreference(s, l, j, id, now).value) && SameOutline(l.shots, RecordPreference(s, l, j, id, now).value.shots)
  {
    PreferenceKeeps(s, l, j, id, now);
    JudgeFrame(s, l, j, id, now);
    if l.state.pendingShot == Some(j.newShot) {
      var c, k := PreferenceParts(s, l, j, id, now);
      ComparedFaithful(s, l, RecordPreference(s, l, j, id, now).value, c, k, now);
    }
  }

  lemma AbstainedStaysStuck(s: Settings, mode: Mode, l: Ledger, n: ShotId, anchor: ShotId, now: nat)
    requires Stuck(s, mode, l) && RecordAbstention(l, n, anchor, now).Ok?
    ensures Stuck(s, mode, RecordAbstention(l, n, anchor, now).value) && SameOutline(l.shots, RecordAbstention(l, n, anchor, now).value.shots)
  {
    AbstentionKeeps(l, n, anchor, now);
    AbstainFrame(l, n, anchor, now);
    AbstentionStaysFaithful(s, l, n, anchor, now);
  }

  lemma CorrectionStaysFaithful(s: Settings, l: Ledger, id: ShotId, controls: Controls, notes: map<nat, nat>, now: nat)
    requires Inv(l) && Marked(l) && CorrectShot(s, l, id, controls, notes, now).Ok?
    requires CorrectShot(s, l, id, controls, notes, now).value.1.recipeChanged || Faithful(s, l)
    ensures Faithful(s, CorrectShot(s, l, id, controls, notes, now).value.0)
  {
    CorrectionKeeps(s, l, id, controls, notes, now);
    var i, recipe := CorrectionRecord(s, l, id, controls, notes, now);
    CorrectedIsFaithful(s, l, CorrectShot(s, l, id, controls, notes, now).value.0, i, recipe, now);
  }

  lemma CorrectedIsFaithful(s: Settings, l: Ledger, m: Ledger, i: nat, recipe: RecipePoint, now: nat)
    requires Inv(l) && Inv(m) && Marked(l) && Corrected(s, l, m, i, recipe, now)
    requires recipe.id != l.shots[i].recipe || Faithful(s, l)
    ensures Faithful(s, m)
  {
    InsertedRecipe(l.table, recipe);
    if recipe.id == l.shots[i].recipe {
      StillFaithful(s, l, m);
    } else {
      var rows := CollectRecipes(l.table, map[recipe.id := recipe], m.shots, Some(m.shots[i].id)).value;
      CorrectedPlaces(l, m, i, recipe, rows);
      RebuiltIsFaithful(s, l.state.region, m, rows);
    }
  }

  /** A faithful run is marked: its markers are those of its replay. */
  lemma FaithfulIsMarked(s: Settings, l: Ledger)
    requires Inv(l) && Faithful(s, l) && l.run.mode.GlobalPrevious?
    ensures Marked(l)
  {
    RebuildIsProjection(s.schedule, l.state.region, l.shots, l.table.rows, l.comparisons);
    if l.state.region.locallyConverged {
      ConvergedAfterUnmarked(s, l);
    }
  }

  lemma CorrectedStaysStuck(s: Settings, mode: Mode, l: Ledger, id: ShotId, controls: Controls, notes: map<nat, nat>, now: nat)
    requires Stuck(s, mode, l) && CorrectShot(s, l, id, controls, notes, now).Ok?
    ensures Stuck(s, mode, CorrectShot(s, l, id, controls, notes, now).value.0)
    ensures SameOutline(l.shots, CorrectShot(s, l, id, controls, notes, now).value.0.shots)
  {
    FaithfulIsMarked(s, l);
    CorrectionKeeps(s, l, id, controls, notes, now);
    CorrectFrame(s, l, id, controls, notes, now);
    CorrectionStaysFaithful(s, l, id, controls, notes, now);
    CorrectionKeepsConvergence(s, l, id, controls, notes, now);
  }

  /** A correction of a faithful run leaves it as converged as it was. */
  lemma CorrectionKeepsConvergence(s: Settings, l: Ledger, id: ShotId, controls: Controls, notes: map<nat, nat>, now: nat)
    requires Inv(l) && Marked(l) && Faithful(s, l) && CorrectShot(s, l, id, controls, notes, now).Ok?
    ensures CorrectShot(s, l, id, controls, notes, now).value.0.state.region.locallyConverged == l.state.region.locallyConverged
  {
    FaithfulCanRebuild(s, l);
    if CorrectShot(s, l, id, controls, notes, now).value.1.recipeChanged {
      CorrectionConvergence(s, l, id, controls, notes, now);
    } else {
      CorrectionLeavesState(s, l, id, controls, notes, now);
    }
  }

  lemma CorrectionHandled(s: Settings, mode: Mode, l: Ledger, id: ShotId, controls: Controls, notes: map<nat, nat>,
                          p: Option<Engine.Proposal>, now: nat)
    requires Stuck(s, mode, l)
    ensures var h := HandleCorrection(s, l, id, controls, notes, p, now);
      Stuck(s, mode, h.ledger) && SameOutline(l.shots, h.ledger.shots) && RecommendedBy(h.result) == None
  {
    if CorrectShot(s, l, id, controls, notes, now).Ok? {
      CorrectedStaysStuck(s, mode, l, id, controls, notes, now);
      StuckIsNotFollowedUp(s, mode, CorrectShot(s, l, id, controls, notes, now).value.0, CorrectShot(s, l, id, controls, notes, now).value.1, p, now);
    }
  }

  lemma StuckIsNotFollowedUp(s: Settings, mode: Mode, m: Ledger, done: Correction, p: Option<Engine.Proposal>, now: nat)
    requires Stuck(s, mode, m)
    ensures AfterCorrection(s, m, done, p, now).ledger == m && RecommendedBy(AfterCorrection(s, m, done, p, now).result) == None
  {
  }

  lemma EditKeepsConvergence(s: Settings, mode: Mode, l: Ledger, e: Edit, p: Option<Engine.Proposal>, now: nat)
    requires Stuck(s, mode, l) && !e.excluded
    ensures var h := HandleEdit(s, l, e, p, now); Stuck(s, mode, h.ledger) && SameOutline(l.shots, h.ledger.shots) && RecommendedBy(h.result) == None
  {
    if HasShot(l.shots, e.id) && e.controls.Some? {
      CorrectionHandled(s, mode, l, e.id, e.controls.value, e.notes, p, now);
    }
  }

  /** In global-previous mode no shot, answer, correction or resume request leads out of convergence, adds a shot or is answered with a
      suggestion. */
  lemma VisitStaysStuck(s: Settings, mode: Mode, l: Ledger, v: Visit)
    requires Stuck(s, mode, l) && Admitted(Some(l), v) && KeepsShots(v)
    ensures var m := After(s, mode, Some(l), v);
      m.Some? && Stuck(s, mode, m.value) && SameOutline(l.shots, m.value.shots) && Recommended(s, mode, l, v) == None
  {
    match v
    case NewShot(r, aid, now) => ShotChangesNothing(s, mode, l, r, aid, now);
    case NewAnswer(a, id, p, now) => AnswerKeepsConvergence(s, mode, l, a, id, p, now);
    case Amendment(e, p, now) => EditKeepsConvergence(s, mode, l, e, p, now);
    case ResumeRequest(control, p, now) =>
  }

  // ----- what leads out -----

  /** The visit excludes a shot without which the history does not end converged. */
  predicate IsFreeing(s: Settings, l: Ledger, v: Visit) { v.Amendment? && v.edit.excluded && Frees(s, l, v.edit.id) }

  lemma ExcludedRun(s: Settings, mode: Mode, l: Ledger, id: ShotId, now: nat)
    requires Inv(l) && Marked(l) && InLine(s, mode, l) && ExcludeShot(s, l, id, now).Ok? && !FindShot(l.shots, id).value.status.Excluded?
    ensures var m := ExcludeShot(s, l, id, now).value;
      && Inv(m) && Faithful(s, m) && InLine(s, mode, m)
      && (m.state.region.locallyConverged <==> !Frees(s, l, id))
  {
    ExclusionKeeps(s, l, id, now);
    ExcludeFrame(s, l, id, now);
    FreeingCondition(s, l, id, now);
    var i, rows := ExclusionParts(s, l, id, now);
    ExcludedFaithful(s, l, ExcludeShot(s, l, id, now).value, i, rows, now);
  }

  lemma FollowedUp(s: Settings, m: Ledger, p: Option<Engine.Proposal>, now: nat)
    requires Inv(m)
    ensures AfterExclusion(s, m, p, now).ledger.state.region == m.state.region
    ensures m.state.region.locallyConverged ==> AfterExclusion(s, m, p, now).ledger == m
  {
    if SuggestNext(s, m, p, now).Ok? {
      SuggestFrame(s, m, p, now);
    }
  }

  /** An exclusion leads out of convergence exactly when it frees the run; else the run stays converged as its history has it. */
  lemma ExclusionOutcome(s: Settings, mode: Mode, l: Ledger, id: ShotId, p: Option<Engine.Proposal>, now: nat)
    requires Inv(l) && Marked(l) && Faithful(s, l) && InLine(s, mode, l) && l.state.region.locallyConverged && HasShot(l.shots, id)
    ensures var m := HandleExclusion(s, l, id, p, now).ledger;
      && (m.state.region.locallyConverged <==> !Frees(s, l, id))
      && (m.state.region.locallyConverged ==> Inv(m) && Faithful(s, m) && InLine(s, mode, m))
  {
    if !FindShot(l.shots, id).value.status.Excluded? {
      FreeingCondition(s, l, id, now);
      if ExcludeShot(s, l, id, now).Ok? {
        ExcludedRun(s, mode, l, id, now);
        FollowedUp(s, ExcludeShot(s, l, id, now).value, p, now);
      }
    }
  }

  /** In global-previous mode a visit leads out of convergence exactly when it excludes a shot without which the history does not end
      converged; after any other visit the run is as stuck as before. */
  lemma VisitCondition(s: Settings, mode: Mode, l: Ledger, v: Visit)
    requires Stuck(s, mode, l) && Admitted(Some(l), v)
    ensures var m := After(s, mode, Some(l), v); m.Some? && (Left(m) <==> IsFreeing(s, l, v)) && (!Left(m) ==> Stuck(s, mode, m.value))
  {
    if KeepsShots(v) {
      VisitStaysStuck(s, mode, l, v);
    } else if HasShot(l.shots, v.edit.id) {
      FaithfulIsMarked(s, l);
      ExclusionOutcome(s, mode, l, v.edit.id, v.proposal, v.now);
    }
  }

  ghost predicate Left(book: Option<Ledger>) { book.Some? && !book.value.state.region.locallyConverged }

  lemma {:induction false} VisitsStayStuck(s: Settings, mode: Mode, l: Ledger, vs: seq<Visit>)
    requires Stuck(s, mode, l) && AllAdmitted(s, mode, Some(l), vs) && AllKeepShots(vs)
    ensures var m := AfterAll(s, mode, Some(l), vs); m.Some? && Stuck(s, mode, m.value) && SameOutline(l.shots, m.value.shots)
  {
    if vs != [] {
      VisitsStayStuck(s, mode, l, vs[..|vs| - 1]);
      VisitStaysStuck(s, mode, AfterAll(s, mode, Some(l), vs[..|vs| - 1]).value, vs[|vs| - 1]);
    }
  }

  ghost predicate FreesStuck(s: Settings, mode: Mode, book: Option<Ledger>, v: Visit)
  {
    book.Some? && Stuck(s, mode, book.value) && IsFreeing(s, book.value, v)
  }

  /** Visit k frees the run, which was stuck until then. */
  ghost predicate FreedBy(s: Settings, mode: Mode, l: Ledger, vs: seq<Visit>, k: nat)
  {
    k < |vs| && FreesStuck(s, mode, AfterAll(s, mode, Some(l), vs[..k]), vs[k])
  }

  ghost predicate SomeFree(s: Settings, mode: Mode, l: Ledger, vs: seq<Visit>)
  {
    exists k: nat :: FreedBy(s, mode, l, vs, k)
  }

  lemma FreedEarlier(s: Settings, mode: Mode, l: Ledger, vs: seq<Visit>, n: nat)
    requires n <= |vs| && SomeFree(s, mode, l, vs[..n])
    ensures SomeFree(s, mode, l, vs)
  {
    var k: nat :| FreedBy(s, mode, l, vs[..n], k);
    StillFreed(s, mode, l, vs, n, k);
  }

  lemma StillFreed(s: Settings, mode: Mode, l: Ledger, vs: seq<Visit>, n: nat, k: nat)
    requires n <= |vs| && FreedBy(s, mode, l, vs[..n], k)
    ensures FreedBy(s, mode, l, vs, k)
  {
    assert vs[..n][..k] == vs[..k] && vs[..n][k] == vs[k];
  }

  /** Visits that lead out of convergence in global-previous mode contain an exclusion that frees the run; without one it stays stuck. */
  lemma {:induction false} OnlyExclusionsLeadOut(s: Settings, mode: Mode, l: Ledger, vs: seq<Visit>)
    requires Stuck(s, mode, l) && AllAdmitted(s, mode, Some(l), vs)
    ensures var m := AfterAll(s, mode, Some(l), vs); SomeFree(s, mode, l, vs) || (m.Some? && Stuck(s, mode, m.value))
  {
    if vs != [] {
      var n := |vs| - 1;
      OnlyExclusionsLeadOut(s, mode, l, vs[..n]);
      if SomeFree(s, mode, l, vs[..n]) {
        FreedEarlier(s, mode, l, vs, n);
      } else {
        var m := AfterAll(s, mode, Some(l), vs[..n]);
        VisitCondition(s, mode, m.value, vs[n]);
        assert IsFreeing(s, m.value, vs[n]) ==> FreedBy(s, mode, l, vs, n);
      }
    }
  }

  // ----- the ways out -----

  /** Some admitted visits lead out of local convergence. */
  ghost predicate HasExit(s: Settings, mode: Mode, l: Ledger)
  {
    exists vs :: AllAdmitted(s, mode, Some(l), vs) && Left(AfterAll(s, mode, Some(l), vs))
  }

  /** Some do without excluding a shot. */
  ghost predicate HasExitWithAllShots(s: Settings, mode: Mode, l: Ledger)
  {
    exists vs :: AllAdmitted(s, mode, Some(l), vs) && AllKeepShots(vs) && Left(AfterAll(s, mode, Some(l), vs))
  }

  function Exclusion(id: ShotId): Visit { Amendment(Edit(id, true, None, map[]), None, 0) }

  /** One exclusion leads any faithful run out of convergence, in either mode. */
  lemma ExclusionIsAnExit(s: Settings, mode: Mode, l: Ledger) returns (id: ShotId)
    requires Inv(l) && Marked(l) && Faithful(s, l) && InLine(s, mode, l) && l.state.region.locallyConverged
    ensures Left(After(s, mode, Some(l), Exclusion(id)))
  {
    FaithfulCanRebuild(s, l);
    id := OneExclusionLeadsOut(s, l);
    ExclusionOutcome(s, mode, l, id, None, 0);
  }

  lemma OneVisitIsAnExit(s: Settings, mode: Mode, l: Ledger, v: Visit)
    requires Admitted(Some(l), v) && Left(After(s, mode, Some(l), v))
    ensures HasExit(s, mode, l)
  {
    OneMore(s, mode, Some(l), [], v);
    assert Left(AfterAll(s, mode, Some(l), [] + [v]));
  }

  lemma ResumptionLeaves(s: Settings, l: Ledger, control: ControlId, p: Option<Engine.Proposal>, now: nat)
    requires Inv(l) && Marked(l) && l.run.active && l.run.mode.BestIncumbent? && l.state.region.locallyConverged && NoPending(l.state)
    ensures !HandleControl(s, l, control, p, now).ledger.state.region.locallyConverged
  {
    Convergence.ResumeCondition(s, l, Some(control), now);
    var m := ResumeLocalExploration(s, l, Some(control), now).value;
    ResumeKeeps(s, l, Some(control), now);
    if SuggestNext(s, m, p, now).Ok? {
      SuggestFrame(s, m, p, now);
    }
  }

  /** A shot that is awaited can be abstained from, which leaves the region as it is and nothing pending. */
  lemma AwaitedCanBeDropped(l: Ledger, n: ShotId, anchor: ShotId, now: nat)
    requires Inv(l) && l.state.pendingShot == Some(n) && l.state.pendingAnchor == Some(anchor)
    ensures var r := RecordAbstention(l, n, anchor, now);
      r.Ok? && NoPending(r.value.state) && r.value.state.region == l.state.region && r.value.run == l.run && r.value.comparisons == l.comparisons
  {
    var i := Convergence.AwaitedIsStored(l, n);
    var j := Convergence.AwaitedIsStored(l, anchor);
    SubstituteKeepsOutline(l.shots, i, l.shots[i].(abstention := Some(Abstention(anchor, now))));
  }

  lemma OneVisit(s: Settings, mode: Mode, l: Ledger, v: Visit)
    requires Admitted(Some(l), v) && KeepsShots(v) && Left(After(s, mode, Some(l), v))
    ensures HasExitWithAllShots(s, mode, l)
  {
    OneMore(s, mode, Some(l), [], v);
    assert Left(AfterAll(s, mode, Some(l), [] + [v]));
  }

  lemma TwoVisits(s: Settings, mode: Mode, l: Ledger, v: Visit, m: Ledger, w: Visit)
    requires Admitted(Some(l), v) && KeepsShots(v) && After(s, mode, Some(l), v) == Some(m)
    requires Admitted(Some(m), w) && KeepsShots(w) && Left(After(s, mode, Some(m), w))
    ensures HasExitWithAllShots(s, mode, l)
  {
    OneMore(s, mode, Some(l), [], v);
    OneMore(s, mode, Some(l), [] + [v], w);
    assert Left(AfterAll(s, mode, Some(l), [] + [v] + [w]));
  }

  const RESUME_NOW := ResumeRequest(0, None, 1)

  lemma ResumingLeaves(s: Settings, mode: Mode, l: Ledger)
    requires Inv(l) && Marked(l) && l.run.active && l.run.mode.BestIncumbent? && l.state.region.locallyConverged && NoPending(l.state)
    ensures Left(After(s, mode, Some(l), RESUME_NOW))
  {
    ResumptionLeaves(s, l, 0, None, 1);
  }

  lemma BestIncumbentHasExit(s: Settings, mode: Mode, l: Ledger)
    requires Inv(l) && Marked(l) && l.run.active && l.run.mode.BestIncumbent? && l.state.region.locallyConverged
    ensures HasExitWithAllShots(s, mode, l)
  {
    if NoPending(l.state) {
      ResumingLeaves(s, mode, l);
      OneVisit(s, mode, l, RESUME_NOW);
    } else {
      var drop, m := DroppingLeadsOn(s, mode, l);
      ResumingLeaves(s, mode, m);
      TwoVisits(s, mode, l, drop, m, RESUME_NOW);
    }
  }

  lemma DroppingLeadsOn(s: Settings, mode: Mode, l: Ledger) returns (drop: Visit, m: Ledger)
    requires Inv(l) && Marked(l) && l.state.region.locallyConverged && l.state.pendingShot.Some?
    ensures Admitted(Some(l), drop) && KeepsShots(drop) && After(s, mode, Some(l), drop) == Some(m)
    ensures Inv(m) && Marked(m) && m.run == l.run && m.state.region == l.state.region && NoPending(m.state)
  {
    var n, anchor := l.state.pendingShot.value, l.state.pendingAnchor.value;
    AwaitedCanBeDropped(l, n, anchor, 0);
    AbstentionKeeps(l, n, anchor, 0);
    drop, m := NewAnswer(Abstained(n, anchor), 0, None, 0), RecordAbstention(l, n, anchor, 0).value;
    assert HandleAnswer(s, l, Abstained(n, anchor), 0, None, 0).0 == m;
  }

  /** A converged run always has a way out. It has one that excludes no shot exactly when it judges against the incumbent. */
  lemma ExitCondition(s: Settings, mode: Mode, l: Ledger)
    requires Inv(l) && Marked(l) && InLine(s, mode, l) && l.state.region.locallyConverged
    requires mode.GlobalPrevious? ==> Faithful(s, l)
    ensures HasExit(s, mode, l)
    ensures HasExitWithAllShots(s, mode, l) <==> mode.BestIncumbent?
  {
    if mode.BestIncumbent? {
      BestIncumbentHasExit(s, mode, l);
    } else {
      var id := ExclusionIsAnExit(s, mode, l);
      OneVisitIsAnExit(s, mode, l, Exclusion(id));
      forall vs | AllAdmitted(s, mode, Some(l), vs) && AllKeepShots(vs)
        ensures !Left(AfterAll(s, mode, Some(l), vs))
      {
        VisitsStayStuck(s, mode, l, vs);
      }
    }
  }

  /** A migration of a faithful run keeps convergence exactly, whatever mode it changes to. */
  lemma MigrationCarriesConvergence(s: Settings, l: Ledger, mode: Mode, now: nat)
    requires Inv(l) && Marked(l) && Faithful(s, l) && MigrateRun(s, l, mode, now).Ok?
    ensures var m := MigrateRun(s, l, mode, now).value;
      m.run.mode == mode && m.run.active && (m.state.region.locallyConverged <==> l.state.region.locallyConverged)
  {
    FaithfulCanRebuild(s, l);
    MigrationConvergence(s, l, mode, now);
    var space, rebased, state := MigrationParts(s, l, mode, now);
  }

  // ----- in every story -----

  /** Convergence in global-previous mode is the convergence of the stored history. */
  predicate Carried(s: Settings, l: Ledger)
  {
    l.run.mode.GlobalPrevious? && l.state.region.locallyConverged ==> Faithful(s, l)
  }

  lemma StepStaysCarried(x: Runs.Session, e: Runs.Event)
    requires Inv(x.ledger) && Marked(x.ledger) && Carried(x.settings, x.ledger) && Runs.Allowed(x, e)
    requires e.Configure? ==> e.settings.schedule == x.settings.schedule
    ensures Carried(Runs.Step(x, e).settings, Runs.Step(x, e).ledger)
  {
    var s, l := x.settings, x.ledger;
    if Runs.Attempt(s, l, e).Ok? {
      match e
      case Suggest(p, now) => SuggestedStaysCarried(s, l, p, now);
      case Report(r, deviate, now) => RecordedStaysCarried(s, l, r, deviate, now);
      case Abstain(n, a, now) => AbstainedStaysCarried(s, l, n, a, now);
      case Prefer(j, id, now) => JudgedStaysCarried(s, l, j, id, now);
      case Reopen(control, now) => ResumeFrame(s, l, control, now);
      case Correct(id, controls, notes, now) => CorrectedStaysCarried(s, l, id, controls, notes, now);
      case Exclude(id, now) => ExcludedStaysCarried(s, l, id, now);
      case Configure(_) =>
      case Meet(mode, now) => MetStaysCarried(s, l, mode, now);
    }
  }

  lemma SuggestedStaysCarried(s: Settings, l: Ledger, p: Option<Engine.Proposal>, now: nat)
    requires Inv(l) && Carried(s, l) && SuggestNext(s, l, p, now).Ok?
    ensures Carried(s, SuggestNext(s, l, p, now).value.0)
  {
    SuggestFrame(s, l, p, now);
    if Faithful(s, l) {
      SuggestionStaysFaithful(s, s, l, p, now);
    }
  }

  lemma RecordedStaysCarried(s: Settings, l: Ledger, r: ShotReport, deviate: bool, now: nat)
    requires Inv(l) && Carried(s, l) && RecordShot(l, r, deviate, now).Ok?
    ensures Carried(s, RecordShot(l, r, deviate, now).value.0)
  {
    ReportFrame(l, r, deviate, now);
    if Faithful(s, l) {
      ShotStaysFaithful(s, l, r, deviate, now);
    }
  }

  lemma AbstainedStaysCarried(s: Settings, l: Ledger, n: ShotId, anchor: ShotId, now: nat)
    requires Inv(l) && Carried(s, l) && RecordAbstention(l, n, anchor, now).Ok?
    ensures Carried(s, RecordAbstention(l, n, anchor, now).value)
  {
    AbstainFrame(l, n, anchor, now);
    if Faithful(s, l) {
      AbstentionStaysFaithful(s, l, n, anchor, now);
    }
  }

  lemma JudgedStaysCarried(s: Settings, l: Ledger, j: Judgement, id: ComparisonId, now: nat)
    requires Inv(l) && Carried(s, l) && KeyFollows(l, id, now) && RecordPreference(s, l, j, id, now).Ok?
    ensures Carried(s, RecordPreference(s, l, j, id, now).value)
  {
    var m := RecordPreference(s, l, j, id, now).value;
    if l.run.mode.GlobalPrevious? && l.state.pendingShot == Some(j.newShot) && m.state.region.locallyConverged {
      PreferenceKeeps(s, l, j, id, now);
      var c, k := PreferenceParts(s, l, j, id, now);
      ComparedFaithful(s, l, m, c, k, now);
    } else {
      JudgeFrame(s, l, j, id, now);
    }
  }

  lemma CorrectedStaysCarried(s: Settings, l: Ledger, id: ShotId, controls: Controls, notes: map<nat, nat>, now: nat)
    requires Inv(l) && Marked(l) && Carried(s, l) && CorrectShot(s, l, id, controls, notes, now).Ok?
    ensures Carried(s, CorrectShot(s, l, id, controls, notes, now).value.0)
  {
    if CorrectShot(s, l, id, controls, notes, now).value.1.recipeChanged || Faithful(s, l) {
      CorrectionStaysFaithful(s, l, id, controls, notes, now);
    } else {
      CorrectionLeavesState(s, l, id, controls, notes, now);
    }
  }

  lemma CorrectionLeavesState(s: Settings, l: Ledger, id: ShotId, controls: Controls, notes: map<nat, nat>, now: nat)
    requires Inv(l) && CorrectShot(s, l, id, controls, notes, now).Ok? && !CorrectShot(s, l, id, controls, notes, now).value.1.recipeChanged
    ensures var m := CorrectShot(s, l, id, controls, notes, now).value.0; m.state == l.state && m.run == l.run
  {
    var i, recipe := CorrectionRecord(s, l, id, controls, notes, now);
  }

  lemma ExcludedStaysCarried(s: Settings, l: Ledger, id: ShotId, now: nat)
    requires Inv(l) && Marked(l) && Carried(s, l) && ExcludeShot(s, l, id, now).Ok?
    ensures Carried(s, ExcludeShot(s, l, id, now).value)
  {
    if !FindShot(l.shots, id).value.status.Excluded? {
      var i, rows := ExclusionParts(s, l, id, now);
      ExcludedFaithful(s, l, ExcludeShot(s, l, id, now).value, i, rows, now);
    }
  }

  lemma MetStaysCarried(s: Settings, l: Ledger, mode: Option<Mode>, now: nat)
    requires Inv(l) && Marked(l) && Carried(s, l) && CompatibleRun(s, l, mode, now).Ok?
    ensures Carried(s, CompatibleRun(s, l, mode, now).value)
  {
    MeetFrame(s, l, mode, now);
    match FitOf(s, l, mode)
    case AsItIs =>
    case Retired => RetiredStaysCarried(s, l);
    case Migrated => MigrationStaysLive(s, l, if mode.Some? then mode.value else l.run.mode, now);
    case Reconfigured =>
  }

  lemma RetiredStaysCarried(s: Settings, l: Ledger)
    requires Carried(s, l)
    ensures Carried(s, Deactivate(l))
  {
  }

  predicate OneSchedule(st: Runs.Story) { forall i :: 0 <= i < |st.events| && st.events[i].Configure? ==> st.events[i].settings.schedule == st.settings.schedule }

  lemma {:induction false} PlayStaysCarried(x: Runs.Session, es: seq<Runs.Event>)
    requires Stories.Sane(x.ledger) && Carried(x.settings, x.ledger) && Runs.AllAllowed(x, es)
    requires forall i :: 0 <= i < |es| && es[i].Configure? ==> es[i].settings.schedule == x.settings.schedule
    ensures var y := Runs.Play(x, es); Carried(y.settings, y.ledger) && y.settings.schedule == x.settings.schedule
  {
    if es != [] {
      var y := Runs.Play(x, es[..|es| - 1]);
      PlayStaysCarried(x, es[..|es| - 1]);
      Stories.PlayStaysSane(x, es[..|es| - 1]);
      StepStaysCarried(y, es[|es| - 1]);
    }
  }

  /** In every story over one schedule, an active run in local convergence that is in line with its settings can be led out of it by
      visits; without excluding a shot it can exactly when it is in best-incumbent mode. */
  lemma WhenConvergenceHasAnExit(st: Runs.Story, mode: Mode)
    requires st.Told() && OneSchedule(st) && InLine(st.End().settings, mode, st.End().ledger) && st.End().ledger.state.region.locallyConverged
    ensures HasExit(st.End().settings, mode, st.End().ledger)
    ensures HasExitWithAllShots(st.End().settings, mode, st.End().ledger) <==> mode.BestIncumbent?
  {
    Stories.EveryStoryIsSane(st);
    Stories.BeginningIsSane(st);
    PlayStaysCarried(st.Start(), st.events);
    ExitCondition(st.End().settings, mode, st.End().ledger);
  }
}
