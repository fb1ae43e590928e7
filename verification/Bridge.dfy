/** The runtime bridge: how canonical shots and answers drive the service, and that it never drives it astray. */
module Bridge {
  import opened Prelude
  import opened RecipeSpace
  import opened Cpbo
  import opened TrustRegions
  import opened TrustRegionLaws
  import opened History
  import opened HistoryLaws
  import opened ReplayLaws
  import opened Ledgers
  import opened Service
  import opened Invariants
  import opened Faithfulness
  import opened Guarantees
  import opened Frames
  import Engine

  datatype EndState = Finished | ManualFinished | Failed | Failure | MachineFailed | Errored | Unfamiliar

  /** What is known about a canonical shot. */
  datatype ShotRecord = ShotRecord(
    id: ShotId, espresso: bool, excluded: bool, hasContext: bool, endState: EndState,
    grindObserved: bool, relativeGrind: Option<real>, doseTarget: Option<real>, doseObserved: bool, doseTargetConfirmed: bool,
    targetYield: real, targetYieldObserved: bool, higherIsFiner: bool, notes: map<nat, nat>)

  /** The recipe of a shot whose controls are fully known. */
  function KnownRecipe(r: ShotRecord): Option<Controls>
  {
    if r.grindObserved && r.doseTarget.Some? && (r.doseObserved || r.doseTargetConfirmed) && r.targetYieldObserved && r.relativeGrind.Some?
    then Some(Controls(Triple(r.relativeGrind.value, r.doseTarget.value, r.targetYield), r.higherIsFiner))
    else None
  }

  /** Only finished shots are taste evidence; ambiguous outcomes are aborted attempts. */
  function PhysicalStatus(r: ShotRecord): Status
  {
    match r.endState
    case Finished | ManualFinished => Valid
    case Failed | Failure | MachineFailed | Errored => MachineFailure
    case Unfamiliar => Aborted
  }

  datatype Reason = NotOptimizable | AlreadyProcessed | ControlsUnknown | NoContext | Converged | FeedbackPending | InvalidAttempt
                  | NotProcessed | NoValidShotLeft | RecipeUnchanged

  datatype Outcome = Outcome(recommendation: Option<Suggestion>, awaiting: bool, reason: Option<Reason>)

  /** The active run of the shot's context, if any, and what the handler returned or raised. */
  datatype Reply = Reply(book: Option<Ledger>, result: Result<Outcome>)

  /** Fresh identifiers, grid steps and the optimizer's selections a handler may need. */
  datatype Aid = Aid(run: RunId, steps: Resolutions, before: Option<Engine.Proposal>, after: Option<Engine.Proposal>)

  function HandleShot(s: Settings, mode: Mode, book: Option<Ledger>, r: ShotRecord, aid: Aid, now: nat): Reply
  {
    if !r.espresso || r.excluded then Reply(book, Ok(Outcome(None, false, Some(NotOptimizable))))
    else if book.Some? && HasShot(book.value.shots, r.id) then
      Reply(book, Ok(Outcome(None, book.value.state.pendingShot == Some(r.id), Some(AlreadyProcessed))))
    else if KnownRecipe(r).None? then Reply(book, Ok(Outcome(None, false, Some(ControlsUnknown))))
    else if !r.hasContext then Reply(book, Ok(Outcome(None, false, Some(NoContext))))
    else
      match ActiveRun(s, mode, book, now)
      case Err(e) => Reply(book, Err(e))
      case Ok(active) => EnterShot(s, mode, active, r, aid, now)
  }

  /** Processes a shot in the active run, creating one around the shot's recipe when there is none. */
  function EnterShot(s: Settings, mode: Mode, active: Option<Ledger>, r: ShotRecord, aid: Aid, now: nat): Reply
    requires KnownRecipe(r).Some?
  {
    match active
    case Some(l) => ProcessShot(s, l, r, aid, now)
    case None =>
      match Initialize(s, aid.run, mode, KnownRecipe(r).value, aid.steps, now)
      case Err(e) => Reply(None, Err(e))
      case Ok(l) => ProcessShot(s, l, r, aid, now)
  }

  /** The run to continue: none when there is none or the current one was retired. */
  function ActiveRun(s: Settings, mode: Mode, book: Option<Ledger>, now: nat): Result<Option<Ledger>>
  {
    if book.None? || !book.value.run.active then Ok(None)
    else
      var l :- CompatibleRun(s, book.value, Some(mode), now);
      Ok(if l.run.active then Some(l) else None)
  }

  function ProcessShot(s: Settings, l: Ledger, r: ShotRecord, aid: Aid, now: nat): Reply
    requires KnownRecipe(r).Some?
  {
    var hasBaseline := l.state.previous.Some?;
    if hasBaseline && l.state.region.locallyConverged then Reply(Some(l), Ok(Outcome(None, false, Some(Reason.Converged))))
    else if hasBaseline && l.state.pendingShot.Some? then Reply(Some(l), Ok(Outcome(None, true, Some(FeedbackPending))))
    else if hasBaseline && l.state.pendingRecipe.None? then
      match SuggestNext(s, l, aid.before, now)
      case Err(e) => Reply(Some(l), Err(e))
      case Ok((ready, _)) => StoreShot(s, ready, r, true, aid, now)
    else StoreShot(s, l, r, hasBaseline, aid, now)
  }

  function StoreShot(s: Settings, l: Ledger, r: ShotRecord, hasBaseline: bool, aid: Aid, now: nat): Reply
    requires KnownRecipe(r).Some?
  {
    match RecordShot(l, ShotReport(r.id, KnownRecipe(r).value, PhysicalStatus(r), r.notes), hasBaseline, now)
    case Err(e) => Reply(Some(l), Err(e))
    case Ok((stored, _)) =>
      if PhysicalStatus(r).Valid? && hasBaseline then Reply(Some(stored), Ok(Outcome(None, true, None)))
      else if !PhysicalStatus(r).Valid? && !hasBaseline then Reply(Some(stored), Ok(Outcome(None, false, Some(InvalidAttempt))))
      else
        match SuggestNext(s, stored, aid.after, now)
        case Err(e) => Reply(Some(stored), Err(e))
        case Ok((suggested, x)) => Reply(Some(suggested), Ok(Outcome(Some(x), false, None)))
  }

  /** An answer: a preference, or an abstention. */
  datatype Answer = Preferred(judgement: Judgement) | Abstained(newShot: ShotId, anchor: ShotId)

  function RecordAnswer(s: Settings, l: Ledger, a: Answer, id: ComparisonId, now: nat): Result<Ledger>
  {
    match a
    case Preferred(j) => RecordPreference(s, l, j, id, now)
    case Abstained(n, anchor) => RecordAbstention(l, n, anchor, now)
  }

  function HandleAnswer(s: Settings, l: Ledger, a: Answer, id: ComparisonId, p: Option<Engine.Proposal>, now: nat): (Ledger, Result<Option<Suggestion>>)
  {
    match RecordAnswer(s, l, a, id, now)
    case Err(e) => (l, Err(e))
    case Ok(m) => AfterAnswering(s, m, p, now)
  }

  /** The next suggestion, unless the run has converged or still awaits an answer. */
  function AfterAnswering(s: Settings, m: Ledger, p: Option<Engine.Proposal>, now: nat): (Ledger, Result<Option<Suggestion>>)
  {
    if m.state.region.locallyConverged || m.state.pendingShot.Some? then (m, Ok(None))
    else
      match SuggestNext(s, m, p, now)
      case Err(e) => (m, Err(e))
      case Ok((n, x)) => (n, Ok(Some(x)))
  }

  /** What an edited canonical shot asks for: exclusion, or the correction of its known controls. */
  datatype Edit = Edit(id: ShotId, excluded: bool, controls: Option<Controls>, notes: map<nat, nat>)

  datatype Handled = Handled(ledger: Ledger, result: Result<Outcome>)

  /** The next suggestion after a rebuilt or resumed state, unless the run has converged. */
  function FollowUp(s: Settings, l: Ledger, p: Option<Engine.Proposal>, now: nat): Handled
  {
    if l.state.region.locallyConverged then Handled(l, Ok(Outcome(None, false, Some(Reason.Converged))))
    else
      match SuggestNext(s, l, p, now)
      case Err(e) => Handled(l, Err(e))
      case Ok((m, x)) => Handled(m, Ok(Outcome(Some(x), false, None)))
  }

  function HandleExclusion(s: Settings, l: Ledger, id: ShotId, p: Option<Engine.Proposal>, now: nat): Handled
    requires HasShot(l.shots, id)
  {
    if FindShot(l.shots, id).value.status.Excluded? then Handled(l, Ok(Outcome(None, false, Some(AlreadyProcessed))))
    else
      match ExcludeShot(s, l, id, now)
      case Err(why) => Handled(l, Err(why))
      case Ok(m) => AfterExclusion(s, m, p, now)
  }

  function AfterExclusion(s: Settings, m: Ledger, p: Option<Engine.Proposal>, now: nat): Handled
  {
    if m.state.previous.None? then Handled(m, Ok(Outcome(None, false, Some(NoValidShotLeft)))) else FollowUp(s, m, p, now)
  }

  function HandleCorrection(s: Settings, l: Ledger, id: ShotId, controls: Controls, notes: map<nat, nat>, p: Option<Engine.Proposal>, now: nat): Handled
  {
    match CorrectShot(s, l, id, controls, notes, now)
    case Err(why) => Handled(l, Err(why))
    case Ok((m, done)) => AfterCorrection(s, m, done, p, now)
  }

  function AfterCorrection(s: Settings, m: Ledger, done: Correction, p: Option<Engine.Proposal>, now: nat): Handled
  {
    if !done.recipeChanged then Handled(m, Ok(Outcome(None, done.awaitingPreference, Some(RecipeUnchanged))))
    else if done.awaitingPreference then Handled(m, Ok(Outcome(None, true, Some(FeedbackPending))))
    else if m.state.previous.None? then Handled(m, Err(UnknownShot))
    else FollowUp(s, m, p, now)
  }

  function HandleEdit(s: Settings, l: Ledger, e: Edit, p: Option<Engine.Proposal>, now: nat): Handled
  {
    if !HasShot(l.shots, e.id) then Handled(l, Ok(Outcome(None, false, Some(NotProcessed))))
    else if e.excluded then HandleExclusion(s, l, e.id, p, now)
    else if e.controls.None? then Handled(l, Ok(Outcome(None, false, Some(ControlsUnknown))))
    else HandleCorrection(s, l, e.id, e.controls.value, e.notes, p, now)
  }

  function HandleControl(s: Settings, l: Ledger, control: ControlId, p: Option<Engine.Proposal>, now: nat): Handled
  {
    match ResumeLocalExploration(s, l, Some(control), now)
    case Err(why) => Handled(l, Err(why))
    case Ok(m) =>
      if m.state.previous.None? then Handled(m, Err(UnknownShot))
      else if PendingSuggestion(m.suggestions).Some? then Handled(m, Ok(Outcome(PendingSuggestion(m.suggestions), false, None)))
      else
        match SuggestNext(s, m, p, now)
        case Err(e) => Handled(m, Err(e))
        case Ok((n, x)) => Handled(n, Ok(Outcome(Some(x), false, None)))
  }

  // ----- what the handlers guarantee -----

  /** A previous shot is recorded exactly when an incumbent is, and exactly when some stored shot is valid. */
  lemma BaselineIsRecorded(l: Ledger)
    requires Inv(l)
    ensures l.state.previous.Some? <==> l.state.incumbent.Some?
    ensures l.state.previous.Some? <==> SomeValid(l.shots)
    ensures l.state.previous.Some? <==> Baseline(l.shots).Some?
  {
    BaselineIsFirst(l.shots);
  }

  /** The errors that would mean the bridge misused the service. */
  predicate Misuse(e: Refusal) { e in {NoPendingSuggestion, PreferenceDue, Refusal.SuggestionMissing, SuggestionOpen, SuggestionMismatch} }

  /** Exactly one suggestion is open. */
  ghost predicate OneOpen(l: Ledger)
  {
    exists k: nat :: IsOpen(l, k) && forall i: nat :: IsOpen(l, i) ==> i == k
  }

  /** The states in which a processed shot may leave a run. */
  ghost predicate AtRest(l: Ledger)
  {
    || Baseline(l.shots).None?
    || l.state.region.locallyConverged
    || (l.state.pendingShot.Some? && OneOpen(l))
    || (l.state.pendingShot.None? && OneOpen(l))
  }

  lemma PendingMeansOneOpen(l: Ledger)
    requires Inv(l) && l.state.pendingRecipe.Some?
    ensures OneOpen(l)
  {
    var k := OpenRow(l);
  }

  lemma SuggestedIsAtRest(s: Settings, l: Ledger, p: Option<Engine.Proposal>, now: nat)
    requires Inv(l) && SuggestNext(s, l, p, now).Ok?
    ensures var m := SuggestNext(s, l, p, now).value.0;
      Inv(m) && OneOpen(m) && m.state.pendingRecipe.Some? && m.state.pendingShot.None? && m.shots == l.shots && m.run == l.run
  {
    SuggestKeeps(s, l, p, now);
    SuggestionParts(s, l, p, now);
    PendingMeansOneOpen(SuggestNext(s, l, p, now).value.0);
  }

  lemma SuggestErrors(s: Settings, l: Ledger, p: Option<Engine.Proposal>, now: nat)
    requires Inv(l) && l.state.pendingShot.None? && SuggestNext(s, l, p, now).Err?
    ensures !Misuse(SuggestNext(s, l, p, now).why)
  {
    if l.state.pendingRecipe.Some? {
      var k := OpenRow(l);
    } else {
      NoOpenRow(l);
      var made := Engine.Suggest(s.configuration, l, p, now);
      if made.Err? {
        EngineErrors(s.configuration, l, p, now);
      } else {
        SaveErrors(l, made.value, now);
      }
    }
  }

  lemma SaveErrors(l: Ledger, made: Engine.Computation, now: nat)
    requires PendingSuggestion(l.suggestions).None?
    ensures var r := SaveSuggestion(l, made.suggestion, StateWithSuggestion(l.state, made, now)); r.Err? ==> !Misuse(r.why)
  {
  }

  lemma EngineErrors(configuration: nat, l: Ledger, p: Option<Engine.Proposal>, now: nat)
    requires l.state.pendingRecipe.None? && Engine.Suggest(configuration, l, p, now).Err?
    ensures !Misuse(Engine.Suggest(configuration, l, p, now).why)
  {
    if Engine.ValidateRunData(l).Err? {
      ValidationErrors(l);
    }
  }

  lemma ValidationErrors(l: Ledger)
    requires Engine.ValidateRunData(l).Err?
    ensures !Misuse(Engine.ValidateRunData(l).why)
  {
    if Baseline(l.shots).Some? {
      var base := Baseline(l.shots).value;
      HistoryErrors(l.run.id, Engine.ShotById(l.shots), l.comparisons, 0, base, base, {});
    }
  }

  lemma {:induction false} HistoryErrors(run: RunId, shots: map<ShotId, Shot>, cs: seq<Comparison>, i: nat, previous: ShotId, incumbent: ShotId, seen: set<ShotId>)
    requires i <= |cs|
    ensures var r := Engine.ValidateHistory(run, shots, cs, i, previous, incumbent, seen); r.Err? ==> r.why == BadHistory
    decreases |cs| - i
  {
    if i < |cs| {
      var c := cs[i];
      HistoryErrors(run, shots, cs, i + 1, c.newShot, if c.anchor == incumbent && c.preference.NewBetter? then c.newShot else incumbent, seen + {c.newShot});
    }
  }

  /** Recording a shot with the bridge's own precautions never meets a misuse. */
  lemma RecordErrors(l: Ledger, r: Service.ShotReport, hasBaseline: bool, now: nat)
    requires Inv(l) && RecordShot(l, r, hasBaseline, now).Err?
    requires hasBaseline == Baseline(l.shots).Some? && (hasBaseline ==> l.state.pendingRecipe.Some? && l.state.pendingShot.None?)
    ensures !Misuse(RecordShot(l, r, hasBaseline, now).why)
  {
    if hasBaseline {
      var k := OpenRow(l);
    }
    if recipe: RecipePoint :| CanonicalRecipe(l.run, r.controls, now) == Ok(recipe) {
      var shot := Shot(r.id, recipe.id, |l.shots| + 1, r.status, Some(recipe.controls), None, r.notes);
      StoreShotErrors(l, recipe, shot, StateWithShot(l.state, hasBaseline, shot, recipe, now));
    }
  }

  lemma StoreShotErrors(l: Ledger, recipe: RecipePoint, shot: Shot, state: OptimizerState)
    requires Latest(l.suggestions, {Pending}).Some? || state.pendingShot.None?
    ensures var r := SaveShot(l, recipe, shot, state); r.Err? ==> !Misuse(r.why)
  {
  }

  lemma StoreIsSafe(s: Settings, l: Ledger, r: ShotRecord, hasBaseline: bool, aid: Aid, now: nat)
    requires Inv(l) && KnownRecipe(r).Some? && hasBaseline == Baseline(l.shots).Some?
    requires hasBaseline ==> l.state.pendingRecipe.Some? && l.state.pendingShot.None?
    ensures var reply := StoreShot(s, l, r, hasBaseline, aid, now);
      && reply.book.Some? && Inv(reply.book.value)
      && (reply.result.Err? ==> !Misuse(reply.result.why))
      && (reply.result.Ok? ==> AtRest(reply.book.value) && HasShot(reply.book.value.shots, r.id))
  {
    var report := ShotReport(r.id, KnownRecipe(r).value, PhysicalStatus(r), r.notes);
    var recorded := RecordShot(l, report, hasBaseline, now);
    if recorded.Err? {
      RecordErrors(l, report, hasBaseline, now);
    } else {
      var stored := recorded.value.0;
      ShotKeeps(l, report, hasBaseline, now);
      StoredShot(l, report, hasBaseline, now);
      if PhysicalStatus(r).Valid? && hasBaseline {
        PendingMeansOneOpen(stored);
      } else if PhysicalStatus(r).Valid? || hasBaseline {
        AfterStore(s, stored, aid.after, now);
        if SuggestNext(s, stored, aid.after, now).Ok? {
          assert HasShot(SuggestNext(s, stored, aid.after, now).value.0.shots, r.id);
        }
      }
    }
  }

  lemma StoredShot(l: Ledger, r: Service.ShotReport, hasBaseline: bool, now: nat)
    requires Inv(l) && RecordShot(l, r, hasBaseline, now).Ok? && hasBaseline == Baseline(l.shots).Some?
    ensures var m := RecordShot(l, r, hasBaseline, now).value.0;
      && HasShot(m.shots, r.id)
      && (r.status.Valid? && hasBaseline ==> m.state.pendingShot == Some(r.id) && m.state.pendingRecipe.Some?)
      && (!(r.status.Valid? && hasBaseline) ==> m.state.pendingShot.None?)
      && (!r.status.Valid? && !hasBaseline ==> Baseline(m.shots).None?)
  {
    RecordedParts(l, r, hasBaseline, now);
    var (m, shot) := RecordShot(l, r, hasBaseline, now).value;
    AppendShot(l.shots, shot);
    assert m.shots[|l.shots|].id == r.id;
    if !hasBaseline {
      NoOpenRow(l);
    }
  }

  lemma AfterStore(s: Settings, l: Ledger, p: Option<Engine.Proposal>, now: nat)
    requires Inv(l) && l.state.pendingShot.None?
    ensures SuggestNext(s, l, p, now).Err? ==> !Misuse(SuggestNext(s, l, p, now).why)
    ensures SuggestNext(s, l, p, now).Ok? ==>
      var m := SuggestNext(s, l, p, now).value.0; Inv(m) && AtRest(m) && m.shots == l.shots
  {
    if SuggestNext(s, l, p, now).Ok? {
      SuggestedIsAtRest(s, l, p, now);
    } else {
      SuggestErrors(s, l, p, now);
    }
  }

  lemma ProcessIsSafe(s: Settings, l: Ledger, r: ShotRecord, aid: Aid, now: nat)
    requires Inv(l) && KnownRecipe(r).Some?
    ensures var reply := ProcessShot(s, l, r, aid, now);
      && reply.book.Some? && Inv(reply.book.value)
      && (reply.result.Err? ==> !Misuse(reply.result.why))
      && (reply.result.Ok? ==> AtRest(reply.book.value))
  {
    BaselineIsRecorded(l);
    var hasBaseline := l.state.previous.Some?;
    if hasBaseline && !l.state.region.locallyConverged && l.state.pendingShot.None? {
      if l.state.pendingRecipe.None? {
        AfterStore(s, l, aid.before, now);
        if SuggestNext(s, l, aid.before, now).Ok? {
          SuggestedIsAtRest(s, l, aid.before, now);
          StoreIsSafe(s, SuggestNext(s, l, aid.before, now).value.0, r, true, aid, now);
        }
      } else {
        StoreIsSafe(s, l, r, true, aid, now);
      }
    } else if !hasBaseline {
      StoreIsSafe(s, l, r, false, aid, now);
    } else if l.state.pendingShot.Some? {
      PendingMeansOneOpen(l);
    }
  }

  lemma {:induction false} ReplayErrors(s: Schedule, centers: map<ShotId, Option<Point>>, markers: Markers, start: Replayed, cs: seq<Comparison>)
    ensures var r := Replay(s, centers, markers, start, cs); r.Err? ==> !Misuse(r.why)
  {
    if cs != [] {
      ReplayErrors(s, centers, markers, start, cs[..|cs| - 1]);
      var r := Replay(s, centers, markers, start, cs[..|cs| - 1]);
      if r.Ok? {
        ReplayStepErrors(s, centers, markers, r.value, cs[|cs| - 1]);
      }
    }
  }

  lemma ReplayStepErrors(s: Schedule, centers: map<ShotId, Option<Point>>, markers: Markers, r: Replayed, c: Comparison)
    ensures var step := ReplayStep(s, centers, markers, r, c); step.Err? ==> !Misuse(step.why)
  {
  }

  lemma RebuildErrors(s: Settings, state: OptimizerState, shots: seq<Shot>, rows: RecipeRows, cs: seq<Comparison>, keep: bool, now: nat)
    ensures var r := RebuildState(s, state, shots, rows, cs, keep, now); r.Err? ==> !Misuse(r.why)
  {
    if base :| Baseline(shots) == Some(base) {
      var centers := Centers(shots, rows);
      if base in centers && centers[base].Some? {
        ReplayErrors(s.schedule, centers, MarkersOf(state.region.transitions), StartAt(s.schedule, base, centers[base].value), cs);
      }
    }
  }

  lemma {:induction false} RebaseErrors(space: Space, t: RecipeTable, shots: seq<Shot>)
    ensures var r := RebaseShots(space, t, shots); r.Err? ==> !Misuse(r.why)
  {
    if shots != [] {
      RebaseErrors(space, t, shots[..|shots| - 1]);
    }
  }

  lemma {:induction false} InsertErrors(t: RecipeTable, rs: seq<RecipePoint>)
    ensures var r := InsertRecipes(t, rs); r.Err? ==> !Misuse(r.why)
  {
    if rs != [] {
      InsertErrors(t, rs[..|rs| - 1]);
    }
  }

  lemma CheckErrors(l: Ledger, run: Run, recipes: seq<RecipePoint>, shots: seq<Shot>, state: OptimizerState)
    ensures var r := CheckMigration(l, run, recipes, shots, state); r.Err? ==> !Misuse(r.why)
  {
  }

  lemma CommitErrors(l: Ledger, run: Run, recipes: seq<RecipePoint>, shots: seq<Shot>, state: OptimizerState)
    ensures var r := Migrate(l, run, recipes, shots, state); r.Err? ==> !Misuse(r.why)
  {
    CheckErrors(l, run, recipes, shots, state);
    InsertErrors(l.table, recipes);
  }

  lemma MigrateErrors(s: Settings, l: Ledger, mode: Mode, now: nat)
    ensures var r := MigrateRun(s, l, mode, now); r.Err? ==> !Misuse(r.why)
  {
    var space := WithDomain(l.run.space, s.domain);
    if space.Ok? {
      RebaseErrors(space.value, l.table, l.shots);
      var rebased := RebaseShots(space.value, l.table, l.shots);
      if rebased.Ok? {
        var rebuilt := RebuildState(s, l.state, rebased.value.shots, RowsOf(rebased.value.recipes), l.comparisons, false, now);
        RebuildErrors(s, l.state, rebased.value.shots, RowsOf(rebased.value.recipes), l.comparisons, false, now);
        if rebuilt.Ok? {
          CommitErrors(l, l.run.(mode := mode, space := space.value, configuration := s.configuration), rebased.value.recipes, rebased.value.shots,
                       ClearPending(rebuilt.value).(seed := s.seed, configuration := s.configuration, updatedAt := now));
        }
      }
    }
  }

  /** Bringing a run in line with the settings never meets a misuse. */
  lemma ActiveRunErrors(s: Settings, mode: Mode, book: Option<Ledger>, now: nat)
    ensures var r := ActiveRun(s, mode, book, now); r.Err? ==> !Misuse(r.why)
  {
    if book.Some? && FitOf(s, book.value, Some(mode)).Migrated? {
      MigrateErrors(s, book.value, mode, now);
    }
  }

  /** Whatever shot arrives in whatever state: the service's pending-suggestion errors are never reached, and a shot that is
      processed leaves the run without a baseline, converged, awaiting one preference, or with exactly one open suggestion. */
  lemma HandleShotIsSafe(s: Settings, mode: Mode, book: Option<Ledger>, r: ShotRecord, aid: Aid, now: nat)
    requires book.Some? ==> Inv(book.value)
    ensures var reply := HandleShot(s, mode, book, r, aid, now);
      && (reply.book.Some? ==> Inv(reply.book.value))
      && (reply.result.Err? ==> !Misuse(reply.result.why))
      && (reply.result.Ok? && reply.result.value.reason !in {Some(NotOptimizable), Some(AlreadyProcessed), Some(ControlsUnknown), Some(NoContext)} ==>
            reply.book.Some? && AtRest(reply.book.value))
  {
    if r.espresso && !r.excluded && !(book.Some? && HasShot(book.value.shots, r.id)) && KnownRecipe(r).Some? && r.hasContext {
      var active := ActiveRun(s, mode, book, now);
      ActiveRunErrors(s, mode, book, now);
      if active.Ok? {
        if active.value.Some? {
          CompatibleKeeps(s, book.value, Some(mode), now);
        }
        EnterShotIsSafe(s, mode, active.value, r, aid, now);
      }
    }
  }

  lemma EnterShotIsSafe(s: Settings, mode: Mode, active: Option<Ledger>, r: ShotRecord, aid: Aid, now: nat)
    requires KnownRecipe(r).Some? && (active.Some? ==> Inv(active.value))
    ensures var reply := EnterShot(s, mode, active, r, aid, now);
      && (reply.book.Some? ==> Inv(reply.book.value))
      && (reply.result.Err? ==> !Misuse(reply.result.why))
      && (reply.result.Ok? ==> reply.book.Some? && AtRest(reply.book.value))
  {
    if active.Some? {
      ProcessIsSafe(s, active.value, r, aid, now);
    } else {
      var created := Initialize(s, aid.run, mode, KnownRecipe(r).value, aid.steps, now);
      if created.Ok? {
        InitializeEstablishes(s, aid.run, mode, KnownRecipe(r).value, aid.steps, now);
        ProcessIsSafe(s, created.value, r, aid, now);
      }
    }
  }

  /** A shot that is already stored writes nothing. */
  lemma KnownShotWritesNothing(s: Settings, mode: Mode, l: Ledger, r: ShotRecord, aid: Aid, now: nat)
    requires HasShot(l.shots, r.id)
    ensures var reply := HandleShot(s, mode, Some(l), r, aid, now);
      reply.book == Some(l) && reply.result.Ok? && reply.result.value.reason in {Some(NotOptimizable), Some(AlreadyProcessed)}
  {
  }

  lemma AnswerKeeps(s: Settings, l: Ledger, a: Answer, id: ComparisonId, now: nat)
    requires Inv(l) && KeyFollows(l, id, now) && RecordAnswer(s, l, a, id, now).Ok?
    ensures Inv(RecordAnswer(s, l, a, id, now).value)
  {
    match a
    case Preferred(j) => PreferenceKeeps(s, l, j, id, now);
    case Abstained(n, anchor) => AbstentionKeeps(l, n, anchor, now);
  }

  lemma AbstainErrors(l: Ledger, newShot: ShotId, anchor: ShotId, now: nat)
    ensures var r := RecordAbstention(l, newShot, anchor, now); r.Err? ==> !Misuse(r.why)
  {
  }

  /** A judgement never misses the suggestion it answers. */
  lemma JudgeErrors(s: Settings, l: Ledger, j: Judgement, id: ComparisonId, now: nat)
    requires SuggestionsAgree(l)
    ensures var r := RecordPreference(s, l, j, id, now); r.Err? ==> !Misuse(r.why)
  {
    if l.state.pendingShot == Some(j.newShot) && HasShot(l.shots, j.newShot) && FindShot(l.shots, j.newShot).value.recipe in l.table.rows {
      var k := OpenRow(l);
      var c := Comparison(id, l.run.id, j.newShot, j.anchor, j.preference, l.suggestions[k].suggestion.mode, now);
      UpdateErrors(s, l.state, c, l.table.rows[FindShot(l.shots, j.newShot).value.recipe].position, now);
      var state := StateWithComparison(s, l.state, c, l.table.rows[FindShot(l.shots, j.newShot).value.recipe].position, now);
      if state.Ok? {
        StoreErrors(l, c, state.value);
      }
    }
  }

  lemma UpdateErrors(s: Settings, state: OptimizerState, c: Comparison, position: Point, now: nat)
    ensures var r := StateWithComparison(s, state, c, position, now); r.Err? ==> !Misuse(r.why)
  {
  }

  lemma StoreErrors(l: Ledger, c: Comparison, state: OptimizerState)
    requires Latest(l.suggestions, {AwaitingPreference}).Some?
    ensures var r := SaveComparison(l, c, state); r.Err? ==> !Misuse(r.why)
  {
  }

  /** An answer is refused without touching the rows; an accepted one leaves the run converged, awaiting or with exactly one open
      suggestion, the one returned. Neither ever meets a misuse. */
  lemma HandleAnswerIsSafe(s: Settings, l: Ledger, a: Answer, id: ComparisonId, p: Option<Engine.Proposal>, now: nat)
    requires Inv(l) && KeyFollows(l, id, now)
    ensures var (m, r) := HandleAnswer(s, l, a, id, p, now);
      && Inv(m) && (r.Ok? ==> AtRest(m)) && (r.Err? ==> !Misuse(r.why))
      && (RecordAnswer(s, l, a, id, now).Err? ==> m == l)
      && (r.Ok? && r.value.Some? ==> m.state.pendingRecipe == Some(r.value.value.recipe.id) && m.state.pendingAnchor == Some(r.value.value.anchor))
  {
    var recorded := RecordAnswer(s, l, a, id, now);
    if recorded.Ok? {
      AnswerKeeps(s, l, a, id, now);
      AfterAnswer(s, recorded.value, p, now);
    } else {
      AnswerErrors(s, l, a, id, now);
    }
  }

  lemma AnswerErrors(s: Settings, l: Ledger, a: Answer, id: ComparisonId, now: nat)
    requires Inv(l)
    ensures var r := RecordAnswer(s, l, a, id, now); r.Err? ==> !Misuse(r.why)
  {
    match a
    case Preferred(j) => JudgeErrors(s, l, j, id, now);
    case Abstained(n, anchor) => AbstainErrors(l, n, anchor, now);
  }

  lemma AfterAnswer(s: Settings, m: Ledger, p: Option<Engine.Proposal>, now: nat)
    requires Inv(m)
    ensures m.state.region.locallyConverged || m.state.pendingShot.Some? ==> AtRest(m)
    ensures m.state.pendingShot.None? && SuggestNext(s, m, p, now).Err? ==> !Misuse(SuggestNext(s, m, p, now).why)
    ensures SuggestNext(s, m, p, now).Ok? ==>
      var (n, x) := SuggestNext(s, m, p, now).value;
      Inv(n) && AtRest(n) && n.state.pendingRecipe == Some(x.recipe.id) && n.state.pendingAnchor == Some(x.anchor)
  {
    if m.state.pendingShot.Some? {
      PendingMeansOneOpen(m);
    }
    if SuggestNext(s, m, p, now).Ok? {
      SuggestedIsAtRest(s, m, p, now);
      SuggestionNamesPending(s, m, p, now);
    } else if m.state.pendingShot.None? {
      SuggestErrors(s, m, p, now);
    }
  }

  lemma SuggestionNamesPending(s: Settings, l: Ledger, p: Option<Engine.Proposal>, now: nat)
    requires Inv(l) && SuggestNext(s, l, p, now).Ok?
    ensures var (m, x) := SuggestNext(s, l, p, now).value;
      m.state.pendingRecipe == Some(x.recipe.id) && m.state.pendingAnchor == Some(x.anchor)
  {
    SuggestionParts(s, l, p, now);
    if l.state.pendingRecipe.Some? {
      var k := OpenRow(l);
    }
  }

  lemma FollowUpIsSafe(s: Settings, l: Ledger, p: Option<Engine.Proposal>, now: nat)
    requires Inv(l) && l.state.pendingShot.None?
    ensures var h := FollowUp(s, l, p, now);
      Inv(h.ledger) && (h.result.Ok? ==> AtRest(h.ledger)) && (h.result.Err? ==> h.ledger == l && !Misuse(h.result.why))
  {
    if !l.state.region.locallyConverged {
      AfterStore(s, l, p, now);
    }
  }

  /** What a handled edit promises: never a misuse, at rest unless nothing was to be done, and an awaited comparison is still awaited. */
  ghost predicate EditSafe(l: Ledger, h: Handled)
  {
    && Inv(h.ledger)
    && (h.result.Err? ==> !Misuse(h.result.why))
    && (h.result.Ok? && h.result.value.reason !in {Some(NotProcessed), Some(AlreadyProcessed), Some(ControlsUnknown), Some(RecipeUnchanged)} ==> AtRest(h.ledger))
    && (h.result.Ok? && h.result.value.awaiting ==> h.ledger.state.pendingShot == l.state.pendingShot && l.state.pendingShot.Some?)
  }

  /** An edit that is processed leaves the run at rest: rebuilt, with the stale suggestion replaced or the comparison still awaited. */
  lemma HandleEditIsSafe(s: Settings, l: Ledger, e: Edit, p: Option<Engine.Proposal>, now: nat)
    requires Inv(l)
    ensures EditSafe(l, HandleEdit(s, l, e, p, now))
  {
    if HasShot(l.shots, e.id) {
      if e.excluded {
        HandleExclusionIsSafe(s, l, e.id, p, now);
      } else if e.controls.Some? {
        HandleCorrectionIsSafe(s, l, e.id, e.controls.value, e.notes, p, now);
      }
    }
  }

  lemma ExcludeErrors(s: Settings, l: Ledger, id: ShotId, now: nat)
    ensures var r := ExcludeShot(s, l, id, now); r.Err? ==> !Misuse(r.why)
  {
    var stored := FindShot(l.shots, id);
    if stored.Some? {
      var shot := stored.value.(status := Excluded);
      var shots := Substitute(l.shots, shot);
      CollectErrors(l.table, map[], shots, None);
      var rows := CollectRecipes(l.table, map[], shots, None);
      if rows.Ok? {
        RebuildErrors(s, l.state, shots, rows.value, RetainedHistory(l.run.id, shots, l.comparisons), false, now);
      }
    }
  }

  lemma {:induction false} CollectErrors(t: RecipeTable, start: RecipeRows, shots: seq<Shot>, except: Option<ShotId>)
    ensures var r := CollectRecipes(t, start, shots, except); r.Err? ==> !Misuse(r.why)
  {
    if shots != [] {
      CollectErrors(t, start, shots[..|shots| - 1], except);
    }
  }

  lemma CorrectErrors(s: Settings, l: Ledger, id: ShotId, controls: Controls, notes: map<nat, nat>, now: nat)
    ensures var r := CorrectShot(s, l, id, controls, notes, now); r.Err? ==> !Misuse(r.why)
  {
    var stored := FindShot(l.shots, id);
    if stored.Some? && stored.value.recipe in l.table.rows {
      var recipe := ObservationRecipe(l.run, controls, l.table.rows[stored.value.recipe].createdAt);
      if recipe.Ok? {
        var shot := stored.value.(recipe := recipe.value.id, observed := Some(controls.recipe), notes := stored.value.notes + notes);
        var shots := Substitute(l.shots, shot);
        CollectErrors(l.table, map[recipe.value.id := recipe.value], shots, Some(id));
        var rows := CollectRecipes(l.table, map[recipe.value.id := recipe.value], shots, Some(id));
        if rows.Ok? {
          RebuildErrors(s, l.state, shots, rows.value, l.comparisons, true, now);
        }
      }
    }
  }

  lemma HandleExclusionIsSafe(s: Settings, l: Ledger, id: ShotId, p: Option<Engine.Proposal>, now: nat)
    requires Inv(l) && HasShot(l.shots, id)
    ensures EditSafe(l, HandleExclusion(s, l, id, p, now))
  {
    ExcludeErrors(s, l, id, now);
    if !FindShot(l.shots, id).value.status.Excluded? && ExcludeShot(s, l, id, now).Ok? {
      ExclusionKeeps(s, l, id, now);
      ExcludedIsClear(s, l, id, now);
      AfterExclusionIsSafe(s, l, ExcludeShot(s, l, id, now).value, p, now);
    }
  }

  lemma AfterExclusionIsSafe(s: Settings, l: Ledger, m: Ledger, p: Option<Engine.Proposal>, now: nat)
    requires Inv(m) && m.state.pendingShot.None?
    ensures EditSafe(l, AfterExclusion(s, m, p, now))
  {
    BaselineIsRecorded(m);
    FollowUpIsSafe(s, m, p, now);
  }

  lemma ExcludedIsClear(s: Settings, l: Ledger, id: ShotId, now: nat)
    requires Inv(l) && ExcludeShot(s, l, id, now).Ok? && !FindShot(l.shots, id).value.status.Excluded?
    ensures ExcludeShot(s, l, id, now).value.state.pendingShot.None?
  {
    var i, rows := ExclusionParts(s, l, id, now);
  }

  lemma HandleCorrectionIsSafe(s: Settings, l: Ledger, id: ShotId, controls: Controls, notes: map<nat, nat>, p: Option<Engine.Proposal>, now: nat)
    requires Inv(l)
    ensures EditSafe(l, HandleCorrection(s, l, id, controls, notes, p, now))
  {
    CorrectErrors(s, l, id, controls, notes, now);
    if CorrectShot(s, l, id, controls, notes, now).Ok? {
      CorrectionKeeps(s, l, id, controls, notes, now);
      CorrectedAwaits(s, l, id, controls, notes, now);
      var (m, done) := CorrectShot(s, l, id, controls, notes, now).value;
      AfterCorrectionIsSafe(s, l, m, done, p, now);
    }
  }

  lemma AfterCorrectionIsSafe(s: Settings, l: Ledger, m: Ledger, done: Correction, p: Option<Engine.Proposal>, now: nat)
    requires Inv(m) && (done.awaitingPreference <==> l.state.pendingShot.Some?) && m.state.pendingShot == l.state.pendingShot
    ensures EditSafe(l, AfterCorrection(s, m, done, p, now))
  {
    if m.state.pendingShot.Some? {
      PendingMeansOneOpen(m);
    } else {
      FollowUpIsSafe(s, m, p, now);
    }
  }

  lemma CorrectedAwaits(s: Settings, l: Ledger, id: ShotId, controls: Controls, notes: map<nat, nat>, now: nat)
    requires Inv(l) && CorrectShot(s, l, id, controls, notes, now).Ok?
    ensures var (m, done) := CorrectShot(s, l, id, controls, notes, now).value;
      (done.awaitingPreference <==> l.state.pendingShot.Some?) && m.state.pendingShot == l.state.pendingShot
  {
    CorrectionIsPreferenceNeutral(s, l, id, controls, notes, now);
    CorrectFrame(s, l, id, controls, notes, now);
  }

  lemma ResumeErrors(s: Settings, l: Ledger, control: Option<ControlId>, now: nat)
    ensures var r := ResumeLocalExploration(s, l, control, now); r.Err? ==> !Misuse(r.why)
  {
  }

  /** A resume request never meets a misuse, and one that is accepted leaves exactly one open suggestion, the one it returns. */
  lemma HandleControlIsSafe(s: Settings, l: Ledger, control: ControlId, p: Option<Engine.Proposal>, now: nat)
    requires Inv(l)
    ensures var h := HandleControl(s, l, control, p, now);
      && Inv(h.ledger)
      && (h.result.Err? ==> !Misuse(h.result.why))
      && (h.result.Ok? ==>
            && OneOpen(h.ledger) && h.result.value.recommendation.Some?
            && h.ledger.state.pendingRecipe == Some(h.result.value.recommendation.value.recipe.id))
  {
    ResumeErrors(s, l, Some(control), now);
    if ResumeLocalExploration(s, l, Some(control), now).Ok? {
      ResumeKeeps(s, l, Some(control), now);
      var m := ResumeLocalExploration(s, l, Some(control), now).value;
      if m.state.pendingRecipe.Some? {
        var k := OpenRow(m);
        PendingMeansOneOpen(m);
      } else {
        NoOpenRow(m);
        AfterAnswer(s, m, p, now);
        if SuggestNext(s, m, p, now).Ok? {
          SuggestedIsAtRest(s, m, p, now);
        }
      }
    }
  }
}
