/** What machines and users send to the bridge while settings and mode stay as they are, and what no visit takes back. */
module Visits {
  import opened Prelude
  import opened RecipeSpace
  import opened RecipeLaws
  import opened Cpbo
  import opened History
  import opened HistoryLaws
  import opened Ledgers
  import opened Service
  import opened Invariants
  import opened Frames
  import opened Bridge
  import Engine

  /** A shot, an answer, an edit of a shot - a correction or an exclusion - or a request to resume. */
  datatype Visit =
    | NewShot(record: ShotRecord, aid: Aid, now: nat)
    | NewAnswer(answer: Answer, id: ComparisonId, proposal: Option<Engine.Proposal>, now: nat)
    | Amendment(edit: Edit, proposal: Option<Engine.Proposal>, now: nat)
    | ResumeRequest(control: ControlId, proposal: Option<Engine.Proposal>, now: nat)

  /** The rows after a visit. */
  function After(s: Settings, mode: Mode, book: Option<Ledger>, v: Visit): Option<Ledger>
  {
    if v.NewShot? then HandleShot(s, mode, book, v.record, v.aid, v.now).book
    else if book.None? then None
    else
      match v
      case NewAnswer(a, id, p, now) => Some(HandleAnswer(s, book.value, a, id, p, now).0)
      case Amendment(e, p, now) => Some(HandleEdit(s, book.value, e, p, now).ledger)
      case ResumeRequest(control, p, now) => Some(HandleControl(s, book.value, control, p, now).ledger)
  }

  /** The suggestion a visit is answered with, if any. */
  function Recommended(s: Settings, mode: Mode, l: Ledger, v: Visit): Option<Suggestion>
  {
    match v
    case NewShot(r, aid, now) => RecommendedBy(HandleShot(s, mode, Some(l), r, aid, now).result)
    case NewAnswer(a, id, p, now) => if HandleAnswer(s, l, a, id, p, now).1.Ok? then HandleAnswer(s, l, a, id, p, now).1.value else None
    case Amendment(e, p, now) => RecommendedBy(HandleEdit(s, l, e, p, now).result)
    case ResumeRequest(control, p, now) => RecommendedBy(HandleControl(s, l, control, p, now).result)
  }

  function RecommendedBy(r: Result<Outcome>): Option<Suggestion> { if r.Ok? then r.value.recommendation else None }

  function AfterAll(s: Settings, mode: Mode, book: Option<Ledger>, vs: seq<Visit>): Option<Ledger>
  {
    if vs == [] then book else After(s, mode, AfterAll(s, mode, book, vs[..|vs| - 1]), vs[|vs| - 1])
  }

  /** The environment, as in whole runs. */
  predicate Admitted(book: Option<Ledger>, v: Visit)
  {
    && (v.NewAnswer? && v.answer.Preferred? && book.Some? ==> KeyFollows(book.value, v.id, v.now))
    && (v.ResumeRequest? ==> v.now > 0)
  }

  predicate AllAdmitted(s: Settings, mode: Mode, book: Option<Ledger>, vs: seq<Visit>)
  {
    vs != [] ==>
      && AllAdmitted(s, mode, book, vs[..|vs| - 1])
      && Admitted(AfterAll(s, mode, book, vs[..|vs| - 1]), vs[|vs| - 1])
  }

  lemma OneMore(s: Settings, mode: Mode, book: Option<Ledger>, vs: seq<Visit>, v: Visit)
    requires AllAdmitted(s, mode, book, vs) && Admitted(AfterAll(s, mode, book, vs), v)
    ensures AllAdmitted(s, mode, book, vs + [v]) && AfterAll(s, mode, book, vs + [v]) == After(s, mode, AfterAll(s, mode, book, vs), v)
  {
    assert (vs + [v])[..|vs|] == vs;
  }

  /** The run is active and was made with these settings. */
  predicate InLine(s: Settings, mode: Mode, l: Ledger) { l.run.active && MatchesConfiguration(s, l.run, Some(mode)) }

  // ----- no visit takes a shot back -----

  /** The same run with the same shots in the same order, and possibly more. */
  predicate Continues(l: Ledger, m: Ledger)
  {
    m.run == l.run && |l.shots| <= |m.shots| && forall i :: 0 <= i < |l.shots| ==> m.shots[i].id == l.shots[i].id
  }

  lemma StoringContinues(s: Settings, l: Ledger, r: ShotRecord, hasBaseline: bool, aid: Aid, now: nat)
    requires Inv(l) && KnownRecipe(r).Some?
    ensures var reply := StoreShot(s, l, r, hasBaseline, aid, now); reply.book.Some? && Continues(l, reply.book.value)
  {
    var report := ShotReport(r.id, KnownRecipe(r).value, PhysicalStatus(r), r.notes);
    if RecordShot(l, report, hasBaseline, now).Ok? {
      ReportFrame(l, report, hasBaseline, now);
      ShotKeeps(l, report, hasBaseline, now);
      var stored := RecordShot(l, report, hasBaseline, now).value.0;
      if SuggestNext(s, stored, aid.after, now).Ok? {
        SuggestFrame(s, stored, aid.after, now);
      }
    }
  }

  lemma ProcessingContinues(s: Settings, l: Ledger, r: ShotRecord, aid: Aid, now: nat)
    requires Inv(l) && KnownRecipe(r).Some?
    ensures var reply := ProcessShot(s, l, r, aid, now); reply.book.Some? && Continues(l, reply.book.value)
  {
    if l.state.previous.Some? && l.state.pendingRecipe.None? {
      if SuggestNext(s, l, aid.before, now).Ok? {
        SuggestKeeps(s, l, aid.before, now);
        SuggestFrame(s, l, aid.before, now);
        StoringContinues(s, SuggestNext(s, l, aid.before, now).value.0, r, true, aid, now);
      }
    } else {
      StoringContinues(s, l, r, l.state.previous.Some?, aid, now);
    }
  }

  lemma InLineIsMet(s: Settings, mode: Mode, l: Ledger, now: nat)
    requires InLine(s, mode, l)
    ensures ActiveRun(s, mode, Some(l), now) == Ok(Some(l))
  {
  }

  lemma ShotContinues(s: Settings, mode: Mode, l: Ledger, r: ShotRecord, aid: Aid, now: nat)
    requires Inv(l) && InLine(s, mode, l)
    ensures var reply := HandleShot(s, mode, Some(l), r, aid, now); reply.book.Some? && Inv(reply.book.value) && Continues(l, reply.book.value)
  {
    HandleShotIsSafe(s, mode, Some(l), r, aid, now);
    InLineIsMet(s, mode, l, now);
    if KnownRecipe(r).Some? {
      ProcessingContinues(s, l, r, aid, now);
    }
  }

  lemma SuggestingContinues(s: Settings, l: Ledger, p: Option<Engine.Proposal>, now: nat)
    requires Inv(l)
    ensures SuggestNext(s, l, p, now).Ok? ==> Inv(SuggestNext(s, l, p, now).value.0) && Continues(l, SuggestNext(s, l, p, now).value.0)
  {
    if SuggestNext(s, l, p, now).Ok? {
      SuggestKeeps(s, l, p, now);
      SuggestFrame(s, l, p, now);
    }
  }

  lemma RecordedContinues(s: Settings, l: Ledger, a: Answer, id: ComparisonId, now: nat)
    requires Inv(l) && (a.Preferred? ==> KeyFollows(l, id, now)) && RecordAnswer(s, l, a, id, now).Ok?
    ensures Inv(RecordAnswer(s, l, a, id, now).value) && Continues(l, RecordAnswer(s, l, a, id, now).value)
  {
    match a
    case Preferred(j) =>
      PreferenceKeeps(s, l, j, id, now);
      JudgeFrame(s, l, j, id, now);
    case Abstained(n, anchor) =>
      AbstentionKeeps(l, n, anchor, now);
      AbstainFrame(l, n, anchor, now);
  }

  lemma AnswerContinues(s: Settings, l: Ledger, a: Answer, id: ComparisonId, p: Option<Engine.Proposal>, now: nat)
    requires Inv(l) && (a.Preferred? ==> KeyFollows(l, id, now))
    ensures Inv(HandleAnswer(s, l, a, id, p, now).0) && Continues(l, HandleAnswer(s, l, a, id, p, now).0)
  {
    var r := RecordAnswer(s, l, a, id, now);
    if r.Ok? {
      RecordedContinues(s, l, a, id, now);
      SuggestingContinues(s, r.value, p, now);
    }
  }

  lemma FollowUpContinues(s: Settings, l: Ledger, p: Option<Engine.Proposal>, now: nat)
    requires Inv(l)
    ensures Inv(FollowUp(s, l, p, now).ledger) && Continues(l, FollowUp(s, l, p, now).ledger)
  {
    SuggestingContinues(s, l, p, now);
  }

  lemma ExclusionContinues(s: Settings, l: Ledger, id: ShotId, p: Option<Engine.Proposal>, now: nat)
    requires Inv(l) && HasShot(l.shots, id)
    ensures Inv(HandleExclusion(s, l, id, p, now).ledger) && Continues(l, HandleExclusion(s, l, id, p, now).ledger)
  {
    if ExcludeShot(s, l, id, now).Ok? {
      ExcludedContinues(s, l, id, now);
      FollowUpContinues(s, ExcludeShot(s, l, id, now).value, p, now);
    }
  }

  lemma ExcludedContinues(s: Settings, l: Ledger, id: ShotId, now: nat)
    requires Inv(l) && ExcludeShot(s, l, id, now).Ok?
    ensures Inv(ExcludeShot(s, l, id, now).value) && Continues(l, ExcludeShot(s, l, id, now).value)
  {
    ExclusionKeeps(s, l, id, now);
    ExcludeFrame(s, l, id, now);
  }

  lemma CorrectionContinues(s: Settings, l: Ledger, id: ShotId, controls: Controls, notes: map<nat, nat>, p: Option<Engine.Proposal>, now: nat)
    requires Inv(l)
    ensures var m := HandleCorrection(s, l, id, controls, notes, p, now).ledger; Inv(m) && Continues(l, m)
  {
    var r := CorrectShot(s, l, id, controls, notes, now);
    if r.Ok? {
      CorrectionKeeps(s, l, id, controls, notes, now);
      CorrectFrame(s, l, id, controls, notes, now);
      FollowUpContinues(s, r.value.0, p, now);
    }
  }

  lemma EditContinues(s: Settings, l: Ledger, e: Edit, p: Option<Engine.Proposal>, now: nat)
    requires Inv(l)
    ensures Inv(HandleEdit(s, l, e, p, now).ledger) && Continues(l, HandleEdit(s, l, e, p, now).ledger)
  {
    if HasShot(l.shots, e.id) {
      if e.excluded {
        ExclusionContinues(s, l, e.id, p, now);
      } else if e.controls.Some? {
        CorrectionContinues(s, l, e.id, e.controls.value, e.notes, p, now);
      }
    }
  }

  lemma ControlContinues(s: Settings, l: Ledger, control: ControlId, p: Option<Engine.Proposal>, now: nat)
    requires Inv(l)
    ensures Inv(HandleControl(s, l, control, p, now).ledger) && Continues(l, HandleControl(s, l, control, p, now).ledger)
  {
    if ResumeLocalExploration(s, l, Some(control), now).Ok? {
      ResumeKeeps(s, l, Some(control), now);
      ResumeFrame(s, l, Some(control), now);
      SuggestingContinues(s, ResumeLocalExploration(s, l, Some(control), now).value, p, now);
    }
  }

  lemma VisitContinues(s: Settings, mode: Mode, l: Ledger, v: Visit)
    requires Inv(l) && InLine(s, mode, l) && Admitted(Some(l), v)
    ensures var m := After(s, mode, Some(l), v); m.Some? && Inv(m.value) && Continues(l, m.value)
  {
    match v
    case NewShot(r, aid, now) => ShotContinues(s, mode, l, r, aid, now);
    case NewAnswer(a, id, p, now) => AnswerContinues(s, l, a, id, p, now);
    case Amendment(e, p, now) => EditContinues(s, l, e, p, now);
    case ResumeRequest(control, p, now) => ControlContinues(s, l, control, p, now);
  }

  /** Whatever is sent, an active run in line with its settings stays the same run and keeps every shot at its place. */
  lemma {:induction false} VisitsContinue(s: Settings, mode: Mode, l: Ledger, vs: seq<Visit>)
    requires Inv(l) && InLine(s, mode, l) && AllAdmitted(s, mode, Some(l), vs)
    ensures var m := AfterAll(s, mode, Some(l), vs); m.Some? && Inv(m.value) && InLine(s, mode, m.value) && Continues(l, m.value)
  {
    if vs != [] {
      VisitsContinue(s, mode, l, vs[..|vs| - 1]);
      VisitContinues(s, mode, AfterAll(s, mode, Some(l), vs[..|vs| - 1]).value, vs[|vs| - 1]);
    }
  }

  // ----- redelivery -----

  /** The shot was taken up, not turned away. */
  predicate Processed(r: Result<Outcome>)
  {
    r.Ok? && r.value.reason in {None, Some(InvalidAttempt)}
  }

  lemma ProcessedIsStored(s: Settings, mode: Mode, book: Option<Ledger>, r: ShotRecord, aid: Aid, now: nat)
    requires book.Some? ==> Inv(book.value)
    requires Processed(HandleShot(s, mode, book, r, aid, now).result)
    ensures var m := HandleShot(s, mode, book, r, aid, now).book;
      m.Some? && Inv(m.value) && InLine(s, mode, m.value) && HasShot(m.value.shots, r.id)
  {
    var active := ActiveRun(s, mode, book, now).value;
    if active.Some? {
      MeetingKeeps(s, mode, book.value, now);
      ProcessingStores(s, active.value, r, aid, now);
    } else {
      CreationStores(s, mode, r, aid, now);
    }
  }

  lemma CreationStores(s: Settings, mode: Mode, r: ShotRecord, aid: Aid, now: nat)
    requires KnownRecipe(r).Some? && Processed(EnterShot(s, mode, None, r, aid, now).result)
    ensures var m := EnterShot(s, mode, None, r, aid, now).book;
      m.Some? && Inv(m.value) && InLine(s, mode, m.value) && HasShot(m.value.shots, r.id)
  {
    var l := Initialize(s, aid.run, mode, KnownRecipe(r).value, aid.steps, now).value;
    InitializeEstablishes(s, aid.run, mode, KnownRecipe(r).value, aid.steps, now);
    ProcessingStores(s, l, r, aid, now);
  }

  /** A run that meets its settings is in line with them, unless a shot awaits its judgement. */
  lemma MeetingKeeps(s: Settings, mode: Mode, l: Ledger, now: nat)
    requires Inv(l) && l.run.active && CompatibleRun(s, l, Some(mode), now).Ok? && CompatibleRun(s, l, Some(mode), now).value.run.active
    ensures var m := CompatibleRun(s, l, Some(mode), now).value; Inv(m) && (InLine(s, mode, m) || m.state.pendingShot.Some?)
  {
    CompatibleKeeps(s, l, Some(mode), now);
    if FitOf(s, l, Some(mode)).Migrated? {
      var space, rebased, state := MigrationParts(s, l, mode, now);
    }
  }

  lemma ProcessingStores(s: Settings, l: Ledger, r: ShotRecord, aid: Aid, now: nat)
    requires Inv(l) && KnownRecipe(r).Some? && Processed(ProcessShot(s, l, r, aid, now).result)
    ensures var m := ProcessShot(s, l, r, aid, now).book;
      m.Some? && Inv(m.value) && m.value.run == l.run && HasShot(m.value.shots, r.id) && l.state.pendingShot.None?
  {
    ProcessIsSafe(s, l, r, aid, now);
    ProcessingContinues(s, l, r, aid, now);
    BaselineIsRecorded(l);
    if l.state.previous.Some? && l.state.pendingRecipe.None? {
      SuggestedIsAtRest(s, l, aid.before, now);
      BaselineIsRecorded(SuggestNext(s, l, aid.before, now).value.0);
      StoreIsSafe(s, SuggestNext(s, l, aid.before, now).value.0, r, true, aid, now);
    } else {
      StoreIsSafe(s, l, r, l.state.previous.Some?, aid, now);
    }
  }

  // ----- what is recorded of a shot -----

  /** The stored shot is what the record says: its observation is the nearest recipe the machine can execute, its status says whether it is
      taste evidence, and only a shot whose controls are all known gets here. */
  ghost predicate IsOf(space: Space, shot: Shot, r: ShotRecord)
  {
    && shot.id == r.id && shot.notes == r.notes && shot.observed.Some? && shot.recipe == RecipeId(space.version, shot.observed.value)
    && r.grindObserved && r.relativeGrind.Some? && Nearest(space.grind, r.relativeGrind.value, shot.observed.value.grind)
    && (r.doseObserved || r.doseTargetConfirmed) && r.doseTarget.Some? && Nearest(space.dose, r.doseTarget.value, shot.observed.value.dose)
    && r.targetYieldObserved && Nearest(space.output, r.targetYield, shot.observed.value.output)
    && space.higherIsFiner == r.higherIsFiner
    && (shot.status == Valid <==> r.endState in {Finished, ManualFinished})
    && (shot.status == MachineFailure <==> r.endState in {Failed, Failure, MachineFailed, Errored})
    && (shot.status == Aborted <==> r.endState == Unfamiliar)
  }

  ghost predicate RecordedIn(l: Ledger, r: ShotRecord) { exists i: nat :: i < |l.shots| && IsOf(l.run.space, l.shots[i], r) }

  lemma ReportIsOf(l: Ledger, r: ShotRecord, deviate: bool, now: nat)
    requires KnownRecipe(r).Some?
    requires RecordShot(l, ShotReport(r.id, KnownRecipe(r).value, PhysicalStatus(r), r.notes), deviate, now).Ok?
    ensures RecordedIn(RecordShot(l, ShotReport(r.id, KnownRecipe(r).value, PhysicalStatus(r), r.notes), deviate, now).value.0, r)
  {
    var report := ShotReport(r.id, KnownRecipe(r).value, PhysicalStatus(r), r.notes);
    var (m, shot) := RecordShot(l, report, deviate, now).value;
    RecordedParts(l, report, deviate, now);
    CreatedIsNearest(l.run.space, report.controls.recipe, now);
    assert m.shots[|l.shots|] == shot;
    assert IsOf(m.run.space, shot, r);
  }

  lemma CreatedIsNearest(space: Space, t: Triple, now: nat)
    requires Create(space, t, now).Ok?
    ensures var q := Create(space, t, now).value.controls;
      Nearest(space.grind, t.grind, q.grind) && Nearest(space.dose, t.dose, q.dose) && Nearest(space.output, t.output, q.output)
    ensures Create(space, t, now).value.id == RecipeId(space.version, Create(space, t, now).value.controls)
  {
    QuantizeIsNearest(space.grind, t.grind);
    QuantizeIsNearest(space.dose, t.dose);
    QuantizeIsNearest(space.output, t.output);
  }

  lemma StillRecorded(l: Ledger, m: Ledger, r: ShotRecord)
    requires RecordedIn(l, r) && m.shots == l.shots && m.run == l.run
    ensures RecordedIn(m, r)
  {
  }

  lemma StoringRecords(s: Settings, l: Ledger, r: ShotRecord, hasBaseline: bool, aid: Aid, now: nat)
    requires Inv(l) && KnownRecipe(r).Some? && Processed(StoreShot(s, l, r, hasBaseline, aid, now).result)
    ensures StoreShot(s, l, r, hasBaseline, aid, now).book.Some? && RecordedIn(StoreShot(s, l, r, hasBaseline, aid, now).book.value, r)
  {
    var report := ShotReport(r.id, KnownRecipe(r).value, PhysicalStatus(r), r.notes);
    var stored := RecordShot(l, report, hasBaseline, now).value.0;
    ReportIsOf(l, r, hasBaseline, now);
    ShotKeeps(l, report, hasBaseline, now);
    if SuggestNext(s, stored, aid.after, now).Ok? {
      SuggestFrame(s, stored, aid.after, now);
      StillRecorded(stored, SuggestNext(s, stored, aid.after, now).value.0, r);
    }
  }

  lemma ProcessingRecords(s: Settings, l: Ledger, r: ShotRecord, aid: Aid, now: nat)
    requires Inv(l) && KnownRecipe(r).Some? && Processed(ProcessShot(s, l, r, aid, now).result)
    ensures ProcessShot(s, l, r, aid, now).book.Some? && RecordedIn(ProcessShot(s, l, r, aid, now).book.value, r)
  {
    if l.state.previous.Some? && l.state.pendingRecipe.None? {
      SuggestKeeps(s, l, aid.before, now);
      StoringRecords(s, SuggestNext(s, l, aid.before, now).value.0, r, true, aid, now);
    } else {
      StoringRecords(s, l, r, l.state.previous.Some?, aid, now);
    }
  }

  /** A shot that is processed, in whatever state, is stored as its record says. */
  lemma ProcessedIsAsRecorded(s: Settings, mode: Mode, book: Option<Ledger>, r: ShotRecord, aid: Aid, now: nat)
    requires book.Some? ==> Inv(book.value)
    requires Processed(HandleShot(s, mode, book, r, aid, now).result)
    ensures var m := HandleShot(s, mode, book, r, aid, now).book; m.Some? && RecordedIn(m.value, r)
    ensures r.espresso && !r.excluded && r.hasContext
  {
    var active := ActiveRun(s, mode, book, now).value;
    if active.Some? {
      CompatibleKeeps(s, book.value, Some(mode), now);
      ProcessingRecords(s, active.value, r, aid, now);
    } else {
      CreationRecords(s, mode, r, aid, now);
    }
  }

  lemma CreationRecords(s: Settings, mode: Mode, r: ShotRecord, aid: Aid, now: nat)
    requires KnownRecipe(r).Some? && Processed(EnterShot(s, mode, None, r, aid, now).result)
    ensures EnterShot(s, mode, None, r, aid, now).book.Some? && RecordedIn(EnterShot(s, mode, None, r, aid, now).book.value, r)
  {
    InitializeEstablishes(s, aid.run, mode, KnownRecipe(r).value, aid.steps, now);
    ProcessingRecords(s, Initialize(s, aid.run, mode, KnownRecipe(r).value, aid.steps, now).value, r, aid, now);
  }

  /** The run a first shot opens: grinder settings around the shot's own, dose and output within the configured limits, in the machine's
      steps. */
  lemma FirstShotOpensARun(s: Settings, mode: Mode, r: ShotRecord, aid: Aid, now: nat)
    requires Processed(HandleShot(s, mode, None, r, aid, now).result)
    ensures var m := HandleShot(s, mode, None, r, aid, now).book;
      && m.Some? && r.relativeGrind.Some?
      && var (run, g) := (m.value.run, r.relativeGrind.value);
        && run.id == aid.run && run.mode == mode && run.active && run.configuration == s.configuration
        && run.space == Space(Axis(g - s.domain.grindRadius, g + s.domain.grindRadius, aid.steps.grind),
                              Axis(s.domain.doseMin, s.domain.doseMax, aid.steps.dose),
                              Axis(s.domain.outputMin, s.domain.outputMax, aid.steps.output), r.higherIsFiner, s.domain)
  {
    var l := Initialize(s, aid.run, mode, KnownRecipe(r).value, aid.steps, now).value;
    InitializeEstablishes(s, aid.run, mode, KnownRecipe(r).value, aid.steps, now);
    ProcessingContinues(s, l, r, aid, now);
  }

  /** The shot is turned away and the rows stay as they are. */
  predicate TurnedAway(s: Settings, mode: Mode, book: Option<Ledger>, r: ShotRecord, aid: Aid, now: nat)
  {
    HandleShot(s, mode, book, r, aid, now).book == book && !Processed(HandleShot(s, mode, book, r, aid, now).result)
  }

  lemma StoredIsTurnedAway(s: Settings, mode: Mode, l: Ledger, vs: seq<Visit>, r: ShotRecord, aid: Aid, now: nat)
    requires Inv(l) && InLine(s, mode, l) && HasShot(l.shots, r.id) && AllAdmitted(s, mode, Some(l), vs)
    ensures TurnedAway(s, mode, AfterAll(s, mode, Some(l), vs), r, aid, now)
  {
    VisitsContinue(s, mode, l, vs);
    var m := AfterAll(s, mode, Some(l), vs).value;
    StillStored(l, m, r.id);
    KnownShotWritesNothing(s, mode, m, r, aid, now);
  }

  /** A shot that was processed once is never processed again: whatever was sent in between, its redelivery writes nothing. */
  lemma RedeliveredShotIsHarmless(s: Settings, mode: Mode, book: Option<Ledger>, r: ShotRecord, aid: Aid, now: nat, vs: seq<Visit>,
                                  again: ShotRecord, later: Aid, afterwards: nat)
    requires book.Some? ==> Inv(book.value)
    requires Processed(HandleShot(s, mode, book, r, aid, now).result) && again.id == r.id
    requires AllAdmitted(s, mode, HandleShot(s, mode, book, r, aid, now).book, vs)
    ensures TurnedAway(s, mode, AfterAll(s, mode, HandleShot(s, mode, book, r, aid, now).book, vs), again, later, afterwards)
  {
    ProcessedIsStored(s, mode, book, r, aid, now);
    StoredIsTurnedAway(s, mode, HandleShot(s, mode, book, r, aid, now).book.value, vs, again, later, afterwards);
  }

  lemma StillStored(l: Ledger, m: Ledger, id: ShotId)
    requires Continues(l, m) && HasShot(l.shots, id)
    ensures HasShot(m.shots, id)
  {
    var i :| 0 <= i < |l.shots| && l.shots[i].id == id;
    assert m.shots[i].id == id;
  }
}
