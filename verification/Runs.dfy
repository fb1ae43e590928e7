/** Whole runs: every sequence of use cases, in any order, with any arguments. */
module Runs {
  import opened Prelude
  import opened RecipeSpace
  import opened RecipeLaws
  import opened Cpbo
  import opened TrustRegions
  import opened TrustRegionLaws
  import opened History
  import opened HistoryLaws
  import opened ReplayLaws
  import opened Ledgers
  import opened Service
  import opened Invariants
  import opened Faithfulness
  import Engine

  /** The service's settings and the rows of the run it works on. */
  datatype Session = Session(settings: Settings, ledger: Ledger)

  datatype Event =
    | Suggest(proposal: Option<Engine.Proposal>, now: nat)
    | Report(report: ShotReport, deviate: bool, now: nat)
    | Abstain(newShot: ShotId, anchor: ShotId, now: nat)
    | Prefer(judgement: Judgement, id: ComparisonId, now: nat)
    | Reopen(control: Option<ControlId>, now: nat)
    | Correct(shot: ShotId, controls: Controls, notes: map<nat, nat>, now: nat)
    | Exclude(shot: ShotId, now: nat)
    | Configure(settings: Settings)
    | Meet(mode: Option<Mode>, now: nat)

  function OrElse(r: Result<Ledger>, l: Ledger): Ledger { if r.Ok? then r.value else l }

  function First<T>(r: Result<(Ledger, T)>): Result<Ledger> { if r.Ok? then Ok(r.value.0) else Err(r.why) }

  /** What one use case does to the rows; None for a change of settings. */
  function Attempt(s: Settings, l: Ledger, e: Event): Result<Ledger>
  {
    match e
    case Suggest(p, now) => First(SuggestNext(s, l, p, now))
    case Report(r, deviate, now) => First(RecordShot(l, r, deviate, now))
    case Abstain(n, a, now) => RecordAbstention(l, n, a, now)
    case Prefer(j, id, now) => RecordPreference(s, l, j, id, now)
    case Reopen(control, now) => ResumeLocalExploration(s, l, control, now)
    case Correct(id, controls, notes, now) => First(CorrectShot(s, l, id, controls, notes, now))
    case Exclude(id, now) => ExcludeShot(s, l, id, now)
    case Configure(_) => Ok(l)
    case Meet(mode, now) => CompatibleRun(s, l, mode, now)
  }

  /** A step that raises changes nothing. */
  function Step(x: Session, e: Event): Session
  {
    Session(if e.Configure? then e.settings else x.settings, OrElse(Attempt(x.settings, x.ledger, e), x.ledger))
  }

  function Play(x: Session, es: seq<Event>): Session
  {
    if es == [] then x else Step(Play(x, es[..|es| - 1]), es[|es| - 1])
  }

  /** The environment: comparison keys grow and the clock is positive. */
  predicate Allowed(x: Session, e: Event)
  {
    && (e.Prefer? ==> KeyFollows(x.ledger, e.id, e.now))
    && (e.Reopen? ==> e.now > 0)
  }

  /** The schedule stays and the run is not reconfigured. */
  predicate Steady(x: Session, e: Event)
  {
    && (e.Configure? ==> e.settings.schedule == x.settings.schedule)
    && (e.Meet? ==> !FitOf(x.settings, x.ledger, e.mode).Reconfigured?)
  }

  predicate AllAllowed(x: Session, es: seq<Event>)
  {
    es != [] ==> AllAllowed(x, es[..|es| - 1]) && Allowed(Play(x, es[..|es| - 1]), es[|es| - 1])
  }

  predicate AllSteady(x: Session, es: seq<Event>)
  {
    es != [] ==> AllSteady(x, es[..|es| - 1]) && Steady(Play(x, es[..|es| - 1]), es[|es| - 1])
  }

  /** A run from its creation: how it was created, and everything that then happened to it. */
  datatype Story = Story(settings: Settings, id: RunId, mode: Mode, baseline: Controls, steps: Resolutions, now: nat, events: seq<Event>) {
    function Created(): Result<Ledger> { Initialize(settings, id, mode, baseline, steps, now) }

    function Start(): Session
      requires Created().Ok?
    {
      Session(settings, Created().value)
    }

    /** The run was created and the environment behaved. */
    predicate Told() { Created().Ok? && AllAllowed(Start(), events) }

    function End(): Session
      requires Created().Ok?
    {
      Play(Start(), events)
    }
  }

  // ----- one step -----

  lemma StepKeepsInv(x: Session, e: Event)
    requires Inv(x.ledger) && Allowed(x, e)
    ensures Inv(Step(x, e).ledger)
  {
    var s, l := x.settings, x.ledger;
    if Attempt(s, l, e).Ok? {
      match e
      case Suggest(p, now) => SuggestKeeps(s, l, p, now);
      case Report(r, deviate, now) => ShotKeeps(l, r, deviate, now);
      case Abstain(n, a, now) => AbstentionKeeps(l, n, a, now);
      case Prefer(j, id, now) => PreferenceKeeps(s, l, j, id, now);
      case Reopen(control, now) => ResumeKeeps(s, l, control, now);
      case Correct(id, controls, notes, now) => CorrectionKeeps(s, l, id, controls, notes, now);
      case Exclude(id, now) => ExclusionKeeps(s, l, id, now);
      case Configure(_) =>
      case Meet(mode, now) => CompatibleKeeps(s, l, mode, now);
    }
  }

  lemma StepStaysLive(x: Session, e: Event)
    requires Inv(x.ledger) && Live(x.settings, x.ledger) && Allowed(x, e) && Steady(x, e)
    ensures Live(Step(x, e).settings, Step(x, e).ledger)
  {
    var s, l := x.settings, x.ledger;
    if Attempt(s, l, e).Ok? {
      match e
      case Suggest(p, now) => SuggestionStaysLive(s, l, p, now);
      case Report(r, deviate, now) => ShotStaysLive(s, l, r, deviate, now);
      case Abstain(n, a, now) => AbstentionStaysLive(s, l, n, a, now);
      case Prefer(j, id, now) => PreferenceStaysLive(s, l, j, id, now);
      case Reopen(control, now) => ResumptionStaysLive(s, l, control, now);
      case Correct(id, controls, notes, now) => CorrectionStaysLive(s, l, id, controls, notes, now);
      case Exclude(id, now) => ExclusionStaysLive(s, l, id, now);
      case Configure(_) =>
      case Meet(mode, now) => CompatibleStaysLive(s, l, mode, now);
    }
  }

  // ----- every run -----

  /** Suggestion rows, pending fields, chain and heads agree in every reachable state, whatever happened. */
  lemma {:induction false} EveryRunKeepsInv(x: Session, es: seq<Event>)
    requires Inv(x.ledger) && AllAllowed(x, es)
    ensures Inv(Play(x, es).ledger)
  {
    if es != [] {
      EveryRunKeepsInv(x, es[..|es| - 1]);
      StepKeepsInv(Play(x, es[..|es| - 1]), es[|es| - 1]);
    }
  }

  /** In every run that was not reconfigured, the stored state is the replay of the stored history. */
  lemma {:induction false} EverySteadyRunIsLive(x: Session, es: seq<Event>)
    requires Inv(x.ledger) && Live(x.settings, x.ledger) && AllAllowed(x, es) && AllSteady(x, es)
    ensures Inv(Play(x, es).ledger) && Live(Play(x, es).settings, Play(x, es).ledger)
  {
    if es != [] {
      EverySteadyRunIsLive(x, es[..|es| - 1]);
      StepKeepsInv(Play(x, es[..|es| - 1]), es[|es| - 1]);
      StepStaysLive(Play(x, es[..|es| - 1]), es[|es| - 1]);
    }
  }

  /** From creation on: live equals replay, with any suggestions, shots, judgements, abstentions, resumptions,
      corrections, exclusions and migrations in between. */
  lemma {:induction false} LiveEqualsReplay(st: Story)
    requires st.Told() && AllSteady(st.Start(), st.events)
    ensures var y := st.End();
      ReplayOf(y.settings, y.ledger) == Ok(Rebuilt(HeadOf(y.ledger.state), y.ledger.state.region))
  {
    InitializeEstablishes(st.settings, st.id, st.mode, st.baseline, st.steps, st.now);
    InitializeIsLive(st.settings, st.id, st.mode, st.baseline, st.steps, st.now);
    EverySteadyRunIsLive(st.Start(), st.events);
  }

  /** Across reconfigurations too, the stored incumbent and previous shot are the head of the stored comparisons, whether or not
      they can still be replayed; a replay that succeeds finds the same. */
  lemma {:induction false} HeadsEqualReplay(st: Story)
    requires st.Told()
    ensures var l := st.End().ledger;
      match Baseline(l.shots)
      case None => l.comparisons == [] && l.state.previous.None? && l.state.incumbent.None?
      case Some(base) => HeadOf(l.state) == Some(HeadAfter(base, l.comparisons))
    ensures var y := st.End();
      ReplayOf(y.settings, y.ledger).Ok? ==> ReplayOf(y.settings, y.ledger).value.head == HeadOf(y.ledger.state)
  {
    InitializeEstablishes(st.settings, st.id, st.mode, st.baseline, st.steps, st.now);
    EveryRunKeepsInv(st.Start(), st.events);
    var y := st.End();
    HeadsAgree(y.ledger);
    if ReplayOf(y.settings, y.ledger).Ok? {
      RebuildHead(y.settings.schedule, y.ledger.state.region, y.ledger.shots, y.ledger.table.rows, y.ledger.comparisons);
    }
  }
}
