/** Concrete stories: runs that reach the states in which a property fails. */
module Witnesses {
  import opened Prelude
  import opened RecipeSpace
  import opened RecipeLaws
  import opened Cpbo
  import opened TrustRegions
  import opened TrustRegionLaws
  import opened History
  import opened HistoryLaws
  import opened ReplayLaws
  import opened Ledgers
  import opened Service
  import opened Invariants
  import opened Faithfulness
  import opened Evidence
  import opened Markings
  import opened Tempos
  import opened Guarantees
  import opened Frames
  import opened Endurance
  import opened Recordings
  import opened Runs
  import opened Stories
  import Convergence
  import Engine
  import Standstill
  import Visits

  /** A story that goes on by one event. */
  function Continued(st: Story, e: Event): Story { st.(events := st.events + [e]) }

  lemma OneMoreEvent(st: Story, e: Event)
    requires st.Told() && Allowed(st.End(), e)
    ensures Continued(st, e).Told() && Continued(st, e).End() == Step(st.End(), e)
  {
    assert (st.events + [e])[..|st.events|] == st.events;
  }

  lemma GoesOn(st: Story, s: Settings, l: Ledger, e: Event, m: Ledger) returns (next: Story)
    requires st.Told() && st.End() == Session(s, l) && Allowed(Session(s, l), e) && Attempt(s, l, e) == Ok(m)
    ensures next == Continued(st, e) && next.Told() && next.End() == Session(if e.Configure? then e.settings else s, m)
  {
    OneMoreEvent(st, e);
    next := Continued(st, e);
  }

  lemma GoesOnUnder(st: Story, s: Settings, l: Ledger, t: Settings) returns (next: Story)
    requires st.Told() && st.End() == Session(s, l)
    ensures next == Continued(st, Configure(t)) && next.Told() && next.End() == Session(t, l)
  {
    OneMoreEvent(st, Configure(t));
    next := Continued(st, Configure(t));
  }

  // ----- the next shot -----

  /** Nothing stands in the way of the next suggestion. */
  predicate Ready(s: Settings, l: Ledger)
  {
    && NoPending(l.state) && Baseline(l.shots).Some? && l.run.configuration == s.configuration
    && !(l.run.mode.BestIncumbent? && l.state.region.locallyConverged)
    && Aligned(l.run.space) && Matching(l)
  }

  /** Controls on the grid of the space that the physical envelope admits. */
  predicate OnGrid(s: Space, t: Triple) { QuantizeRecipe(s, t) == Ok(t) && GrindInEnvelope(t) }

  /** A valid shot, observed as its recipe says. */
  predicate IsPull(shot: Shot, id: ShotId, recipe: RecipeId)
  {
    shot.id == id && shot.status.Valid? && shot.recipe == recipe && shot.observed == Some(recipe.controls)
  }

  function SuggestedIds(rows: seq<SuggestionRow>): set<SuggestionId> { set r | r in rows :: r.suggestion.id }

  lemma IdsOf(a: seq<SuggestionRow>, b: seq<SuggestionRow>)
    requires |a| == |b| && forall i :: 0 <= i < |a| ==> a[i].suggestion == b[i].suggestion
    ensures SuggestedIds(a) == SuggestedIds(b)
  {
    forall k | k in SuggestedIds(a)
      ensures k in SuggestedIds(b)
    {
      var i :| 0 <= i < |a| && a[i].suggestion.id == k;
      assert b[i] in b;
    }
    forall k | k in SuggestedIds(b)
      ensures k in SuggestedIds(a)
    {
      var i :| 0 <= i < |b| && b[i].suggestion.id == k;
      assert a[i] in a;
    }
  }

  lemma UnusedId(rows: seq<SuggestionRow>, id: SuggestionId)
    requires id !in SuggestedIds(rows)
    ensures forall i :: 0 <= i < |rows| ==> rows[i].suggestion.id != id
  {
  }

  /** Heads, region and history are as before, and the pending anchor is the one the mode demands. */
  predicate Anchored(l: Ledger, m: Ledger)
  {
    && m.run == l.run && m.comparisons == l.comparisons && m.state.region == l.state.region
    && m.state.previous == l.state.previous && m.state.incumbent == l.state.incumbent
    && m.state.pendingAnchor == (if l.run.mode.GlobalPrevious? then l.state.previous else l.state.incumbent)
    && Matching(m)
  }

  /** A suggestion is open and was not pulled. */
  predicate Proposed(l: Ledger, m: Ledger, p: Engine.Proposal)
  {
    && Anchored(l, m) && m.shots == l.shots
    && m.state.pendingRecipe == Some(RecipeId(l.run.space.version, p.controls)) && m.state.pendingShot.None?
    && SuggestedIds(m.suggestions) == SuggestedIds(l.suggestions) + {p.id}
  }

  /** A shot was pulled as suggested and awaits its judgement. */
  predicate Pulled(l: Ledger, m: Ledger, p: Engine.Proposal, id: ShotId)
  {
    && Anchored(l, m) && |m.shots| == |l.shots| + 1 && m.shots == l.shots + [m.shots[|l.shots|]] && IsPull(m.shots[|l.shots|], id, RecipeId(l.run.space.version, p.controls))
    && m.state.pendingShot == Some(id)
    && SuggestedIds(m.suggestions) == SuggestedIds(l.suggestions) + {p.id}
  }

  function PullReport(s: Space, p: Engine.Proposal, id: ShotId): ShotReport
  {
    ShotReport(id, Controls(p.controls, s.higherIsFiner), Valid, map[])
  }

  /** A run that is ready takes any recipe on its grid: it can be suggested, pulled and recorded. */
  lemma NextShot(st: Story, p: Engine.Proposal, id: ShotId, now: nat) returns (next: Story)
    requires st.Told() && Ready(st.End().settings, st.End().ledger) && OnGrid(st.End().ledger.run.space, p.controls)
    requires !HasShot(st.End().ledger.shots, id) && p.id !in SuggestedIds(st.End().ledger.suggestions)
    ensures next == Continued(Continued(st, Suggest(Some(p), now)), Report(PullReport(st.End().ledger.run.space, p, id), false, now))
    ensures next.Told() && next.End().settings == st.End().settings && Pulled(st.End().ledger, next.End().ledger, p, id)
  {
    var mid := NextSuggestion(st, p, now);
    next := NextPull(mid, st.End().ledger, p, id, now);
  }

  lemma NextSuggestion(st: Story, p: Engine.Proposal, now: nat) returns (next: Story)
    requires st.Told() && Ready(st.End().settings, st.End().ledger) && OnGrid(st.End().ledger.run.space, p.controls)
    requires p.id !in SuggestedIds(st.End().ledger.suggestions)
    ensures next == Continued(st, Suggest(Some(p), now)) && next.Told()
    ensures next.End().settings == st.End().settings && Proposed(st.End().ledger, next.End().ledger, p)
  {
    EveryStoryIsSane(st);
    var m := Suggests(st.End().settings, st.End().ledger, p, now);
    SuggestingGives(st.End().settings, st.End().ledger, p, now);
    OneMoreEvent(st, Suggest(Some(p), now));
    next := Continued(st, Suggest(Some(p), now));
  }

  lemma NextPull(st: Story, l: Ledger, p: Engine.Proposal, id: ShotId, now: nat) returns (next: Story)
    requires st.Told() && Proposed(l, st.End().ledger, p) && Baseline(l.shots).Some? && Aligned(l.run.space)
    requires OnGrid(l.run.space, p.controls) && !HasShot(l.shots, id)
    ensures next == Continued(st, Report(PullReport(l.run.space, p, id), false, now)) && next.Told()
    ensures next.End().settings == st.End().settings && Pulled(l, next.End().ledger, p, id)
  {
    EveryStoryIsSane(st);
    var n := Records(l, st.End().ledger, p, id, now);
    RecordingGives(st.End().settings, st.End().ledger, PullReport(l.run.space, p, id), now);
    OneMoreEvent(st, Report(PullReport(l.run.space, p, id), false, now));
    next := Continued(st, Report(PullReport(l.run.space, p, id), false, now));
  }

  lemma Suggests(s: Settings, l: Ledger, p: Engine.Proposal, now: nat) returns (m: Ledger)
    requires Sane(l) && Ready(s, l) && OnGrid(l.run.space, p.controls) && p.id !in SuggestedIds(l.suggestions)
    ensures First(SuggestNext(s, l, Some(p), now)) == Ok(m) && Proposed(l, m, p)
  {
    UnusedId(l.suggestions, p.id);
    CreateCondition(l.run.space, p.controls, now);
    SuggestionCondition(s, l, Some(p), now);
    SuggestionParts(s, l, Some(p), now);
    SuggestFrame(s, l, Some(p), now);
    m := SuggestNext(s, l, Some(p), now).value.0;
    MatchingPersists(l, m);
    IdsAppend(l.suggestions, m.suggestions[|l.suggestions|]);
  }

  lemma SuggestingGives(s: Settings, l: Ledger, p: Engine.Proposal, now: nat)
    ensures Attempt(s, l, Suggest(Some(p), now)) == First(SuggestNext(s, l, Some(p), now))
  {
  }

  lemma IdsAppend(rows: seq<SuggestionRow>, r: SuggestionRow)
    ensures SuggestedIds(rows + [r]) == SuggestedIds(rows) + {r.suggestion.id}
  {
    assert forall x :: x in rows + [r] <==> x in rows || x == r;
    assert r in rows + [r];
  }

  lemma RecordingGives(s: Settings, l: Ledger, r: ShotReport, now: nat)
    ensures Attempt(s, l, Report(r, false, now)) == First(RecordShot(l, r, false, now))
  {
  }

  lemma Records(l: Ledger, m: Ledger, p: Engine.Proposal, id: ShotId, now: nat) returns (n: Ledger)
    requires Sane(m) && Baseline(l.shots).Some? && Aligned(l.run.space) && Proposed(l, m, p)
    requires OnGrid(l.run.space, p.controls) && !HasShot(l.shots, id)
    ensures First(RecordShot(m, PullReport(l.run.space, p, id), false, now)) == Ok(n) && Pulled(l, n, p, id)
  {
    var r := PullReport(l.run.space, p, id);
    RecordCondition(m, r, false, now);
    n := RecordShot(m, r, false, now).value.0;
    RecordedStaysMatching(m, r, false, now);
    CreateCondition(m.run.space, p.controls, now);
    PullRecorded(l, m, n, p, r, now);
  }

  lemma PullRecorded(l: Ledger, m: Ledger, n: Ledger, p: Engine.Proposal, r: ShotReport, now: nat)
    requires Baseline(l.shots).Some? && Proposed(l, m, p) && r == PullReport(l.run.space, p, r.id)
    requires First(RecordShot(m, r, false, now)) == Ok(n) && Matching(n)
    requires CanonicalRecipe(m.run, r.controls, now).Ok?
    requires CanonicalRecipe(m.run, r.controls, now).value.id == RecipeId(l.run.space.version, p.controls)
    requires CanonicalRecipe(m.run, r.controls, now).value.controls == p.controls
    ensures Pulled(l, n, p, r.id)
  {
    RecordedParts(m, r, false, now);
    IdsOf(n.suggestions, m.suggestions);
  }

  // ----- the first shot -----

  /** The run holds its baseline and nothing else. */
  predicate Founded(s: Settings, l: Ledger, id: ShotId)
  {
    && |l.shots| == 1 && IsPull(l.shots[0], id, l.table.first)
    && l.comparisons == [] && l.suggestions == [] && NoPending(l.state)
    && l.state.previous == Some(id) && l.state.incumbent == Some(id)
    && l.state.region.transitions == [] && TempoOf(l.state.region) == StartTempo(s.schedule)
  }

  function BaselineReport(st: Story, id: ShotId): ShotReport { ShotReport(id, st.baseline, Valid, map[]) }

  /** The baseline of a new run can be recorded, and matches its observation exactly when observing its recipe gives it back. */
  lemma FirstShot(st: Story, id: ShotId, now: nat) returns (next: Story)
    requires st.Created().Ok? && st.events == [] && GrindInEnvelope(st.Created().value.table.first.controls)
    ensures next == Continued(st, Report(BaselineReport(st, id), false, now)) && next.Told() && next.End().settings == st.settings
    ensures var l := next.End().ledger;
      && Founded(st.settings, l, id) && l.run == st.Created().value.run && l.table == st.Created().value.table
      && (ObservationsMatch(l) <==> QuantizeObserved(l.run.space, l.table.first.controls) == l.table.first.controls)
      && (Aligned(l.run.space) ==> Matching(l))
  {
    BeginningIsSane(st);
    var l := st.Created().value;
    CreateCondition(l.run.space, st.baseline.recipe, now);
    CreateCondition(l.run.space, st.baseline.recipe, st.now);
    RecordCondition(l, BaselineReport(st, id), false, now);
    FirstRecorded(st, l, BaselineReport(st, id), now);
    OneMoreEvent(st, Report(BaselineReport(st, id), false, now));
    next := Continued(st, Report(BaselineReport(st, id), false, now));
  }

  lemma FirstRecorded(st: Story, l: Ledger, r: ShotReport, now: nat)
    requires st.Created() == Ok(l) && Sane(l) && r == BaselineReport(st, r.id) && RecordShot(l, r, false, now).Ok?
    ensures var m := RecordShot(l, r, false, now).value.0;
      && Founded(st.settings, m, r.id) && m.run == l.run && m.table == l.table
      && (ObservationsMatch(m) <==> QuantizeObserved(m.run.space, m.table.first.controls) == m.table.first.controls)
      && (Aligned(m.run.space) ==> Matching(m))
  {
    RecordedParts(l, r, false, now);
    CreateCondition(l.run.space, st.baseline.recipe, now);
    CreateCondition(l.run.space, st.baseline.recipe, st.now);
    RecordedObservation(l, r, false, now);
  }

  // ----- one lost comparison -----

  /** The schedule converges after one comparison that the anchor wins. */
  predicate ConvergesAtOnce(s: Schedule) { s.limits.failureTolerance == 1 && s.initial / 2.0 <= s.limits.minimum }

  /** A shot awaits its first judgement at the initial length. */
  predicate AtInitialLength(s: Settings, l: Ledger)
  {
    && l.state.pendingShot.Some? && l.state.pendingAnchor.Some? && l.run.mode.BestIncumbent? && l.run.active
    && TempoOf(l.state.region) == StartTempo(s.schedule)
  }

  function Loss(l: Ledger): Judgement
    requires l.state.pendingShot.Some? && l.state.pendingAnchor.Some?
  {
    Judgement(l.state.pendingShot.value, l.state.pendingAnchor.value, AnchorBetter)
  }

  function LossRow(l: Ledger, id: ComparisonId, now: nat): Comparison
    requires l.state.pendingShot.Some? && l.state.pendingAnchor.Some?
  {
    Comparison(id, l.run.id, l.state.pendingShot.value, l.state.pendingAnchor.value, AnchorBetter, l.run.mode, now)
  }

  /** The awaited comparison was lost and the run has converged. */
  predicate Lost(l: Ledger, m: Ledger, id: ComparisonId, now: nat)
    requires l.state.pendingShot.Some? && l.state.pendingAnchor.Some?
  {
    && m.run == l.run && m.shots == l.shots && m.table == l.table && m.comparisons == l.comparisons + [LossRow(l, id, now)]
    && NoPending(m.state) && m.state.region.locallyConverged
    && MarkersOf(m.state.region.transitions) == MarkersOf(l.state.region.transitions)
    && SuggestedIds(m.suggestions) == SuggestedIds(l.suggestions)
  }

  /** One lost comparison converges a best-incumbent run at its initial length under such a schedule. */
  lemma OneLoss(st: Story, id: ComparisonId, now: nat) returns (next: Story)
    requires st.Told() && ConvergesAtOnce(st.End().settings.schedule) && AtInitialLength(st.End().settings, st.End().ledger)
    requires KeyFollows(st.End().ledger, id, now)
    requires forall i :: 0 <= i < |st.End().ledger.comparisons| ==> st.End().ledger.comparisons[i].id != id
    ensures next == Continued(st, Prefer(Loss(st.End().ledger), id, now)) && next.Told() && next.End().settings == st.End().settings
    ensures Lost(st.End().ledger, next.End().ledger, id, now)
  {
    EveryStoryIsSane(st);
    var m := LossConverges(st.End().settings, st.End().ledger, id, now);
    OneMoreEvent(st, Prefer(Loss(st.End().ledger), id, now));
    next := Continued(st, Prefer(Loss(st.End().ledger), id, now));
  }

  lemma LossConverges(s: Settings, l: Ledger, id: ComparisonId, now: nat) returns (m: Ledger)
    requires Inv(l) && AtInitialLength(s, l) && ConvergesAtOnce(s.schedule) && KeyFollows(l, id, now)
    requires forall i :: 0 <= i < |l.comparisons| ==> l.comparisons[i].id != id
    ensures Attempt(s, l, Prefer(Loss(l), id, now)) == Ok(m) && Lost(l, m, id, now)
  {
    Convergence.JudgementCondition(s, l, Loss(l), id, now);
    m := RecordPreference(s, l, Loss(l), id, now).value;
    var c, k := PreferenceParts(s, l, Loss(l), id, now);
    LossRecorded(s, l, m, c, k, now);
  }

  lemma LossRecorded(s: Settings, l: Ledger, m: Ledger, c: Comparison, k: nat, now: nat)
    requires AtInitialLength(s, l) && ConvergesAtOnce(s.schedule) && ComparisonAppended(s, l, m, c, k, now) && c == LossRow(l, c.id, now)
    ensures Lost(l, m, c.id, now)
  {
    IdsOf(m.suggestions, l.suggestions);
    var position := l.table.rows[FindShot(l.shots, c.newShot).value.recipe].position;
    JudgedMarkers(s.schedule, l.state.region, c, position, l.state.incumbent);
  }

  // ----- the stories -----

  const SCHEDULE: Schedule := ScheduleRow(0.8, Limits(0.5, 1.6, 3, 1))
  const HOME: RecipeDomain := DomainRow(10.0, 6.0, 30.0, 5.0, 250.0)
  const SETTINGS := Settings(SCHEDULE, 0, 0, HOME)
  const CENTRE := Triple(0.0, 18.0, 36.0)
  const FINER := Triple(1.0, 18.0, 36.0)
  const FINEST := Triple(2.0, 18.0, 36.0)

  /** A new run; the order of its recipe identifiers is left open. */
  function Beginning(order: Order): Story
  {
    Story(SETTINGS, RunId(1, order), BestIncumbent, Controls(CENTRE, true), Resolutions(1.0, 1.0, 1.0), 0, [])
  }

  lemma IntegersAreOnGrid(p: Parameter, n: int)
    requires p.step == 1.0 && p.lo == p.lo.Floor as real && InBounds(p, n as real)
    ensures Quantize(p, n as real) == Ok(n as real) && QuantizeObservation(p, n as real) == n as real
  {
    CellOfGrid(p, n - p.lo.Floor);
    assert Grid(p, n - p.lo.Floor) == n as real;
  }

  const GRIND: Parameter := Axis(-10.0, 10.0, 1.0)
  const DOSE: Parameter := Axis(6.0, 30.0, 1.0)
  const OUTPUT: Parameter := Axis(5.0, 250.0, 1.0)
  const HOME_SPACE := Space(GRIND, DOSE, OUTPUT, true, HOME)

  function HomeRun(order: Order): Run { Run(RunId(1, order), BestIncumbent, HOME_SPACE, 0, true) }

  const HOME_RUN := HomeRun(map[])

  lemma HomeIsAligned()
    ensures Aligned(HOME_SPACE)
    ensures forall t :: t in {CENTRE, FINER, FINEST} ==>
      OnGrid(HOME_SPACE, t) && Placeable(HOME_SPACE, t) && QuantizeObserved(HOME_SPACE, t) == t
  {
    IntegersAreOnGrid(GRIND, 0);
    IntegersAreOnGrid(GRIND, 1);
    IntegersAreOnGrid(GRIND, 2);
    IntegersAreOnGrid(GRIND, 10);
    IntegersAreOnGrid(DOSE, 18);
    IntegersAreOnGrid(DOSE, 30);
    IntegersAreOnGrid(OUTPUT, 36);
    IntegersAreOnGrid(OUTPUT, 250);
  }

  /** The only recipe listed is the baseline. */
  predicate OnlyBaseline(t: RecipeTable, order: Order) { t.rows.Keys == {RecipeId(HOME, CENTRE)} && t.first == RecipeId(HOME, CENTRE) && t.order == order }

  lemma BeginningIsCreated(order: Order)
    ensures Beginning(order).Created().Ok? && Beginning(order).Created().value.run == HomeRun(order)
    ensures OnlyBaseline(Beginning(order).Created().value.table, order)
  {
    HomeIsAligned();
    assert SpaceAround(0.0, 1.0, 1.0, 1.0, true, HOME) == Ok(HOME_SPACE);
    assert QuantizeRecipe(HOME_SPACE, CENTRE) == Ok(CENTRE);
  }

  // ----- a converged run -----

  /** Nothing but shots, suggestions, judgements and resumptions: the schedule and the mode stay. */
  predicate Plain(es: seq<Event>) { forall i :: 0 <= i < |es| ==> !es[i].Configure? && !es[i].Meet? }

  lemma {:induction false} PlainIsSteady(x: Session, es: seq<Event>)
    requires Plain(es)
    ensures AllSteady(x, es) && Play(x, es).settings == x.settings
  {
    if es != [] {
      PlainIsSteady(x, es[..|es| - 1]);
    }
  }

  /** The baseline and a second shot are recorded, and the run is the one of the beginning. */
  predicate TwoShots(l: Ledger)
  {
    && |l.shots| == 2 && IsPull(l.shots[0], 1, RecipeId(HOME, CENTRE)) && IsPull(l.shots[1], 2, RecipeId(HOME, FINER))
    && l.run == HOME_RUN
  }

  /** A plain story over the settings of the beginning, and where it ends. */
  predicate Ends(st: Story, l: Ledger)
  {
    st.Told() && st.settings == SETTINGS && Plain(st.events) && st.End() == Session(SETTINGS, l)
  }

  lemma FoundedStory(order: Order) returns (st: Story, l: Ledger)
    ensures Ends(st, l) && Founded(SETTINGS, l, 1) && Matching(l) && l.run == HomeRun(order) && OnlyBaseline(l.table, order)
  {
    BeginningIsCreated(order);
    HomeIsAligned();
    st := FirstShot(Beginning(order), 1, 1);
    l := st.End().ledger;
  }

  /** A second shot awaits its judgement. */
  lemma PulledStory() returns (st: Story, l: Ledger)
    ensures Ends(st, l) && TwoShots(l) && Matching(l) && AtInitialLength(SETTINGS, l) && l.comparisons == [] && SuggestedIds(l.suggestions) == {1}
  {
    var st1, l1 := FoundedStory(map[]);
    HomeIsAligned();
    FoundedIsReady(l1);
    var p := Engine.Proposal(1, FINER, 0, None);
    st := NextShot(st1, p, 2, 2);
    l := st.End().ledger;
    SecondShot(l1, l, p);
    PlainGrows(st1, st);
  }

  lemma PlainGrows(a: Story, b: Story)
    requires Plain(a.events) && |b.events| == |a.events| + 2 && b.events[..|a.events|] == a.events
    requires b.events[|a.events|].Suggest? && b.events[|a.events| + 1].Report?
    ensures Plain(b.events)
  {
    assert forall i :: 0 <= i < |a.events| ==> b.events[i] == b.events[..|a.events|][i];
  }

  lemma SecondShot(l: Ledger, m: Ledger, p: Engine.Proposal)
    requires Founded(SETTINGS, l, 1) && l.run == HOME_RUN && l.table.first == RecipeId(HOME, CENTRE)
    requires l.run.space.version == HOME && l.run.mode.BestIncumbent? && l.run.active
    requires Pulled(l, m, p, 2) && p.controls == FINER && p.id == 1
    ensures TwoShots(m) && AtInitialLength(SETTINGS, m) && m.comparisons == [] && SuggestedIds(m.suggestions) == {1}
  {
    assert m.shots[0] == l.shots[0];
  }

  /** The run has converged on its only comparison. */
  ghost predicate HasConverged(l: Ledger)
  {
    && TwoShots(l) && Matching(l) && NoPending(l.state) && l.state.region.locallyConverged
    && |l.comparisons| == 1 && l.comparisons[0].id == 1 && l.comparisons[0].createdAt == 4 && SuggestedIds(l.suggestions) == {1}
    && Sane(l) && Faithful(SETTINGS, l)
  }

  /** The beginning, its baseline, a finer shot and the judgement that the baseline was better. */
  lemma ConvergedStory() returns (st: Story, l: Ledger)
    ensures Ends(st, l) && HasConverged(l)
  {
    var l1;
    st, l1, l := LostStory();
    MatchingPersists(l1, l);
    EveryStoryIsSane(st);
    StillFaithfulStory(st, l);
  }

  lemma LostStory() returns (st: Story, l: Ledger, m: Ledger)
    ensures Ends(st, m) && TwoShots(l) && Matching(l) && l.comparisons == [] && SuggestedIds(l.suggestions) == {1}
    ensures l.state.pendingShot.Some? && l.state.pendingAnchor.Some? && Lost(l, m, 1, 4)
  {
    var st1;
    st1, l := PulledStory();
    st := OneLoss(st1, 1, 4);
    m := st.End().ledger;
    StaysPlain(st1, Prefer(Loss(l), 1, 4));
  }

  lemma StillFaithfulStory(st: Story, l: Ledger)
    requires Ends(st, l)
    ensures Faithful(SETTINGS, l)
  {
    PlainIsSteady(st.Start(), st.events);
    LiveEqualsReplay(st);
    EveryStoryIsSane(st);
  }

  lemma FoundedIsReady(l: Ledger)
    requires Founded(SETTINGS, l, 1) && Matching(l) && Aligned(l.run.space) && l.run.configuration == 0
    ensures Ready(SETTINGS, l) && !HasShot(l.shots, 2) && SuggestedIds(l.suggestions) == {}
  {
    assert l.shots == [l.shots[0]];
    assert Baseline(l.shots).Some? by {
      BaselineAt(l.shots);
    }
  }

  // ----- converged in global-previous mode -----

  /** The run is converged in global-previous mode, in line with its settings: nothing but the exclusion of a shot leads out of it. */
  ghost predicate OnlyExclusionFrees(st: Story)
  {
    && st.Told() && st.End().ledger.state.region.locallyConverged
    && Visits.InLine(st.End().settings, GlobalPrevious, st.End().ledger)
    && !Standstill.HasExitWithAllShots(st.End().settings, GlobalPrevious, st.End().ledger)
    && Standstill.HasExit(st.End().settings, GlobalPrevious, st.End().ledger)
  }

  /** The run was reconfigured: shots, comparisons and heads stay, transitions and pending work are gone. */
  predicate Reset(l: Ledger, m: Ledger, mode: Mode, configuration: nat)
  {
    && Convergence.Forgotten(l, m) && m.table == l.table && m.run == l.run.(mode := mode, configuration := configuration)
    && !m.state.region.locallyConverged && NoPending(m.state)
    && m.state.previous == l.state.previous && m.state.incumbent == l.state.incumbent
    && SuggestedIds(m.suggestions) == SuggestedIds(l.suggestions)
  }

  lemma Resets(s: Settings, l: Ledger, mode: Option<Mode>, now: nat) returns (m: Ledger)
    requires Inv(l) && l.run.active && FitOf(s, l, mode).Reconfigured?
    ensures CompatibleRun(s, l, mode, now) == Ok(m) && Inv(m)
    ensures Reset(l, m, if mode.Some? then mode.value else l.run.mode, s.configuration) && TempoOf(m.state.region) == StartTempo(s.schedule)
  {
    var desired := if mode.Some? then mode.value else l.run.mode;
    Convergence.ReconfigurationCondition(s, l, desired, now);
    Convergence.ReconfigurationForgets(s, l, desired, now);
    ReconfigurationKeeps(s, l, desired, now);
    m := ReconfigureRun(s, l, desired, now).value;
    IdsOf(m.suggestions, l.suggestions);
  }

  lemma FinerIsAnotherRecipe(l: Ledger)
    requires ShotRows(l.shots) && TwoShots(l)
    ensures HasShot(l.shots, 2) && Placeable(l.run.space, FINEST) && l.run.space.higherIsFiner && !SameRecipe(l, 2, FINEST)
  {
    HomeIsAligned();
    UniqueShot(l.shots, 1);
    assert l.shots[1].id == 2;
  }

  /** Correcting the second shot brings back the convergence the reconfiguration had cleared. */
  lemma CorrectsAfterReset(s: Settings, l: Ledger, m: Ledger, mode: Mode) returns (n: Ledger)
    requires Sane(l) && Inv(m) && Faithful(SETTINGS, l) && TwoShots(l) && l.state.region.locallyConverged && |l.comparisons| == 1
    requires Reset(l, m, mode, s.configuration) && s.schedule == SCHEDULE
    ensures Attempt(s, m, TO_FINEST) == Ok(n) && n.state.region.locallyConverged && n.run == m.run
  {
    FinerIsAnotherRecipe(l);
    Convergence.ForgottenCondition(SETTINGS, l, m);
    Convergence.SameScheduleRebuilds(SETTINGS, s, m);
    Convergence.ForgottenStaysSound(l, m);
    n := ChangesRecipe(s, m, 2, Controls(FINEST, true), 6);
    CorrectGives(s, m, 2, Controls(FINEST, true), 6);
  }

  lemma CorrectGives(s: Settings, l: Ledger, id: ShotId, controls: Controls, now: nat)
    ensures Attempt(s, l, Correct(id, controls, map[], now)) == First(CorrectShot(s, l, id, controls, map[], now))
  {
  }

  lemma ChangesRecipe(s: Settings, l: Ledger, id: ShotId, controls: Controls, now: nat) returns (m: Ledger)
    requires Inv(l) && Canonical(l) && Marked(l) && CanRebuild(s, l)
    requires HasShot(l.shots, id) && controls.higherIsFiner == l.run.space.higherIsFiner && Placeable(l.run.space, controls.recipe)
    requires !SameRecipe(l, id, controls.recipe)
    ensures First(CorrectShot(s, l, id, controls, map[], now)) == Ok(m) && m.run == l.run
    ensures m.state.region.locallyConverged <==> RebuildsConverged(s, l)
  {
    Convergence.RecipeChangeCondition(s, l, id, controls, map[], now);
    m := CorrectShot(s, l, id, controls, map[], now).value.0;
  }

  lemma NoConfigures(a: Story, st: Story, e: Event, f: Event)
    requires Plain(a.events) && st == Continued(Continued(a, e), f) && !e.Configure? && !f.Configure?
    ensures Standstill.OneSchedule(st)
  {
    assert forall i :: 0 <= i < |a.events| ==> st.events[i] == a.events[i];
  }

  lemma RecorrectedStory() returns (st: Story, n: Ledger)
    ensures st.Told() && Standstill.OneSchedule(st) && st.End() == Session(SETTINGS, n)
    ensures n.state.region.locallyConverged && Visits.InLine(SETTINGS, GlobalPrevious, n)
  {
    var st1, l := ConvergedStory();
    var m;
    m, n := RecorrectedRows(l);
    var st2 := GoesOn(st1, SETTINGS, l, TO_GLOBAL, m);
    st := GoesOn(st2, SETTINGS, m, TO_FINEST, n);
    NoConfigures(st1, st, TO_GLOBAL, TO_FINEST);
  }

  const TO_GLOBAL := Meet(Some(GlobalPrevious), 5)
  const TO_FINEST := Correct(2, Controls(FINEST, true), map[], 6)

  lemma RecorrectedRows(l: Ledger) returns (m: Ledger, n: Ledger)
    requires Sane(l) && Faithful(SETTINGS, l) && TwoShots(l) && NoPending(l.state) && l.state.region.locallyConverged && |l.comparisons| == 1
    ensures Attempt(SETTINGS, l, TO_GLOBAL) == Ok(m) && Attempt(SETTINGS, m, TO_FINEST) == Ok(n)
    ensures n.state.region.locallyConverged && Visits.InLine(SETTINGS, GlobalPrevious, n)
  {
    assert l.run == Run(RunId(1, map[]), BestIncumbent, l.run.space, 0, true) && l.run.space.version == HOME by {
      HomeIsAligned();
    }
    m := Resets(SETTINGS, l, Some(GlobalPrevious), 5);
    MeetingGives(SETTINGS, l, Some(GlobalPrevious), 5);
    n := CorrectsAfterReset(SETTINGS, l, m, GlobalPrevious);
  }

  /** A change of mode and the correction of one shot take a converged run there: no migration is needed. */
  lemma CorrectionLeavesOnlyExclusion() returns (st: Story)
    ensures OnlyExclusionFrees(st)
  {
    var n;
    st, n := RecorrectedStory();
    Standstill.WhenConvergenceHasAnExit(st, GlobalPrevious);
  }

  const WIDER: RecipeDomain := DomainRow(12.0, 6.0, 30.0, 5.0, 250.0)
  const WIDE := SETTINGS.(domain := WIDER)

  /** The wider limits hold every recipe of these stories. */
  lemma WiderHoldsAll(s: Space)
    requires s == HOME_SPACE
    ensures StepsFit(s, WIDER) && WithDomain(s, WIDER).Ok?
    ensures forall t :: t in {CENTRE, FINER, FINEST} ==> Placeable(WithDomain(s, WIDER).value, t)
    ensures OnGrid(WithDomain(s, WIDER).value, CENTRE) && QuantizeObserved(WithDomain(s, WIDER).value, CENTRE) == CENTRE
  {
    HomeIsAligned();
    var grind: Parameter, dose: Parameter, output: Parameter := Axis(-12.0, 12.0, 1.0), Axis(6.0, 30.0, 1.0), Axis(5.0, 250.0, 1.0);
    IntegersAreOnGrid(grind, 0);
    IntegersAreOnGrid(dose, 18);
    IntegersAreOnGrid(output, 36);
    assert WithDomain(s, WIDER) == Ok(Space(grind, dose, output, true, WIDER));
  }

  /** The run went to the wider limits and kept its outline and its convergence. */
  predicate Widened(l: Ledger, m: Ledger, mode: Mode)
  {
    && SameOutline(l.shots, m.shots) && m.state.region.locallyConverged == l.state.region.locallyConverged
    && m.run.mode == mode && m.run.space.version == WIDER && m.run.active && m.run.configuration == 0
  }

  lemma MigratesWider(l: Ledger, mode: Option<Mode>, now: nat) returns (m: Ledger)
    requires Sane(l) && Faithful(SETTINGS, l) && l.run.active && l.run.space == HOME_SPACE && l.run.space.version == HOME
    requires l.shots != [] && l.state.pendingShot.None?
    requires forall i :: 0 <= i < |l.shots| ==> l.shots[i].observed.Some? && l.shots[i].observed.value in {CENTRE, FINER}
    ensures Attempt(WIDE, l, Meet(mode, now)) == Ok(m) && Widened(l, m, if mode.Some? then mode.value else l.run.mode)
  {
    var desired := if mode.Some? then mode.value else l.run.mode;
    m := CanMigrateWider(l, desired, now);
    MigrationWidens(l, m, desired, now);
    MeetMigrates(WIDE, l, mode, now, m);
    MeetingGives(WIDE, l, mode, now);
  }

  lemma MeetMigrates(s: Settings, l: Ledger, mode: Option<Mode>, now: nat, m: Ledger)
    requires FitOf(s, l, mode).Migrated? && MigrateRun(s, l, if mode.Some? then mode.value else l.run.mode, now) == Ok(m)
    ensures CompatibleRun(s, l, mode, now) == Ok(m)
  {
  }

  lemma MeetingGives(s: Settings, l: Ledger, mode: Option<Mode>, now: nat)
    ensures Attempt(s, l, Meet(mode, now)) == CompatibleRun(s, l, mode, now)
  {
  }

  lemma MigrationWidens(l: Ledger, m: Ledger, mode: Mode, now: nat)
    requires Sane(l) && Faithful(SETTINGS, l) && MigrateRun(WIDE, l, mode, now) == Ok(m)
    ensures Widened(l, m, mode)
  {
    assert Faithful(WIDE, l);
    Standstill.MigrationCarriesConvergence(WIDE, l, mode, now);
    var space, rebased, state := MigrationParts(WIDE, l, mode, now);
    RebasedShots(space, l.table, l.shots);
  }

  lemma WiderPlacesAll(l: Ledger)
    requires l.run.space == HOME_SPACE && RecipesStored(l)
    requires forall i :: 0 <= i < |l.shots| ==> l.shots[i].observed.Some? && l.shots[i].observed.value in {CENTRE, FINER}
    ensures StepsFit(l.run.space, WIDER) && WithDomain(l.run.space, WIDER).Ok? && AllPlaceable(WithDomain(l.run.space, WIDER).value, l)
  {
    WiderHoldsAll(l.run.space);
  }

  lemma CanMigrateWider(l: Ledger, mode: Mode, now: nat) returns (m: Ledger)
    requires Sane(l) && Faithful(SETTINGS, l) && l.run.active && l.run.space == HOME_SPACE && l.shots != []
    requires forall i :: 0 <= i < |l.shots| ==> l.shots[i].observed.Some? && l.shots[i].observed.value in {CENTRE, FINER}
    ensures MigrateRun(WIDE, l, mode, now) == Ok(m)
  {
    WiderPlacesAll(l);
    FaithfulCanRebuild(SETTINGS, l);
    Convergence.SameScheduleRebuilds(SETTINGS, WIDE, l);
    MigrationCondition(WIDE, l, mode, now);
    m := MigrateRun(WIDE, l, mode, now).value;
  }

  lemma MigratedStory() returns (st: Story, m: Ledger)
    ensures st.Told() && Standstill.OneSchedule(st) && st.End() == Session(WIDE, m)
    ensures m.state.region.locallyConverged && Visits.InLine(WIDE, GlobalPrevious, m)
  {
    var st1, l := ConvergedStory();
    m := MigratedRows(l);
    var st2 := GoesOnUnder(st1, SETTINGS, l, WIDE);
    st := GoesOn(st2, WIDE, l, TO_GLOBAL, m);
    SameScheduleThroughout(st1, st, TO_GLOBAL);
  }

  lemma MigratedRows(l: Ledger) returns (m: Ledger)
    requires Sane(l) && Faithful(SETTINGS, l) && TwoShots(l) && NoPending(l.state) && l.state.region.locallyConverged
    ensures Attempt(WIDE, l, TO_GLOBAL) == Ok(m)
    ensures m.state.region.locallyConverged && Visits.InLine(WIDE, GlobalPrevious, m)
  {
    TwoShotsObserved(l);
    m := MigratesWider(l, Some(GlobalPrevious), 5);
  }

  lemma TwoShotsObserved(l: Ledger)
    requires TwoShots(l)
    ensures l.shots != [] && l.run.active && l.run.space.version == HOME && l.run.space == HOME_SPACE
    ensures forall i :: 0 <= i < |l.shots| ==> l.shots[i].observed.Some? && l.shots[i].observed.value in {CENTRE, FINER}
  {
    HomeIsAligned();
    assert l.shots == [l.shots[0], l.shots[1]];
  }

  lemma SameScheduleThroughout(a: Story, st: Story, e: Event)
    requires Plain(a.events) && a.settings == SETTINGS && st == Continued(Continued(a, Configure(WIDE)), e) && !e.Configure?
    ensures Standstill.OneSchedule(st)
  {
    assert forall i :: 0 <= i < |a.events| ==> st.events[i] == a.events[i];
  }

  /** So do new limits and a new mode at once. */
  lemma MigrationLeavesOnlyExclusion() returns (st: Story)
    ensures OnlyExclusionFrees(st)
  {
    var m;
    st, m := MigratedStory();
    Standstill.WhenConvergenceHasAnExit(st, GlobalPrevious);
  }

  // ----- no baseline -----

  lemma ExcludesOnlyShot(l: Ledger) returns (m: Ledger)
    requires Sane(l) && Founded(SETTINGS, l, 1) && Matching(l)
    ensures Attempt(SETTINGS, l, Exclude(1, 2)) == Ok(m)
    ensures Unfounded(m) && m.run == l.run && m.table == l.table && m.state.pendingShot.None? && SameObservations(l.shots, m.shots)
    ensures Faithful(SETTINGS, m)
  {
    assert l.shots == [l.shots[0]] && HasShot(l.shots, 1);
    UniqueShot(l.shots, 0);
    SubstituteKeepsOutline(l.shots, 0, l.shots[0].(status := Excluded));
    OnlyShotCanGo(l);
    ExclusionCondition(SETTINGS, l, 1, 2);
    m := ExcludeShot(SETTINGS, l, 1, 2).value;
    ExcludeFrame(SETTINGS, l, 1, 2);
    var i, rows := ExclusionParts(SETTINGS, l, 1, 2);
    ExcludedFaithful(SETTINGS, l, m, i, rows, 2);
    BaselineAt(m.shots);
  }

  lemma OnlyShotCanGo(l: Ledger)
    requires ShotRows(l.shots) && Founded(SETTINGS, l, 1) && FindShot(l.shots, 1) == Some(l.shots[0]) && HasShot(l.shots, 1)
    requires Substitute(l.shots, l.shots[0].(status := Excluded)) == l.shots[0 := l.shots[0].(status := Excluded)]
    ensures CanExclude(SETTINGS, l, 1)
  {
    BaselineAt(l.shots[0 := l.shots[0].(status := Excluded)]);
  }

  /** The run's only shot was excluded, and its baseline is still its only recipe. */
  predicate LostBaseline(m: Ledger, order: Order)
  {
    && Unfounded(m) && m.run == HomeRun(order) && OnlyBaseline(m.table, order) && m.state.pendingShot.None?
    && |m.shots| == 1 && m.shots[0].recipe == m.table.first && m.shots[0].observed == Some(CENTRE)
  }

  lemma UnfoundedStory(order: Order) returns (st: Story, m: Ledger)
    ensures st.Told() && st.End() == Session(SETTINGS, m) && Sane(m) && Faithful(SETTINGS, m) && LostBaseline(m, order)
  {
    var st1, l := FoundedStory(order);
    EveryStoryIsSane(st1);
    m := ExcludesOnlyShot(l);
    st := GoesOn(st1, SETTINGS, l, Exclude(1, 2), m);
    EveryStoryIsSane(st);
  }

  /** A run that was migrated after its only shot was excluded: whether a baseline can be recorded again hangs on which of two identifiers
      sorts first, and a run that got the wrong order has none before it comes home (Recordings.NoBaselineAwayFromHome). */
  lemma MigrationMayLoseTheBaseline(order: Order) returns (st: Story)
    ensures st.Told() && st.End().ledger.run.active && Unfounded(st.End().ledger)
    ensures TakesShots(st.End().ledger) <==> !Away(st.End().ledger)
    ensures TakesShots(st.End().ledger) <==> Precedes(order, RecipeId(WIDER, CENTRE), RecipeId(HOME, CENTRE))
  {
    var st1, m := UnfoundedStory(order);
    var n := WidensUnfounded(m, order);
    var st2 := GoesOnUnder(st1, SETTINGS, m, WIDE);
    st := GoesOn(st2, WIDE, m, Meet(None, 3), n);
    EveryStoryIsSane(st);
    BaselineCondition(n);
  }

  lemma WidensUnfounded(m: Ledger, order: Order) returns (n: Ledger)
    requires Sane(m) && Faithful(SETTINGS, m) && LostBaseline(m, order)
    ensures Attempt(WIDE, m, Meet(None, 3)) == Ok(n) && n.run.active && Unfounded(n)
    ensures Away(n) <==> !Precedes(order, RecipeId(WIDER, CENTRE), RecipeId(HOME, CENTRE))
    ensures !Away(n) ==> QuantizeRecipe(n.run.space, n.table.first.controls) == Ok(n.table.first.controls) && GrindInEnvelope(n.table.first.controls)
  {
    n := CanMigrateWider(m, m.run.mode, 3);
    MeetMigrates(WIDE, m, None, 3, n);
    MeetingGives(WIDE, m, None, 3);
    MigrationWidens(m, n, m.run.mode, 3);
    OutlineDecides(m.shots, n.shots);
    WidensFirst(m, n, order);
  }

  lemma WidensFirst(m: Ledger, n: Ledger, order: Order)
    requires Sane(m) && LostBaseline(m, order) && MigrateRun(WIDE, m, m.run.mode, 3) == Ok(n)
    ensures n.run.space == WithDomain(HOME_SPACE, WIDER).value
    ensures n.table.first ==
      if Precedes(order, RecipeId(WIDER, CENTRE), RecipeId(HOME, CENTRE)) then RecipeId(WIDER, CENTRE) else RecipeId(HOME, CENTRE)
    ensures OnGrid(n.run.space, CENTRE)
  {
    WiderHoldsAll(HOME_SPACE);
    MigrationMovesFirst(WIDE, m, m.run.mode, 3);
    var space, rebased, state := MigrationParts(WIDE, m, m.run.mode, 3);
    OnlyShotDecides(m, space, order, n.table.first);
  }

  lemma OnlyShotDecides(m: Ledger, space: Space, order: Order, first: RecipeId)
    requires LostBaseline(m, order) && space.version == WIDER && QuantizeObserved(space, CENTRE) == CENTRE
    ensures SomeUsurps(m, space) <==> Precedes(order, RecipeId(WIDER, CENTRE), RecipeId(HOME, CENTRE))
    ensures SomeRenews(space, m.table, m.shots, first) ==> first == RecipeId(WIDER, CENTRE)
  {
    assert NewId(space, m.table, m.shots[0]) == RecipeId(WIDER, CENTRE);
    assert Decides(space, m.table, m.shots, 0);
    if Precedes(order, RecipeId(WIDER, CENTRE), RecipeId(HOME, CENTRE)) {
      assert Usurps(m, space, 0);
    }
  }

  // ----- a mismatched observation -----

  /** A dose range that ends between two steps, with the baseline at its end. */
  const UNEVEN := Settings(SCHEDULE, 0, 0, DomainRow(10.0, 6.0, 30.07, 5.0, 250.0))
  const AT_THE_EDGE := Story(UNEVEN, RunId(1, map[]), BestIncumbent, Controls(Triple(0.0, 30.07, 36.0), true), Resolutions(1.0, 0.1, 1.0), 0, [])

  lemma EdgeIsCreated()
    ensures AT_THE_EDGE.Created().Ok?
    ensures var l := AT_THE_EDGE.Created().value;
      && GrindInEnvelope(l.table.first.controls)
      && QuantizeObserved(l.run.space, l.table.first.controls) != l.table.first.controls
  {
    var grind: Parameter, dose: Parameter, output: Parameter := Axis(-10.0, 10.0, 1.0), Axis(6.0, 30.07, 0.1), Axis(5.0, 250.0, 1.0);
    IntegersAreOnGrid(grind, 0);
    IntegersAreOnGrid(output, 36);
    assert Cell(dose, 30.07) == 241;
    assert Quantize(dose, 30.07) == Ok(30.07) && QuantizeObservation(dose, 30.07) == 30.1;
    assert AT_THE_EDGE.Created().value.run.space == Space(grind, dose, output, true, UNEVEN.domain);
  }

  /** The first recorded shot of a run may not match its own observation, and then nothing can be suggested. */
  lemma FirstShotMismatches() returns (st: Story)
    ensures st.Told() && |st.events| == 1 && |st.End().ledger.shots| == 1 && !ObservationsMatch(st.End().ledger)
    ensures forall p, now :: SuggestNext(st.End().settings, st.End().ledger, p, now).Err?
  {
    EdgeIsCreated();
    st := FirstShot(AT_THE_EDGE, 1, 1);
    EveryStoryIsSane(st);
    forall p, now
      ensures SuggestNext(st.End().settings, st.End().ledger, p, now).Err?
    {
      MismatchBlocksSuggestions(st.End().settings, st.End().ledger, p, now);
    }
  }

  // ----- a run that refuses corrections -----

  const RESUME := Reopen(Some(7), 5)

  /** The run was resumed after its last comparison. */
  predicate Reopened(l: Ledger, m: Ledger)
  {
    && m == l.(state := m.state) && NoPending(m.state) && !m.state.region.locallyConverged
    && m.state.previous == l.state.previous && m.state.incumbent == l.state.incumbent && m.state.configuration == l.state.configuration
    && TempoOf(m.state.region) == StartTempo(SCHEDULE) && Some(1) in MarkersOf(m.state.region.transitions)
  }

  lemma Resumes(l: Ledger) returns (m: Ledger)
    requires Inv(l) && Marked(l) && Faithful(SETTINGS, l) && l.run.active && l.run.mode.BestIncumbent?
    requires l.state.region.locallyConverged && NoPending(l.state) && |l.comparisons| == 1 && l.comparisons[0].id == 1
    ensures Attempt(SETTINGS, l, RESUME) == Ok(m) && Reopened(l, m)
  {
    Convergence.ResumeCondition(SETTINGS, l, Some(7), 5);
    var base, center := ResumptionParts(SETTINGS, l, Some(7), 5);
    m := ResumeLocalExploration(SETTINGS, l, Some(7), 5).value;
    MarksOne(l, m, base, center);
  }

  lemma MarksOne(l: Ledger, m: Ledger, base: ShotId, center: Point)
    requires l.comparisons != [] && l.comparisons[|l.comparisons| - 1].id == 1
    requires Resume(SCHEDULE, l.state.region, ClampPoint(center), Some(1), HeadAfter(base, l.comparisons).incumbent, 5, Some(7)) == Ok(m.state.region)
    ensures TempoOf(m.state.region) == StartTempo(SCHEDULE) && !m.state.region.locallyConverged && Some(1) in MarkersOf(m.state.region.transitions)
  {
    var n := |l.state.region.transitions|;
    MarkersAppend(l.state.region.transitions, m.state.region.transitions[n]);
    assert m.state.region.transitions == l.state.region.transitions + [m.state.region.transitions[n]];
  }

  lemma TwoShotsAreReady(s: Settings, l: Ledger)
    requires TwoShots(l) && Matching(l) && NoPending(l.state) && !l.state.region.locallyConverged && l.run.configuration == s.configuration
    ensures Ready(s, l) && OnGrid(l.run.space, FINEST) && !HasShot(l.shots, 3)
  {
    HomeIsAligned();
    assert l.shots == [l.shots[0], l.shots[1]];
    BaselineAt(l.shots);
  }

  /** One comparison, a resumption after it and nothing pending. */
  predicate HasReopened(l: Ledger)
  {
    && TwoShots(l) && Matching(l) && NoPending(l.state) && !l.state.region.locallyConverged && l.state.incumbent.Some?
    && |l.comparisons| == 1 && l.comparisons[0].id == 1 && l.comparisons[0].createdAt == 4 && SuggestedIds(l.suggestions) == {1}
    && TempoOf(l.state.region) == StartTempo(SCHEDULE) && Some(1) in MarkersOf(l.state.region.transitions)
  }

  lemma IsAtHome(l: Ledger)
    requires TwoShots(l)
    ensures l.run == Run(RunId(1, map[]), BestIncumbent, l.run.space, 0, true) && l.run.space.version == HOME
  {
    HomeIsAligned();
  }

  lemma ReopenedRows(l: Ledger) returns (m: Ledger)
    requires HasConverged(l)
    ensures Attempt(SETTINGS, l, RESUME) == Ok(m) && HasReopened(m)
  {
    IsAtHome(l);
    m := Resumes(l);
    MatchingPersists(l, m);
    assert l.state.incumbent.Some? by {
      BaselineAt(l.shots);
      assert l.shots[0].status.Valid?;
    }
  }

  lemma ReopenedStory() returns (st: Story, l: Ledger)
    ensures Ends(st, l) && HasReopened(l)
  {
    var st1, l1 := ConvergedStory();
    l := ReopenedRows(l1);
    st := GoesOn(st1, SETTINGS, l1, RESUME, l);
    StaysPlain(st1, RESUME);
  }

  lemma StaysPlain(st: Story, e: Event)
    requires Plain(st.events) && !e.Configure? && !e.Meet?
    ensures Plain(Continued(st, e).events)
  {
    assert forall i :: 0 <= i < |st.events| ==> Continued(st, e).events[i] == st.events[i];
  }

  const SECOND := Engine.Proposal(2, FINEST, 0, None)

  lemma PulledAgainStory() returns (st: Story, l: Ledger)
    ensures Ends(st, l) && AtInitialLength(SETTINGS, l) && l.run == HOME_RUN && KeyFollows(l, 2, 8)
    ensures |l.comparisons| == 1 && l.comparisons[0].id == 1 && Some(1) in MarkersOf(l.state.region.transitions)
  {
    var st1, l1 := ReopenedStory();
    TwoShotsAreReady(SETTINGS, l1);
    st := NextShot(st1, SECOND, 3, 6);
    l := st.End().ledger;
    LossFollows(l1, l);
    PlainGrows(st1, st);
  }

  lemma LossFollows(l: Ledger, m: Ledger)
    requires HasReopened(l) && Pulled(l, m, SECOND, 3)
    ensures AtInitialLength(SETTINGS, m) && m.run == HOME_RUN && KeyFollows(m, 2, 8)
    ensures |m.comparisons| == 1 && m.comparisons[0].id == 1 && Some(1) in MarkersOf(m.state.region.transitions)
  {
    HomeIsAligned();
  }

  /** A best-incumbent comparison follows the resumption. */
  predicate HasLostAgain(l: Ledger)
  {
    && l.run == HOME_RUN && NoPending(l.state)
    && |l.comparisons| == 2 && l.comparisons[0].id == 1 && l.comparisons[1].mode.BestIncumbent?
    && Some(1) in MarkersOf(l.state.region.transitions)
  }

  lemma LostAgainStory() returns (st: Story, l: Ledger)
    ensures Ends(st, l) && HasLostAgain(l)
  {
    var st1, l1 := PulledAgainStory();
    st := OneLoss(st1, 2, 8);
    l := st.End().ledger;
    StaysPlain(st1, Prefer(Loss(l1), 2, 8));
  }

  /** No shot's recipe can be corrected any more. */
  ghost predicate RefusesCorrections(s: Settings, l: Ledger)
  {
    forall id, controls: Controls, notes, now :: HasShot(l.shots, id) && !SameRecipe(l, id, controls.recipe) ==> CorrectShot(s, l, id, controls, notes, now).Err?
  }

  lemma ResetRefuses(l: Ledger, m: Ledger)
    requires Sane(l) && Faithful(SETTINGS, l) && Sane(m) && Reset(l, m, GlobalPrevious, 0) && HasLostAgain(l)
    ensures RefusesCorrections(SETTINGS, m)
  {
    Convergence.ForgottenCondition(SETTINGS, l, m);
    assert !OnlyGlobalAfterMarks(MarkersOf(l.state.region.transitions).Keys, l.comparisons);
    forall id, controls: Controls, notes, now | HasShot(m.shots, id) && !SameRecipe(m, id, controls.recipe)
      ensures CorrectShot(SETTINGS, m, id, controls, notes, now).Err?
    {
      CorrectionCondition(SETTINGS, m, id, controls, notes, now);
    }
  }

  lemma RefusingStory() returns (st: Story, m: Ledger)
    ensures st.Told() && st.End() == Session(SETTINGS, m) && RefusesCorrections(SETTINGS, m) && m.shots != []
  {
    var st1, l := LostAgainStory();
    EveryStoryIsSane(st1);
    StillFaithfulStory(st1, l);
    m := ResetsToGlobal(l);
    st := GoesOn(st1, SETTINGS, l, Meet(Some(GlobalPrevious), 9), m);
    EveryStoryIsSane(st);
    ResetRefuses(l, m);
    ComparedShotsExist(m);
  }

  lemma ResetsToGlobal(l: Ledger) returns (m: Ledger)
    requires Inv(l) && HasLostAgain(l)
    ensures Attempt(SETTINGS, l, Meet(Some(GlobalPrevious), 9)) == Ok(m) && Reset(l, m, GlobalPrevious, 0)
  {
    HomeIsAligned();
    m := Resets(SETTINGS, l, Some(GlobalPrevious), 9);
    MeetingGives(SETTINGS, l, Some(GlobalPrevious), 9);
  }

  /** A run that was resumed, judged once more and then reconfigured refuses every correction of a recipe. */
  lemma ReconfigurationRefusesCorrections() returns (st: Story)
    ensures st.Told() && st.End().ledger.shots != [] && RefusesCorrections(st.End().settings, st.End().ledger)
  {
    var m;
    st, m := RefusingStory();
  }

  lemma ComparedShotsExist(l: Ledger)
    requires Inv(l) && l.comparisons != []
    ensures l.shots != []
  {
  }

  // ----- an awaited comparison that cannot be judged -----

  const OTHER := SETTINGS.(configuration := 1)

  /** The run is converged in best-incumbent mode while a comparison is awaited: it can be neither judged nor resumed. */
  ghost predicate Blocked(s: Settings, l: Ledger)
  {
    && l.state.pendingShot.Some? && l.state.pendingAnchor.Some? && l.run.active
    && (forall preference, id, now ::
          RecordPreference(s, l, Judgement(l.state.pendingShot.value, l.state.pendingAnchor.value, preference), id, now).Err?)
    && (forall control, now :: ResumeLocalExploration(s, l, control, now).Err?)
  }

  lemma ConvergedAwaitingIsBlocked(s: Settings, l: Ledger)
    requires Inv(l) && Marked(l) && l.run.active && l.run.mode.BestIncumbent? && l.state.region.locallyConverged && l.state.pendingShot.Some?
    ensures Blocked(s, l)
  {
    forall preference, id, now
      ensures RecordPreference(s, l, Judgement(l.state.pendingShot.value, l.state.pendingAnchor.value, preference), id, now).Err?
    {
      Convergence.JudgementCondition(s, l, Judgement(l.state.pendingShot.value, l.state.pendingAnchor.value, preference), id, now);
    }
    forall control, now
      ensures ResumeLocalExploration(s, l, control, now).Err?
    {
      Convergence.ResumeCondition(s, l, control, now);
    }
  }

  /** The reconfigured run awaits a third shot's judgement. */
  lemma ThirdShotStory() returns (st: Story, l: Ledger)
    ensures st.Told() && st.End() == Session(OTHER, l) && l.run == HOME_RUN.(configuration := 1)
    ensures l.state.pendingShot == Some(3) && CanRebuild(OTHER, l) && RebuildsConverged(OTHER, l)
    ensures HasShot(l.shots, 2) && !SameRecipe(l, 2, FINEST)
  {
    var st1, l1, l2 := ResetStory();
    ResetIsReady(l1, l2);
    st := NextShot(st1, SECOND, 3, 6);
    l := st.End().ledger;
    EveryStoryIsSane(st);
    PullRebuilds(l2, l);
  }

  lemma ResetAlike(l: Ledger) returns (m: Ledger)
    requires Inv(l) && l.run == Run(RunId(1, map[]), BestIncumbent, l.run.space, 0, true) && l.run.space.version == HOME && NoPending(l.state)
    ensures Attempt(OTHER, l, Meet(None, 5)) == Ok(m) && Inv(m)
    ensures Reset(l, m, BestIncumbent, 1)
  {
    m := Resets(OTHER, l, None, 5);
    MeetingGives(OTHER, l, None, 5);
  }

  lemma ResetIsReady(l: Ledger, m: Ledger)
    requires TwoShots(l) && Matching(l) && Reset(l, m, BestIncumbent, 1)
    ensures Ready(OTHER, m) && OnGrid(m.run.space, FINEST) && !HasShot(m.shots, 3)
  {
    MatchingPersists(l, m);
    HomeIsAligned();
    assert m.shots == [m.shots[0], m.shots[1]];
    BaselineAt(m.shots);
  }

  lemma ResetRebuilds(l: Ledger, m: Ledger)
    requires HasConverged(l) && Reset(l, m, BestIncumbent, 1)
    ensures CanRebuild(OTHER, m) && RebuildsConverged(OTHER, m)
  {
    Convergence.ForgottenCondition(SETTINGS, l, m);
    Convergence.SameScheduleRebuilds(SETTINGS, OTHER, m);
  }

  lemma ResetStory() returns (st: Story, l: Ledger, m: Ledger)
    ensures st.Told() && st.End() == Session(OTHER, m) && TwoShots(l) && Matching(l) && SuggestedIds(l.suggestions) == {1}
    ensures Reset(l, m, BestIncumbent, 1) && CanRebuild(OTHER, m) && RebuildsConverged(OTHER, m)
  {
    var st1;
    st1, l := ConvergedStory();
    IsAtHome(l);
    m := ResetAlike(l);
    ResetRebuilds(l, m);
    var st2 := GoesOnUnder(st1, SETTINGS, l, OTHER);
    st := GoesOn(st2, OTHER, l, Meet(None, 5), m);
  }

  lemma PullRebuilds(l: Ledger, m: Ledger)
    requires Pulled(l, m, SECOND, 3) && ShotRows(m.shots) && CanRebuild(OTHER, l) && RebuildsConverged(OTHER, l)
    requires |l.shots| == 2 && l.shots[1].id == 2 && l.shots[1].recipe == RecipeId(HOME, FINER)
    requires l.run == HOME_RUN.(configuration := 1)
    ensures CanRebuild(OTHER, m) && RebuildsConverged(OTHER, m)
    ensures HasShot(m.shots, 2) && !SameRecipe(m, 2, FINEST)
  {
    AppendShot(l.shots, m.shots[2]);
    HomeIsAligned();
    assert m.shots[1].id == 2;
    UniqueShot(m.shots, 1);
  }

  /** A reconfigured run awaits a judgement; the correction of an earlier shot converges it again: the judgement is refused until the
      user abstains. */
  lemma CorrectionBlocksTheJudgement() returns (st: Story)
    ensures st.Told() && Blocked(st.End().settings, st.End().ledger)
  {
    var st1, l := ThirdShotStory();
    EveryStoryIsSane(st1);
    var m := ConvergesAwaiting(l);
    st := GoesOn(st1, OTHER, l, TO_FINEST, m);
    EveryStoryIsSane(st);
    ConvergedAwaitingIsBlocked(OTHER, m);
  }

  lemma ConvergesAwaiting(l: Ledger) returns (m: Ledger)
    requires Sane(l) && l.run == HOME_RUN.(configuration := 1) && l.state.pendingShot == Some(3)
    requires CanRebuild(OTHER, l) && RebuildsConverged(OTHER, l) && HasShot(l.shots, 2) && !SameRecipe(l, 2, FINEST)
    ensures Attempt(OTHER, l, TO_FINEST) == Ok(m) && m.state.region.locallyConverged && m.state.pendingShot == Some(3)
    ensures m.run.active && m.run.mode.BestIncumbent?
  {
    HomeIsAligned();
    m := ChangesRecipe(OTHER, l, 2, Controls(FINEST, true), 6);
    CorrectFrame(OTHER, l, 2, Controls(FINEST, true), map[], 6);
    CorrectGives(OTHER, l, 2, Controls(FINEST, true), 6);
  }
}
