/** Live equals replay: the state kept step by step is the one the stored history leads to. */
module Faithfulness {
  import opened Prelude
  import opened RecipeSpace
  import opened RecipeLaws
  import opened Cpbo
  import opened TrustRegions
  import opened TrustRegionLaws
  import opened History
  import opened HistoryLaws
  import opened ReplayLaws
  import opened Ledgers
  import opened Service
  import opened Invariants
  import Engine

  function HeadOf(state: OptimizerState): Option<Head>
  {
    if state.previous.Some? && state.incumbent.Some? then Some(Head(state.previous.value, state.incumbent.value)) else None
  }

  /** What replaying the stored shots, recipes, comparisons and resume markers yields. */
  function ReplayOf(s: Settings, l: Ledger): Result<Rebuilt>
  {
    RebuildHistory(s.schedule, l.state.region, l.shots, l.table.rows, l.comparisons)
  }

  /** The stored incumbent, previous shot and whole trust region are the replayed ones. */
  predicate Faithful(s: Settings, l: Ledger)
  {
    && ReplayOf(s, l) == Ok(Rebuilt(HeadOf(l.state), l.state.region))
    && Stamped(MarkersOf(l.state.region.transitions))
  }

  /** A converged best-incumbent run has nothing pending. */
  predicate Quiet(l: Ledger)
  {
    l.run.mode.BestIncumbent? && l.state.region.locallyConverged ==> NoPending(l.state)
  }

  predicate Live(s: Settings, l: Ledger) { Faithful(s, l) && Quiet(l) }

  lemma HeadsAgree(l: Ledger)
    requires Chained(l)
    ensures HeadOf(l.state) == if Baseline(l.shots).None? then None else Some(HeadAfter(Baseline(l.shots).value, l.comparisons))
  {
  }

  /** Shots that keep their outline and their places lead to the same replay. */
  lemma CentersOfOutline(a: seq<Shot>, b: seq<Shot>, ra: RecipeRows, rb: RecipeRows)
    requires ShotRows(a) && ShotRows(b) && SameOutline(a, b)
    requires forall i :: 0 <= i < |a| ==> PositionIn(ra, a[i].recipe) == PositionIn(rb, b[i].recipe)
    ensures Centers(a, ra) == Centers(b, rb)
  {
    OutlineKeys(a, b);
    forall k | k in ValidById(a)
      ensures Centers(a, ra)[k] == Centers(b, rb)[k]
    {
      var i := ValidAt(a, k);
      ShotInValid(a, i);
      ShotInValid(b, i);
    }
  }

  lemma ValidAt(shots: seq<Shot>, k: ShotId) returns (i: nat)
    requires ShotRows(shots) && k in ValidById(shots)
    ensures i < |shots| && shots[i].id == k && shots[i].status.Valid?
  {
    ValidShots(shots);
    i :| 0 <= i < |shots| && shots[i].id == k && shots[i].status.Valid?;
  }

  lemma RebuildReads(s: Schedule, t: TrustRegion, a: seq<Shot>, b: seq<Shot>, ra: RecipeRows, rb: RecipeRows, cs: seq<Comparison>)
    requires ShotRows(a) && ShotRows(b) && SameOutline(a, b)
    requires forall i :: 0 <= i < |a| ==> PositionIn(ra, a[i].recipe) == PositionIn(rb, b[i].recipe)
    ensures RebuildHistory(s, t, a, ra, cs) == RebuildHistory(s, t, b, rb, cs)
  {
    CentersOfOutline(a, b, ra, rb);
    OutlineDecides(a, b);
  }

  lemma AllShotsPlaced(l: Ledger)
    requires ShotRows(l.shots) && RecipesStored(l)
    ensures AllPlaced(Centers(l.shots, l.table.rows))
  {
    ValidShots(l.shots);
    forall k | k in Centers(l.shots, l.table.rows)
      ensures Centers(l.shots, l.table.rows)[k].Some?
    {
      var i :| 0 <= i < |l.shots| && l.shots[i].id == k && l.shots[i].status.Valid?;
    }
  }

  // ----- create, suggest, abstain -----

  lemma InitializeIsLive(s: Settings, id: RunId, mode: Mode, baseline: Controls, steps: Resolutions, now: nat)
    requires Initialize(s, id, mode, baseline, steps, now).Ok?
    ensures Live(s, Initialize(s, id, mode, baseline, steps, now).value)
  {
  }

  /** Steps that keep comparisons, region and heads, the outline of the shots and their places. */
  lemma StillFaithful(s: Settings, l: Ledger, m: Ledger)
    requires Faithful(s, l) && ShotRows(l.shots) && ShotRows(m.shots) && SameOutline(l.shots, m.shots)
    requires forall i :: 0 <= i < |l.shots| ==> PositionIn(l.table.rows, l.shots[i].recipe) == PositionIn(m.table.rows, m.shots[i].recipe)
    requires m.comparisons == l.comparisons && m.state.region == l.state.region
    requires m.state.previous == l.state.previous && m.state.incumbent == l.state.incumbent
    ensures Faithful(s, m)
  {
    RebuildReads(s.schedule, l.state.region, l.shots, m.shots, l.table.rows, m.table.rows, l.comparisons);
  }

  lemma SuggestionStaysFaithful(s: Settings, t: Settings, l: Ledger, p: Option<Engine.Proposal>, now: nat)
    requires Inv(l) && Faithful(t, l) && SuggestNext(s, l, p, now).Ok?
    ensures Faithful(t, SuggestNext(s, l, p, now).value.0)
  {
    SuggestionParts(s, l, p, now);
    if l.state.pendingRecipe.None? {
      InsertedRecipe(l.table, Engine.Suggest(s.configuration, l, p, now).value.suggestion.recipe);
      StillFaithful(t, l, SuggestNext(s, l, p, now).value.0);
    }
  }

  lemma SuggestionStaysLive(s: Settings, l: Ledger, p: Option<Engine.Proposal>, now: nat)
    requires Inv(l) && Live(s, l) && SuggestNext(s, l, p, now).Ok?
    ensures Live(s, SuggestNext(s, l, p, now).value.0)
  {
    SuggestionStaysFaithful(s, s, l, p, now);
    SuggestionParts(s, l, p, now);
  }

  lemma AbstentionStaysLive(s: Settings, l: Ledger, newShot: ShotId, anchor: ShotId, now: nat)
    requires Inv(l) && Live(s, l) && RecordAbstention(l, newShot, anchor, now).Ok?
    ensures Live(s, RecordAbstention(l, newShot, anchor, now).value)
  {
    AbstentionStaysFaithful(s, l, newShot, anchor, now);
    var i := AbstentionParts(l, newShot, anchor, now);
  }

  lemma AbstentionStaysFaithful(s: Settings, l: Ledger, newShot: ShotId, anchor: ShotId, now: nat)
    requires Inv(l) && Faithful(s, l) && RecordAbstention(l, newShot, anchor, now).Ok?
    ensures Faithful(s, RecordAbstention(l, newShot, anchor, now).value)
  {
    var i := AbstentionParts(l, newShot, anchor, now);
    if l.shots[i].abstention.None? {
      AbstainedFaithful(s, l, RecordAbstention(l, newShot, anchor, now).value, i, Abstention(anchor, now));
    }
  }

  lemma AbstainedFaithful(s: Settings, l: Ledger, m: Ledger, i: nat, entry: Abstention)
    requires Inv(l) && Faithful(s, l) && i < |l.shots|
    requires m.shots == l.shots[i := l.shots[i].(abstention := Some(entry))] && m.table == l.table
    requires m.comparisons == l.comparisons && m.state.region == l.state.region
    requires m.state.previous == l.state.previous && m.state.incumbent == l.state.incumbent
    ensures Faithful(s, m)
  {
    SubstituteKeepsOutline(l.shots, i, m.shots[i]);
    StillFaithful(s, l, m);
  }

  // ----- record shot -----

  lemma ShotStaysLive(s: Settings, l: Ledger, r: ShotReport, deviate: bool, now: nat)
    requires Inv(l) && Live(s, l) && RecordShot(l, r, deviate, now).Ok?
    ensures Live(s, RecordShot(l, r, deviate, now).value.0)
  {
    ShotStaysFaithful(s, l, r, deviate, now);
    RecordedParts(l, r, deviate, now);
  }

  lemma ShotStaysFaithful(s: Settings, l: Ledger, r: ShotReport, deviate: bool, now: nat)
    requires Inv(l) && Faithful(s, l) && RecordShot(l, r, deviate, now).Ok?
    ensures Faithful(s, RecordShot(l, r, deviate, now).value.0)
  {
    RecordedParts(l, r, deviate, now);
    ShotKeeps(l, r, deviate, now);
    var (m, shot) := RecordShot(l, r, deviate, now).value;
    var recipe := CanonicalRecipe(l.run, r.controls, now).value;
    CreateIsCanonical(l.run.space, r.controls.recipe, now);
    AppendedFaithful(s, l, m, shot, recipe, now);
  }

  lemma AppendedFaithful(s: Settings, l: Ledger, m: Ledger, shot: Shot, recipe: RecipePoint, now: nat)
    requires Inv(l) && Inv(m) && Faithful(s, l) && ShotAppended(l, m, shot, recipe, now) && InUnitCube(recipe.position)
    ensures Faithful(s, m)
  {
    AppendShot(l.shots, shot);
    InsertedRecipe(l.table, recipe);
    AppendedCenters(l, m, shot);
    HeadsAgree(l);
    HeadsAgree(m);
    if Baseline(l.shots).Some? {
      var base, markers := Baseline(l.shots).value, MarkersOf(l.state.region.transitions);
      var p, q := Centers(l.shots, l.table.rows), Centers(m.shots, m.table.rows);
      ReplayReads(s.schedule, p, q, markers, markers, StartAt(s.schedule, base, p[base].value), l.comparisons);
    } else if shot.status.Valid? {
      ClampedIsInside(recipe.position);
    }
  }

  lemma AppendedCenters(l: Ledger, m: Ledger, shot: Shot)
    requires ShotRows(l.shots) && ShotRows(m.shots) && RecipesStored(l) && m.shots == l.shots + [shot] && shot.recipe in m.table.rows
    requires forall k :: k in l.table.rows ==> k in m.table.rows && m.table.rows[k] == l.table.rows[k]
    ensures var p, q := Centers(l.shots, l.table.rows), Centers(m.shots, m.table.rows);
      && (forall k :: k in p ==> k in q && p[k] == q[k])
      && (shot.status.Valid? ==> shot.id in q && q[shot.id] == Some(m.table.rows[shot.recipe].position))
  {
    AppendShot(l.shots, shot);
    ValidShots(l.shots);
    ValidShots(m.shots);
    var p, q := Centers(l.shots, l.table.rows), Centers(m.shots, m.table.rows);
    forall k | k in p
      ensures k in q && p[k] == q[k]
    {
      var i :| 0 <= i < |l.shots| && l.shots[i].id == k && l.shots[i].status.Valid?;
      assert m.shots[i] == l.shots[i] && m.shots[|l.shots|] == shot;
    }
  }

  // ----- prefer -----

  lemma PreferenceStaysLive(s: Settings, l: Ledger, j: Judgement, id: ComparisonId, now: nat)
    requires Inv(l) && Live(s, l) && KeyFollows(l, id, now) && RecordPreference(s, l, j, id, now).Ok?
    ensures Live(s, RecordPreference(s, l, j, id, now).value)
  {
    if l.state.pendingShot == Some(j.newShot) {
      var c, k := PreferenceParts(s, l, j, id, now);
      ComparedKeeps(s, l, RecordPreference(s, l, j, id, now).value, c, k, now);
      ComparedFaithful(s, l, RecordPreference(s, l, j, id, now).value, c, k, now);
    }
  }

  lemma ComparedFaithful(s: Settings, l: Ledger, m: Ledger, c: Comparison, k: nat, now: nat)
    requires Inv(l) && Inv(m) && Faithful(s, l) && ComparisonAppended(s, l, m, c, k, now)
    ensures Faithful(s, m) && NoPending(m.state)
  {
    var base, markers := Baseline(l.shots).value, MarkersOf(l.state.region.transitions);
    var p := Centers(l.shots, l.table.rows);
    var start := StartAt(s.schedule, base, p[base].value);
    HeadsAgree(l);
    HeadsAgree(m);
    HeadAppend(base, l.comparisons, c);
    RebuildIsProjection(s.schedule, l.state.region, l.shots, l.table.rows, l.comparisons);
    ComparedPlaces(l, c);
    ReplayAppend(s.schedule, p, markers, start, l.comparisons, c);
    JudgeMarkers(s.schedule, l.state.region, c, p[c.newShot], m.state.incumbent);
    assert Some(c.id) !in markers;
  }

  /** Both compared shots are placed, and the new one where its recipe lies. */
  lemma ComparedPlaces(l: Ledger, c: Comparison)
    requires Inv(l) && l.state.pendingShot == Some(c.newShot) && l.state.pendingAnchor == Some(c.anchor)
    ensures var p := Centers(l.shots, l.table.rows);
      && c.newShot in p && c.anchor in p && HasShot(l.shots, c.newShot)
      && var shot := FindShot(l.shots, c.newShot).value;
         shot.recipe in l.table.rows && p[c.newShot] == Some(l.table.rows[shot.recipe].position)
  {
    ValidShots(l.shots);
    var i :| 0 <= i < |l.shots| && l.shots[i].id == c.newShot && l.shots[i].status.Valid?;
    UniqueShot(l.shots, i);
  }

  // ----- resume -----

  /** The marker of a resumption, on top of the markers there were. */
  lemma ResumptionStaysLive(s: Settings, l: Ledger, control: Option<ControlId>, now: nat)
    requires Inv(l) && Live(s, l) && now > 0 && ResumeLocalExploration(s, l, control, now).Ok?
    ensures Live(s, ResumeLocalExploration(s, l, control, now).value)
  {
    var m := ResumeLocalExploration(s, l, control, now).value;
    if l.state.region.locallyConverged {
      var base, center := ResumptionParts(s, l, control, now);
      HeadsAgree(l);
      var n := |l.comparisons| - 1;
      ResumedFaithful(s, l, m, base, l.comparisons[..n], l.comparisons[n], center, control, now);
    }
  }

  /** A run converges only after a comparison that no marker follows yet. */
  lemma ConvergedAfterUnmarked(s: Settings, l: Ledger)
    requires Inv(l) && Faithful(s, l) && l.state.region.locallyConverged
    ensures Baseline(l.shots).Some? && l.comparisons != []
    ensures Some(l.comparisons[|l.comparisons| - 1].id) !in MarkersOf(l.state.region.transitions)
  {
    var base, markers := Baseline(l.shots).value, MarkersOf(l.state.region.transitions);
    var p := Centers(l.shots, l.table.rows);
    var start := StartAt(s.schedule, base, p[base].value);
    assert Replay(s.schedule, p, markers, start, l.comparisons).value.region == l.state.region;
    if l.comparisons != [] {
      var r := Replay(s.schedule, p, markers, start, l.comparisons[..|l.comparisons| - 1]).value;
      assert ReplayStep(s.schedule, p, markers, r, l.comparisons[|l.comparisons| - 1]).value.region == l.state.region;
    }
  }

  /** What a resumption writes, in terms of the replayed history. */
  lemma ResumptionParts(s: Settings, l: Ledger, control: Option<ControlId>, now: nat) returns (base: ShotId, center: Point)
    requires Inv(l) && Faithful(s, l) && l.state.region.locallyConverged && ResumeLocalExploration(s, l, control, now).Ok?
    ensures Baseline(l.shots) == Some(base) && l.comparisons != []
    ensures var m := ResumeLocalExploration(s, l, control, now).value;
      var inc := HeadAfter(base, l.comparisons).incumbent;
      && inc in Centers(l.shots, l.table.rows) && Centers(l.shots, l.table.rows)[inc] == Some(center)
      && m == l.(state := l.state.(region := m.state.region, updatedAt := now))
      && Resume(s.schedule, l.state.region, ClampPoint(center), Some(l.comparisons[|l.comparisons| - 1].id), inc, now, control) == Ok(m.state.region)
    ensures NoPending(l.state)
  {
    ConvergedAfterUnmarked(s, l);
    base := Baseline(l.shots).value;
    var inc := HeadAfter(base, l.comparisons).incumbent;
    BaselineIsFirst(l.shots);
    ChainIsValid(l.run.id, Ranks(l.shots), base, l.comparisons);
    var i := ValidAt(l.shots, inc);
    ShotInValid(l.shots, i);
    UniqueShot(l.shots, i);
    center := l.table.rows[l.shots[i].recipe].position;
  }

  lemma ResumedFaithful(s: Settings, l: Ledger, m: Ledger, base: ShotId, init: seq<Comparison>, c: Comparison, center: Point,
                        control: Option<ControlId>, now: nat)
    requires Inv(l) && Faithful(s, l) && now > 0 && l.state.region.locallyConverged
    requires Baseline(l.shots) == Some(base) && l.comparisons != [] && init == l.comparisons[..|l.comparisons| - 1] && c == l.comparisons[|l.comparisons| - 1]
    requires m == l.(state := l.state.(region := m.state.region, updatedAt := now))
    requires HeadOf(l.state) == Some(HeadAfter(base, l.comparisons))
    requires var inc := HeadAfter(base, l.comparisons).incumbent;
      && inc in Centers(l.shots, l.table.rows) && Centers(l.shots, l.table.rows)[inc] == Some(center)
      && Resume(s.schedule, l.state.region, ClampPoint(center), Some(c.id), inc, now, control) == Ok(m.state.region)
    ensures Faithful(s, m) && !m.state.region.locallyConverged
  {
    var before, after := MarkersOf(l.state.region.transitions), MarkersOf(m.state.region.transitions);
    var p := Centers(l.shots, l.table.rows);
    ConvergedAfterUnmarked(s, l);
    ResumedMarkers(s, l.state.region, m.state.region, center, c.id, HeadAfter(base, l.comparisons).incumbent, now, control);
    ReplayHead(s.schedule, p, before, base, p[base].value, init);
    ResumedReplay(s.schedule, p, before, after, StartAt(s.schedule, base, p[base].value), init, c, l.state.region, m.state.region, center, control, now, l.comparisons);
  }

  lemma ResumedMarkers(s: Settings, t: TrustRegion, u: TrustRegion, center: Point, id: ComparisonId, inc: ShotId, now: nat, control: Option<ControlId>)
    requires Resume(s.schedule, t, ClampPoint(center), Some(id), inc, now, control) == Ok(u)
    requires DistinctMarkers(t.transitions) && Some(id) !in MarkersOf(t.transitions)
    ensures DistinctMarkers(u.transitions) && MarkersOf(u.transitions) == MarkersOf(t.transitions)[Some(id) := Marker(Some(now), control)]
  {
    MarkersAppend(t.transitions, u.transitions[|t.transitions|]);
    assert u.transitions == t.transitions + [u.transitions[|t.transitions|]];
  }

  /** Adding a marker for the last comparison turns the replay into the resumed one. */
  lemma ResumedReplay(s: Schedule, p: Places, before: Markers, after: Markers, start: Replayed, init: seq<Comparison>, c: Comparison,
                      t: TrustRegion, u: TrustRegion, center: Point, control: Option<ControlId>, now: nat, all: seq<Comparison>)
    requires all != [] && init == all[..|all| - 1] && c == all[|all| - 1] && DistinctIds(all) && now > 0
    requires Some(c.id) !in before && after == before[Some(c.id) := Marker(Some(now), control)]
    requires Replay(s, p, before, start, all).Ok? && Replay(s, p, before, start, all).value.region == t && t.locallyConverged
    requires var inc := Replay(s, p, before, start, all).value.head.incumbent;
      inc in p && p[inc] == Some(center) && Resume(s, t, ClampPoint(center), Some(c.id), inc, now, control) == Ok(u)
    ensures Replay(s, p, after, start, all) == Ok(Replayed(Replay(s, p, before, start, all).value.head, u))
  {
    NamedSplit(all);
    ReplayReads(s, p, p, before, after, start, init);
  }

  // ----- correct, exclude, migrate -----

  /** A state that was rebuilt is the replay of the rows it was rebuilt for. */
  lemma RebuiltIsFaithful(s: Settings, t: TrustRegion, m: Ledger, rows: RecipeRows)
    requires ShotRows(m.shots) && Chained(m) && DistinctIds(m.comparisons) && Stamped(MarkersOf(t.transitions))
    requires RebuildHistory(s.schedule, t, m.shots, rows, m.comparisons).Ok?
    requires m.state.region == RebuildHistory(s.schedule, t, m.shots, rows, m.comparisons).value.region
    requires forall i :: 0 <= i < |m.shots| ==> PositionIn(rows, m.shots[i].recipe) == PositionIn(m.table.rows, m.shots[i].recipe)
    ensures Faithful(s, m)
  {
    RebuildReads(s.schedule, t, m.shots, m.shots, rows, m.table.rows, m.comparisons);
    RebuildIsProjection(s.schedule, t, m.shots, m.table.rows, m.comparisons);
    HeadsAgree(m);
  }

  lemma {:induction false} CollectedRecipes(t: RecipeTable, start: RecipeRows, shots: seq<Shot>, except: Option<ShotId>)
    requires CollectRecipes(t, start, shots, except).Ok?
    ensures var rows := CollectRecipes(t, start, shots, except).value;
      && (forall i :: 0 <= i < |shots| && except != Some(shots[i].id) ==>
            shots[i].recipe in t.rows && shots[i].recipe in rows && rows[shots[i].recipe] == t.rows[shots[i].recipe])
      && (forall k :: k in start ==> k in rows && (rows[k] == start[k] || (k in t.rows && rows[k] == t.rows[k])))
  {
    if shots != [] {
      CollectedRecipes(t, start, shots[..|shots| - 1], except);
    }
  }

  lemma CorrectedPlaces(l: Ledger, m: Ledger, i: nat, recipe: RecipePoint, rows: RecipeRows)
    requires RecipesStored(l) && ShotRows(m.shots) && i < |m.shots| && |l.shots| == |m.shots| && m.shots == l.shots[i := m.shots[i]]
    requires m.shots[i].recipe == recipe.id && InsertRecipe(l.table, recipe) == Ok(m.table)
    requires CollectRecipes(l.table, map[recipe.id := recipe], m.shots, Some(m.shots[i].id)) == Ok(rows)
    ensures forall j :: 0 <= j < |m.shots| ==> PositionIn(rows, m.shots[j].recipe) == PositionIn(m.table.rows, m.shots[j].recipe)
  {
    InsertedRecipe(l.table, recipe);
    CollectedRecipes(l.table, map[recipe.id := recipe], m.shots, Some(m.shots[i].id));
  }

  lemma CorrectionStaysLive(s: Settings, l: Ledger, id: ShotId, controls: Controls, notes: map<nat, nat>, now: nat)
    requires Inv(l) && Live(s, l) && CorrectShot(s, l, id, controls, notes, now).Ok?
    ensures Live(s, CorrectShot(s, l, id, controls, notes, now).value.0)
  {
    CorrectionKeeps(s, l, id, controls, notes, now);
    var i, recipe := CorrectionRecord(s, l, id, controls, notes, now);
    CorrectedStaysLive(s, l, CorrectShot(s, l, id, controls, notes, now).value.0, i, recipe, now);
  }

  lemma CorrectedStaysLive(s: Settings, l: Ledger, m: Ledger, i: nat, recipe: RecipePoint, now: nat)
    requires Inv(l) && Inv(m) && Live(s, l) && Corrected(s, l, m, i, recipe, now)
    ensures Live(s, m)
  {
    if recipe.id == l.shots[i].recipe {
      InsertedRecipe(l.table, recipe);
      StillFaithful(s, l, m);
    } else {
      var rows := CollectRecipes(l.table, map[recipe.id := recipe], m.shots, Some(m.shots[i].id)).value;
      CorrectedPlaces(l, m, i, recipe, rows);
      RebuiltIsFaithful(s, l.state.region, m, rows);
      OutlineDecides(l.shots, m.shots);
      RebuiltMarkers(s, l.state.region, m, rows);
      CorrectedQuiet(s, l, m);
    }
  }

  /** A faithful region and its rebuilt successor are on the same schedule, wherever the shots moved. */
  lemma SameScheduleAfterMove(s: Settings, l: Ledger, m: Ledger)
    requires Inv(l) && Inv(m) && Faithful(s, l) && Faithful(s, m)
    requires SameOutline(l.shots, m.shots) && m.comparisons == l.comparisons
    requires MarkersOf(m.state.region.transitions) == MarkersOf(l.state.region.transitions)
    ensures SameSchedule(l.state.region, m.state.region)
  {
    OutlineDecides(l.shots, m.shots);
    if Baseline(l.shots).Some? {
      var base, markers := Baseline(l.shots).value, MarkersOf(l.state.region.transitions);
      var p, q := Centers(l.shots, l.table.rows), Centers(m.shots, m.table.rows);
      AllShotsPlaced(l);
      AllShotsPlaced(m);
      ReplayIgnoresPlaces(s.schedule, p, q, markers, base, p[base].value, q[base].value, l.comparisons);
    } else {
      SameUpToCentre(l.state.region, m.state.region);
    }
  }

  lemma RebuiltMarkers(s: Settings, t: TrustRegion, m: Ledger, rows: RecipeRows)
    requires DistinctIds(m.comparisons) && Stamped(MarkersOf(t.transitions))
    requires RebuildHistory(s.schedule, t, m.shots, rows, m.comparisons).Ok?
    requires m.state.region == RebuildHistory(s.schedule, t, m.shots, rows, m.comparisons).value.region
    requires Baseline(m.shots).None? ==> t.transitions == []
    ensures MarkersOf(m.state.region.transitions) == MarkersOf(t.transitions)
  {
    RebuildIsProjection(s.schedule, t, m.shots, rows, m.comparisons);
  }

  lemma CorrectedQuiet(s: Settings, l: Ledger, m: Ledger)
    requires Inv(l) && Inv(m) && Live(s, l) && Faithful(s, m)
    requires SameOutline(l.shots, m.shots) && m.comparisons == l.comparisons && m.run == l.run
    requires MarkersOf(m.state.region.transitions) == MarkersOf(l.state.region.transitions)
    requires NoPending(l.state) ==> NoPending(m.state)
    ensures Quiet(m)
  {
    SameScheduleAfterMove(s, l, m);
    SameUpToCentre(l.state.region, m.state.region);
  }

  lemma ExclusionStaysLive(s: Settings, l: Ledger, id: ShotId, now: nat)
    requires Inv(l) && Live(s, l) && ExcludeShot(s, l, id, now).Ok?
    ensures Live(s, ExcludeShot(s, l, id, now).value)
  {
    if !FindShot(l.shots, id).value.status.Excluded? {
      var m := ExcludeShot(s, l, id, now).value;
      var i, rows := ExclusionParts(s, l, id, now);
      ExcludedFaithful(s, l, m, i, rows, now);
    }
  }

  /** Exclusion leaves the replay of what it kept, whether or not the run was faithful before. */
  lemma {:induction false} ExcludedFaithful(s: Settings, l: Ledger, m: Ledger, i: nat, rows: RecipeRows, now: nat)
    requires Inv(l) && ShotExcluded(s, l, m, i, rows, now) && Stamped(MarkersOf(l.state.region.transitions))
    ensures Faithful(s, m) && NoPending(m.state)
  {
    ExcludedRows(s, l, m, i, rows, now);
    CollectedRecipes(l.table, map[], m.shots, None);
    RebuiltIsFaithful(s, l.state.region, m, rows);
  }

  lemma MigrationStaysLive(s: Settings, l: Ledger, mode: Mode, now: nat)
    requires Inv(l) && Stamped(MarkersOf(l.state.region.transitions)) && MigrateRun(s, l, mode, now).Ok?
    ensures Live(s, MigrateRun(s, l, mode, now).value)
  {
    var m := MigrateRun(s, l, mode, now).value;
    var space, rebased, state := MigrationParts(s, l, mode, now);
    MovedKeeps(s, l, m, mode, space, rebased, state, now);
    MovedFaithful(s, l, m, mode, space, rebased, state, now);
  }

  lemma MovedFaithful(s: Settings, l: Ledger, m: Ledger, mode: Mode, space: Space, rebased: Rebased, state: OptimizerState, now: nat)
    requires Inv(l) && Inv(m) && Stamped(MarkersOf(l.state.region.transitions)) && Moved(s, l, m, mode, space, rebased, state, now)
    ensures Faithful(s, m) && NoPending(m.state)
  {
    RebasedShots(space, l.table, l.shots);
    forall i | 0 <= i < |m.shots|
      ensures PositionIn(RowsOf(rebased.recipes), m.shots[i].recipe) == PositionIn(m.table.rows, m.shots[i].recipe)
    {
      RebasedPlace(space, l.table, m.table, l.shots, rebased, i);
    }
    RebuiltIsFaithful(s, l.state.region, m, RowsOf(rebased.recipes));
  }

  lemma RebasedPlace(space: Space, t: RecipeTable, u: RecipeTable, shots: seq<Shot>, rebased: Rebased, i: nat)
    requires RebaseShots(space, t, shots) == Ok(rebased) && InsertRecipes(t, rebased.recipes) == Ok(u)
    requires t.first in t.rows && forall k :: k in t.rows ==> t.rows[k].id == k
    requires i < |shots| && |rebased.shots| == |shots|
    ensures shots[i].recipe in t.rows
    ensures PositionIn(RowsOf(rebased.recipes), rebased.shots[i].recipe) == PositionIn(u.rows, rebased.shots[i].recipe)
    ensures PositionIn(u.rows, rebased.shots[i].recipe) ==
      Some(NormalizeObservation(space, QuantizeObserved(space, ObservedOf(t, shots[i]))))
  {
    RebasedShots(space, t, shots);
    RebasedAt(space, t, shots, i);
    InsertedRecipes(t, rebased.recipes);
    RowsHold(rebased.recipes);
  }

  /** Every way of meeting the settings except a reconfiguration keeps the run live. */
  lemma CompatibleStaysLive(s: Settings, l: Ledger, mode: Option<Mode>, now: nat)
    requires Inv(l) && Live(s, l) && CompatibleRun(s, l, mode, now).Ok? && !FitOf(s, l, mode).Reconfigured?
    ensures Live(s, CompatibleRun(s, l, mode, now).value)
  {
    var desired := if mode.Some? then mode.value else l.run.mode;
    match FitOf(s, l, mode)
    case AsItIs =>
    case Retired =>
    case Migrated => MigrationStaysLive(s, l, desired, now);
  }
}
