/** What stays true of the resume markers and of pending work in every run, reconfigured or not. */
module Markings {
  import opened Prelude
  import opened RecipeSpace
  import opened Cpbo
  import opened TrustRegions
  import opened TrustRegionLaws
  import opened History
  import opened HistoryLaws
  import opened ReplayLaws
  import opened Ledgers
  import opened Service
  import opened Invariants
  import opened Faithfulness
  import opened Frames
  import Engine

  /** Markers are stamped, distinct and name stored comparisons; a converged region ends with a comparison no marker follows. */
  predicate MarkersFit(t: TrustRegion, cs: seq<Comparison>)
  {
    && Stamped(MarkersOf(t.transitions)) && DistinctMarkers(t.transitions) && MarkersOf(t.transitions).Keys <= Named(cs)
    && (t.locallyConverged ==> cs != [] && Some(cs[|cs| - 1].id) !in MarkersOf(t.transitions))
  }

  /** A converged best-incumbent run holds no suggestion that was not pulled. */
  predicate Held(l: Ledger)
  {
    l.run.mode.BestIncumbent? && l.state.region.locallyConverged ==> l.state.pendingRecipe.None? || l.state.pendingShot.Some?
  }

  predicate Marked(l: Ledger) { MarkersFit(l.state.region, l.comparisons) && Held(l) }

  // ----- markers of judged, resumed and rebuilt regions -----

  lemma AnnotateKeepsMarkers(t: TrustRegion, c: Comparison, incumbent: Option<ShotId>)
    requires t.transitions != [] && !t.transitions[|t.transitions| - 1].action.Resumed?
    ensures var r := Annotate(t, c, incumbent);
      && r.Ok? && MarkersOf(r.value.transitions) == MarkersOf(t.transitions) && (DistinctMarkers(r.value.transitions) <==> DistinctMarkers(t.transitions))
  {
    var n := |t.transitions| - 1;
    MarkersAppend(t.transitions[..n], t.transitions[n]);
    assert t.transitions == t.transitions[..n] + [t.transitions[n]];
    MarkersAppend(t.transitions[..n], Annotate(t, c, incumbent).value.transitions[n]);
  }

  lemma UpdateKeepsMarkers(s: Schedule, t: TrustRegion, preference: Preference, x: Point)
    requires Update(s, t, preference, x).Ok?
    ensures var u := Update(s, t, preference, x).value;
      && u.transitions != [] && !u.transitions[|u.transitions| - 1].action.Resumed?
      && MarkersOf(u.transitions) == MarkersOf(t.transitions) && (DistinctMarkers(u.transitions) <==> DistinctMarkers(t.transitions))
  {
    MarkersAppend(t.transitions, Update(s, t, preference, x).value.transitions[|t.transitions|]);
  }

  lemma JudgedMarkers(s: Schedule, t: TrustRegion, c: Comparison, x: Point, incumbent: Option<ShotId>)
    requires Judge(s, t, c, Some(x), incumbent).Ok?
    ensures var u := Judge(s, t, c, Some(x), incumbent).value;
      MarkersOf(u.transitions) == MarkersOf(t.transitions) && (DistinctMarkers(u.transitions) <==> DistinctMarkers(t.transitions))
  {
    if c.mode.BestIncumbent? {
      UpdateKeepsMarkers(s, t, c.preference, ClampPoint(x));
      AnnotateKeepsMarkers(Update(s, t, c.preference, ClampPoint(x)).value, c, incumbent);
    }
  }

  lemma JudgedFits(s: Schedule, t: TrustRegion, cs: seq<Comparison>, c: Comparison, x: Point, incumbent: Option<ShotId>)
    requires MarkersFit(t, cs) && Judge(s, t, c, Some(x), incumbent).Ok?
    requires forall i :: 0 <= i < |cs| ==> cs[i].id != c.id
    ensures MarkersFit(Judge(s, t, c, Some(x), incumbent).value, cs + [c])
  {
    JudgedMarkers(s, t, c, x, incumbent);
    NamedAppend(cs, c);
  }

  lemma ResumedFits(s: Schedule, t: TrustRegion, cs: seq<Comparison>, center: Point, incumbent: ShotId, now: nat, control: Option<ControlId>)
    requires MarkersFit(t, cs) && t.locallyConverged && now > 0
    requires Resume(s, t, center, Some(cs[|cs| - 1].id), incumbent, now, control).Ok?
    ensures MarkersFit(Resume(s, t, center, Some(cs[|cs| - 1].id), incumbent, now, control).value, cs)
  {
    var u := Resume(s, t, center, Some(cs[|cs| - 1].id), incumbent, now, control).value;
    MarkersAppend(t.transitions, u.transitions[|t.transitions|]);
    assert u.transitions == t.transitions + [u.transitions[|t.transitions|]];
    NamedSplit(cs);
  }

  /** A replay that ends converged ends with a comparison no marker follows. */
  lemma RebuiltFits(s: Schedule, t: TrustRegion, shots: seq<Shot>, rows: RecipeRows, cs: seq<Comparison>)
    requires RebuildHistory(s, t, shots, rows, cs).Ok? && DistinctIds(cs) && Stamped(MarkersOf(t.transitions))
    ensures MarkersFit(RebuildHistory(s, t, shots, rows, cs).value.region, cs)
  {
    RebuildIsProjection(s, t, shots, rows, cs);
    var b := RebuildHistory(s, t, shots, rows, cs).value;
    if Baseline(shots).Some? {
      var base, m, p := Baseline(shots).value, MarkersOf(t.transitions), Centers(shots, rows);
      var start := StartAt(s, base, p[base].value);
      assert Replay(s, p, m, start, cs).value.region == b.region;
      if cs != [] {
        var r := Replay(s, p, m, start, cs[..|cs| - 1]).value;
        assert ReplayStep(s, p, m, r, cs[|cs| - 1]).value.region == b.region;
      }
    }
  }

  // ----- each use case -----

  lemma JudgeStaysMarked(s: Settings, l: Ledger, j: Judgement, id: ComparisonId, now: nat)
    requires Inv(l) && Marked(l) && KeyFollows(l, id, now) && RecordPreference(s, l, j, id, now).Ok?
    ensures Marked(RecordPreference(s, l, j, id, now).value)
  {
    if l.state.pendingShot == Some(j.newShot) {
      var c, k := PreferenceParts(s, l, j, id, now);
      var m := RecordPreference(s, l, j, id, now).value;
      JudgedFits(s.schedule, l.state.region, l.comparisons, c, l.table.rows[FindShot(l.shots, c.newShot).value.recipe].position, m.state.incumbent);
    }
  }

  lemma ResumeStaysMarked(s: Settings, l: Ledger, control: Option<ControlId>, now: nat)
    requires Marked(l) && now > 0 && ResumeLocalExploration(s, l, control, now).Ok?
    ensures Marked(ResumeLocalExploration(s, l, control, now).value)
  {
    if l.state.region.locallyConverged {
      var shot := FindShot(l.shots, l.state.incumbent.value).value;
      ResumedFits(s.schedule, l.state.region, l.comparisons, ClampPoint(l.table.rows[shot.recipe].position), l.state.incumbent.value, now, control);
    }
  }

  lemma CorrectStaysMarked(s: Settings, l: Ledger, id: ShotId, controls: Controls, notes: map<nat, nat>, now: nat)
    requires Inv(l) && Marked(l) && CorrectShot(s, l, id, controls, notes, now).Ok?
    ensures Marked(CorrectShot(s, l, id, controls, notes, now).value.0)
  {
    var i, recipe := CorrectionRecord(s, l, id, controls, notes, now);
    CorrectedStaysMarked(s, l, CorrectShot(s, l, id, controls, notes, now).value.0, i, recipe, now);
  }

  lemma CorrectedStaysMarked(s: Settings, l: Ledger, m: Ledger, i: nat, recipe: RecipePoint, now: nat)
    requires Inv(l) && Marked(l) && Corrected(s, l, m, i, recipe, now)
    ensures Marked(m)
  {
    if recipe.id != l.shots[i].recipe {
      RebuiltFits(s.schedule, l.state.region, m.shots, CollectRecipes(l.table, map[recipe.id := recipe], m.shots, Some(m.shots[i].id)).value, l.comparisons);
    }
  }

  lemma ExcludeStaysMarked(s: Settings, l: Ledger, id: ShotId, now: nat)
    requires Inv(l) && Marked(l) && ExcludeShot(s, l, id, now).Ok?
    ensures Marked(ExcludeShot(s, l, id, now).value)
  {
    if !FindShot(l.shots, id).value.status.Excluded? {
      var i, rows := ExclusionParts(s, l, id, now);
      var m := ExcludeShot(s, l, id, now).value;
      KeptRows(l, m.shots);
      RebuiltFits(s.schedule, l.state.region, m.shots, rows, m.comparisons);
    }
  }

  lemma MeetStaysMarked(s: Settings, l: Ledger, mode: Option<Mode>, now: nat)
    requires Inv(l) && Marked(l) && CompatibleRun(s, l, mode, now).Ok?
    ensures Marked(CompatibleRun(s, l, mode, now).value)
  {
    match FitOf(s, l, mode)
    case AsItIs =>
    case Retired =>
    case Migrated =>
      var space, rebased, state := MigrationParts(s, l, if mode.Some? then mode.value else l.run.mode, now);
      RebuiltFits(s.schedule, l.state.region, rebased.shots, RowsOf(rebased.recipes), l.comparisons);
    case Reconfigured =>
  }
}
