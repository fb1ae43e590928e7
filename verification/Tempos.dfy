/** The tempo of a history: what its labels, modes and resume markers alone say about a replay, wherever the shots lie. */
module Tempos {
  import opened Prelude
  import opened RecipeSpace
  import opened Cpbo
  import opened TrustRegions
  import opened TrustRegionLaws
  import opened History
  import opened HistoryLaws
  import opened ReplayLaws

  /** A trust region without its place and its audit trail. */
  datatype Tempo = Tempo(length: real, successes: nat, failures: nat, converged: bool)

  type Marks = set<Option<ComparisonId>>

  function TempoOf(t: TrustRegion): Tempo { Tempo(t.length, t.successCount, t.failureCount, t.locallyConverged) }

  function StartTempo(s: Schedule): Tempo { Tempo(s.initial, 0, 0, false) }

  /** One label outside local convergence: enough wins in a row double the length, enough others halve it or converge. */
  function Paced(s: Schedule, x: Tempo, preference: Preference): Tempo
  {
    var successes := if preference.NewBetter? then x.successes + 1 else 0;
    var failures := if preference.NewBetter? then 0 else x.failures + 1;
    if successes >= s.limits.successTolerance then Tempo(MinReal(2.0 * x.length, s.limits.maximum), 0, 0, false)
    else if failures >= s.limits.failureTolerance then
      var length := MaxReal(s.limits.minimum, x.length / 2.0);
      Tempo(length, 0, 0, length <= s.limits.minimum)
    else Tempo(x.length, successes, failures, false)
  }

  /** None where a replay must stop: a best-incumbent comparison in local convergence, or a marker outside of it. */
  function TempoStep(s: Schedule, resumed: bool, x: Tempo, c: Comparison): Option<Tempo>
  {
    if c.mode.BestIncumbent? && x.converged then None
    else
      var y := if c.mode.BestIncumbent? then Paced(s, x, c.preference) else x;
      if !resumed then Some(y) else if y.converged then Some(StartTempo(s)) else None
  }

  function TempoAfter(s: Schedule, marked: Marks, cs: seq<Comparison>): Option<Tempo>
  {
    if cs == [] then Some(StartTempo(s))
    else
      var x, c := TempoAfter(s, marked, cs[..|cs| - 1]), cs[|cs| - 1];
      if x.None? then None else TempoStep(s, Some(c.id) in marked, x.value, c)
  }

  // ----- the tempo decides a replay -----

  lemma StepTempo(s: Schedule, p: Places, m: Markers, r: Replayed, c: Comparison)
    requires OnSchedule(s, r.region) && AllPlaced(p) && c.newShot in p && c.anchor in p && r.head.incumbent in p
    ensures ReplayStep(s, p, m, r, c).Ok? <==> TempoStep(s, Some(c.id) in m, TempoOf(r.region), c).Some?
    ensures ReplayStep(s, p, m, r, c).Ok? ==>
      Some(TempoOf(ReplayStep(s, p, m, r, c).value.region)) == TempoStep(s, Some(c.id) in m, TempoOf(r.region), c)
  {
    var head := Advance(r.head, c);
    JudgeStep(s, r.region, c, p[c.newShot].value, Some(head.incumbent));
    if Judge(s, r.region, c, p[c.newShot], Some(head.incumbent)).Ok? {
      JudgeTempo(s, r.region, c, p[c.newShot].value, Some(head.incumbent));
      ClampedIsInside(p[head.incumbent].value);
    }
  }

  lemma JudgeTempo(s: Schedule, t: TrustRegion, c: Comparison, x: Point, incumbent: Option<ShotId>)
    requires OnSchedule(s, t) && Judge(s, t, c, Some(x), incumbent).Ok?
    ensures TempoOf(Judge(s, t, c, Some(x), incumbent).value) == if c.mode.BestIncumbent? then Paced(s, TempoOf(t), c.preference) else TempoOf(t)
  {
  }

  /** A replay of a legal chain over placed shots succeeds exactly when its tempo does, and ends at that tempo. */
  lemma {:induction false} ReplayTempo(s: Schedule, p: Places, m: Markers, run: RunId, ranks: map<ShotId, nat>, base: ShotId, x: Point, cs: seq<Comparison>)
    requires LegalChain(run, ranks, base, cs) && base in ranks && ranks.Keys == p.Keys && AllPlaced(p)
    ensures Replay(s, p, m, StartAt(s, base, x), cs).Ok? <==> TempoAfter(s, m.Keys, cs).Some?
    ensures Replay(s, p, m, StartAt(s, base, x), cs).Ok? ==>
      Some(TempoOf(Replay(s, p, m, StartAt(s, base, x), cs).value.region)) == TempoAfter(s, m.Keys, cs)
  {
    if cs != [] {
      var init, c := cs[..|cs| - 1], cs[|cs| - 1];
      ReplayTempo(s, p, m, run, ranks, base, x, init);
      if Replay(s, p, m, StartAt(s, base, x), init).Ok? {
        ReplayHead(s, p, m, base, x, init);
        ChainIsValid(run, ranks, base, init);
        StepTempo(s, p, m, Replay(s, p, m, StartAt(s, base, x), init).value, c);
      }
    }
  }

  /** What a rebuild needs of the stored markers, the shots' validity and the comparisons; places play no part. */
  predicate Rebuildable(s: Schedule, t: TrustRegion, shots: seq<Shot>, cs: seq<Comparison>)
  {
    && DistinctMarkers(t.transitions)
    && (Baseline(shots).Some? ==>
          MarkersOf(t.transitions).Keys <= Named(cs) && TempoAfter(s, MarkersOf(t.transitions).Keys, cs).Some?)
  }

  /** A rebuild succeeds exactly when the tempo of its history does and every marker names a comparison of it; and it leaves
      the region converged exactly when that tempo ends converged. */
  lemma RebuildCondition(s: Schedule, t: TrustRegion, run: RunId, shots: seq<Shot>, rows: RecipeRows, cs: seq<Comparison>)
    requires ShotRows(shots) && forall i :: 0 <= i < |shots| ==> shots[i].recipe in rows
    requires Baseline(shots).Some? ==> LegalChain(run, Ranks(shots), Baseline(shots).value, cs)
    requires DistinctIds(cs) && Stamped(MarkersOf(t.transitions))
    ensures RebuildHistory(s, t, shots, rows, cs).Ok? <==> Rebuildable(s, t, shots, cs)
    ensures RebuildHistory(s, t, shots, rows, cs).Ok? ==>
      Some(TempoOf(RebuildHistory(s, t, shots, rows, cs).value.region))
        == if Baseline(shots).Some? then TempoAfter(s, MarkersOf(t.transitions).Keys, cs) else Some(StartTempo(s))
  {
    if Baseline(shots).Some? {
      var base, m, p := Baseline(shots).value, MarkersOf(t.transitions), Centers(shots, rows);
      BaselineIsFirst(shots);
      PlacedShots(shots, rows);
      ReplayTempo(s, p, m, run, Ranks(shots), base, p[base].value, cs);
      if Replay(s, p, m, StartAt(s, base, p[base].value), cs).Ok? {
        ReplayMarkers(s, p, m, base, p[base].value, cs);
      }
    }
  }

  lemma PlacedShots(shots: seq<Shot>, rows: RecipeRows)
    requires ShotRows(shots) && forall i :: 0 <= i < |shots| ==> shots[i].recipe in rows
    ensures AllPlaced(Centers(shots, rows)) && Centers(shots, rows).Keys == Ranks(shots).Keys
  {
    ValidShots(shots);
    forall k | k in Centers(shots, rows)
      ensures Centers(shots, rows)[k].Some?
    {
      var i :| 0 <= i < |shots| && shots[i].id == k && shots[i].status.Valid?;
    }
  }

  // ----- forgetting the markers -----

  predicate AnyMarked(marked: Marks, cs: seq<Comparison>) { exists i :: 0 <= i < |cs| && Some(cs[i].id) in marked }

  /** No best-incumbent comparison follows a marked one. */
  predicate OnlyGlobalAfterMarks(marked: Marks, cs: seq<Comparison>)
  {
    forall i, j :: 0 <= i < j < |cs| && Some(cs[i].id) in marked ==> cs[j].mode.GlobalPrevious?
  }

  /** A history that was replayed with its markers is replayed without them exactly when no best-incumbent comparison follows
      a marked one; a marked comparison then leaves it converged, and without one the tempo is the same. */
  lemma {:induction false} WithoutMarkers(s: Schedule, marked: Marks, cs: seq<Comparison>)
    requires TempoAfter(s, marked, cs).Some?
    ensures TempoAfter(s, {}, cs).Some? <==> OnlyGlobalAfterMarks(marked, cs)
    ensures TempoAfter(s, {}, cs).Some? && AnyMarked(marked, cs) ==> TempoAfter(s, {}, cs).value.converged
    ensures !AnyMarked(marked, cs) ==> TempoAfter(s, {}, cs) == TempoAfter(s, marked, cs)
  {
    if cs != [] {
      var init, c := cs[..|cs| - 1], cs[|cs| - 1];
      WithoutMarkers(s, marked, init);
      MarksSplit(marked, cs);
    }
  }

  lemma MarksSplit(marked: Marks, cs: seq<Comparison>)
    requires cs != []
    ensures var init, c := cs[..|cs| - 1], cs[|cs| - 1];
      && (AnyMarked(marked, cs) <==> AnyMarked(marked, init) || Some(c.id) in marked)
      && (OnlyGlobalAfterMarks(marked, cs) <==> OnlyGlobalAfterMarks(marked, init) && (AnyMarked(marked, init) ==> c.mode.GlobalPrevious?))
  {
    var init, c := cs[..|cs| - 1], cs[|cs| - 1];
    assert forall i :: 0 <= i < |init| ==> init[i] == cs[i];
    if AnyMarked(marked, init) {
      var i :| 0 <= i < |init| && Some(init[i].id) in marked;
      assert Some(cs[i].id) in marked;
    }
    if OnlyGlobalAfterMarks(marked, init) && (AnyMarked(marked, init) ==> c.mode.GlobalPrevious?) {
      forall i, j | 0 <= i < j < |cs| && Some(cs[i].id) in marked
        ensures cs[j].mode.GlobalPrevious?
      {
        if j < |init| {
          assert init[i] == cs[i] && init[j] == cs[j];
        } else {
          assert Some(init[i].id) in marked;
        }
      }
    }
  }
}
