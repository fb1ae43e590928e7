/** The audited schedule of the local trust region. */
module TrustRegions {
  import opened Prelude
  import opened RecipeSpace
  import opened Cpbo

  function Fresh(s: Schedule, center: Point): TrustRegion
  {
    TrustRegion(center, s.initial, 0, 0, false, false, [])
  }

  /** Moves the region after one comparison and appends one transition without identities. */
  function Update(s: Schedule, t: TrustRegion, preference: Preference, candidate: Point): Result<TrustRegion>
  {
    var _ :- Need(!t.locallyConverged, LocallyConverged);
    var _ :- Need(preference.NewBetter? ==> NearUnitCube(candidate), OutsideBounds);
    var center := if preference.NewBetter? then ClampPoint(candidate) else t.center;
    var successes := if preference.NewBetter? then t.successCount + 1 else 0;
    var failures := if preference.NewBetter? then 0 else t.failureCount + 1;
    if successes >= s.limits.successTolerance then
      Move(s, t, preference, center, MinReal(2.0 * t.length, s.limits.maximum), 0, 0, Expanded)
    else if failures >= s.limits.failureTolerance then
      var length := MaxReal(s.limits.minimum, t.length / 2.0);
      Move(s, t, preference, center, length, 0, 0, if length <= s.limits.minimum then Converged else Contracted)
    else
      Move(s, t, preference, center, t.length, successes, failures, if preference.NewBetter? then Improved else NonImprovement)
  }

  function Move(s: Schedule, t: TrustRegion, preference: Preference, center: Point, length: real, successes: nat, failures: nat, action: Action): Result<TrustRegion>
  {
    var _ :- Need(s.limits.minimum <= length <= s.limits.maximum, BadTransition);
    var entry := Transition(action, t.center, center, t.length, length, successes, failures, s.limits, Some(preference),
                            None, None, None, None, None, None, None);
    Ok(TrustRegion(center, length, successes, failures, false, action.Converged?, t.transitions + [entry]))
  }

  /** Leaves local convergence with a fresh length around the incumbent and appends one resume marker. */
  function Resume(s: Schedule, t: TrustRegion, center: Point, after: Option<ComparisonId>, incumbent: ShotId,
                  createdAt: nat, control: Option<ControlId>): Result<TrustRegion>
  {
    var _ :- Need(t.locallyConverged, NotConverged);
    var _ :- Need(NearUnitCube(center), OutsideBounds);
    var c := ClampPoint(center);
    var entry := Transition(Resumed, t.center, c, t.length, s.initial, 0, 0, s.limits, None,
                            None, None, None, Some(incumbent), after, control, Some(createdAt));
    Ok(TrustRegion(c, s.initial, 0, 0, false, false, t.transitions + [entry]))
  }

  /** Writes the identities of the comparison into the latest transition. */
  function Annotate(t: TrustRegion, c: Comparison, incumbent: Option<ShotId>): Result<TrustRegion>
  {
    if t.transitions == [] then Err(NoTransition)
    else
      var last := t.transitions[|t.transitions| - 1].(
        comparison := Some(c.id), newShot := Some(c.newShot), anchor := Some(c.anchor),
        incumbent := incumbent, createdAt := Some(c.createdAt));
      Ok(t.(transitions := t.transitions[..|t.transitions| - 1] + [last]))
  }

  /** The effect of one comparison on the region: only best-incumbent comparisons move it. */
  function Judge(s: Schedule, t: TrustRegion, c: Comparison, candidate: Option<Point>, incumbent: Option<ShotId>): Result<TrustRegion>
  {
    if c.mode.GlobalPrevious? then Ok(t)
    else
      match candidate
      case None => Err(MissingRecipe)
      case Some(x) =>
        var u :- Update(s, t, c.preference, ClampPoint(x));
        Annotate(u, c, incumbent)
  }

  /** What a resume marker tells a replay. */
  datatype Marker = Marker(createdAt: Option<nat>, control: Option<ControlId>)

  type Markers = map<Option<ComparisonId>, Marker>

  function MarkersOf(ts: seq<Transition>): Markers
  {
    if ts == [] then map[]
    else
      var last := ts[|ts| - 1];
      var earlier := MarkersOf(ts[..|ts| - 1]);
      if last.action.Resumed? then earlier[last.after := Marker(last.createdAt, last.control)] else earlier
  }

  predicate DistinctMarkers(ts: seq<Transition>)
  {
    forall i, j :: 0 <= i < j < |ts| && ts[i].action.Resumed? && ts[j].action.Resumed? ==> ts[i].after != ts[j].after
  }

  /** The region without the places it was centred on. */
  function Origin(): Point { Point(0.0, 0.0, 0.0) }

  function Blank(e: Transition): Transition { e.(centerBefore := Origin(), centerAfter := Origin()) }

  function Uncentred(t: TrustRegion): TrustRegion
  {
    t.(center := Origin(), transitions := seq(|t.transitions|, i requires 0 <= i < |t.transitions| => Blank(t.transitions[i])))
  }

  predicate SameSchedule(a: TrustRegion, b: TrustRegion) { Uncentred(a) == Uncentred(b) }

  /** What every region built by the schedule satisfies. */
  predicate OnSchedule(s: Schedule, t: TrustRegion)
  {
    && s.limits.minimum <= t.length <= s.limits.maximum
    && (t.successCount == 0 || t.failureCount == 0)
    && t.successCount < s.limits.successTolerance && t.failureCount < s.limits.failureTolerance
    && !t.restartPending
    && (t.locallyConverged ==>
          t.transitions != [] && t.transitions[|t.transitions| - 1].action.Converged? && t.length == s.limits.minimum
          && t.successCount == 0 && t.failureCount == 0)
  }
}
