/** Invariants of the trust-region schedule and its independence of where the region is centred. */
module TrustRegionLaws {
  import opened Prelude
  import opened RecipeSpace
  import opened Cpbo
  import opened TrustRegions

  lemma ClampedIsInside(x: Point)
    ensures InUnitCube(ClampPoint(x)) && NearUnitCube(ClampPoint(x)) && ClampPoint(ClampPoint(x)) == ClampPoint(x)
    ensures InUnitCube(x) ==> ClampPoint(x) == x
  {
  }

  /** An update succeeds exactly outside local convergence, appends one comparison transition and stays on schedule. */
  lemma UpdateStep(s: Schedule, t: TrustRegion, preference: Preference, candidate: Point)
    requires OnSchedule(s, t) && NearUnitCube(candidate)
    ensures Update(s, t, preference, candidate).Ok? <==> !t.locallyConverged
    ensures Update(s, t, preference, candidate).Ok? ==>
      var u := Update(s, t, preference, candidate).value;
      && OnSchedule(s, u)
      && |u.transitions| == |t.transitions| + 1 && u.transitions[..|t.transitions|] == t.transitions
      && !u.transitions[|t.transitions|].action.Resumed?
      && (u.center == if preference.NewBetter? then ClampPoint(candidate) else t.center)
  {
  }

  /** Judging one comparison: when it succeeds, and what it leaves of the history. */
  lemma JudgeStep(s: Schedule, t: TrustRegion, c: Comparison, x: Point, incumbent: Option<ShotId>)
    requires OnSchedule(s, t)
    ensures Judge(s, t, c, Some(x), incumbent).Ok? <==> (c.mode.GlobalPrevious? || !t.locallyConverged)
    ensures Judge(s, t, c, Some(x), incumbent).Ok? ==>
      var u := Judge(s, t, c, Some(x), incumbent).value;
      && OnSchedule(s, u)
      && (c.mode.GlobalPrevious? ==> u == t)
      && (c.mode.BestIncumbent? ==>
            && |u.transitions| == |t.transitions| + 1 && u.transitions[..|t.transitions|] == t.transitions
            && var e := u.transitions[|t.transitions|];
               !e.action.Resumed? && e.preference == Some(c.preference) && e.comparison == Some(c.id) && e.newShot == Some(c.newShot)
               && e.anchor == Some(c.anchor) && e.incumbent == incumbent && e.createdAt == Some(c.createdAt))
  {
    ClampedIsInside(x);
    UpdateStep(s, t, c.preference, ClampPoint(x));
  }

  lemma ResumeStep(s: Schedule, t: TrustRegion, center: Point, after: Option<ComparisonId>, incumbent: ShotId, createdAt: nat, control: Option<ControlId>)
    requires NearUnitCube(center)
    ensures var r := Resume(s, t, center, after, incumbent, createdAt, control);
      && (r.Ok? <==> t.locallyConverged)
      && (r.Ok? ==>
            && OnSchedule(s, r.value) && !r.value.locallyConverged && r.value.length == s.initial
            && |r.value.transitions| == |t.transitions| + 1 && r.value.transitions[..|t.transitions|] == t.transitions
            && var e := r.value.transitions[|t.transitions|];
               e.action.Resumed? && e.after == after && e.control == control && e.createdAt == Some(createdAt) && e.incumbent == Some(incumbent))
  {
  }

  lemma SameUpToCentre(a: TrustRegion, b: TrustRegion)
    ensures SameSchedule(a, b) <==>
      && a.length == b.length && a.successCount == b.successCount && a.failureCount == b.failureCount
      && a.restartPending == b.restartPending && a.locallyConverged == b.locallyConverged
      && |a.transitions| == |b.transitions|
      && forall i :: 0 <= i < |a.transitions| ==> Blank(a.transitions[i]) == Blank(b.transitions[i])
  {
    if SameSchedule(a, b) {
      assert Uncentred(a).transitions == Uncentred(b).transitions;
      forall i | 0 <= i < |a.transitions|
        ensures Blank(a.transitions[i]) == Blank(b.transitions[i])
      {
        assert Uncentred(a).transitions[i] == Uncentred(b).transitions[i];
      }
    }
  }

  lemma SameAfterAppend(a: TrustRegion, b: TrustRegion, u: TrustRegion, v: TrustRegion)
    requires |a.transitions| == |b.transitions| && forall i :: 0 <= i < |a.transitions| ==> Blank(a.transitions[i]) == Blank(b.transitions[i])
    requires |u.transitions| == |a.transitions| + 1 && u.transitions[..|a.transitions|] == a.transitions
    requires |v.transitions| == |b.transitions| + 1 && v.transitions[..|b.transitions|] == b.transitions
    requires Blank(u.transitions[|a.transitions|]) == Blank(v.transitions[|a.transitions|])
    requires u.(center := Origin(), transitions := []) == v.(center := Origin(), transitions := [])
    ensures SameSchedule(u, v)
  {
    forall i | 0 <= i < |u.transitions|
      ensures Blank(u.transitions[i]) == Blank(v.transitions[i])
    {
      if i < |a.transitions| {
        assert u.transitions[i] == u.transitions[..|a.transitions|][i] && v.transitions[i] == v.transitions[..|b.transitions|][i];
      }
    }
    SameUpToCentre(u, v);
  }

  lemma UpdateIgnoresCentre(s: Schedule, a: TrustRegion, b: TrustRegion, preference: Preference, x: Point, y: Point)
    requires SameSchedule(a, b) && NearUnitCube(x) && NearUnitCube(y)
    ensures Update(s, a, preference, x).Ok? == Update(s, b, preference, y).Ok?
    ensures Update(s, a, preference, x).Ok? ==> SameSchedule(Update(s, a, preference, x).value, Update(s, b, preference, y).value)
  {
    SameUpToCentre(a, b);
    if Update(s, a, preference, x).Ok? {
      SameAfterAppend(a, b, Update(s, a, preference, x).value, Update(s, b, preference, y).value);
    }
  }

  lemma AnnotateIgnoresCentre(a: TrustRegion, b: TrustRegion, c: Comparison, incumbent: Option<ShotId>)
    requires SameSchedule(a, b)
    ensures Annotate(a, c, incumbent).Ok? == Annotate(b, c, incumbent).Ok?
    ensures Annotate(a, c, incumbent).Ok? ==> SameSchedule(Annotate(a, c, incumbent).value, Annotate(b, c, incumbent).value)
  {
    SameUpToCentre(a, b);
    if a.transitions != [] {
      var n := |a.transitions| - 1;
      assert Blank(a.transitions[n]) == Blank(b.transitions[n]);
      SameAfterAppend(a.(transitions := a.transitions[..n]), b.(transitions := b.transitions[..n]),
                      Annotate(a, c, incumbent).value, Annotate(b, c, incumbent).value);
    }
  }

  /** The schedule never looks at the centre. */
  lemma JudgeIgnoresCentre(s: Schedule, a: TrustRegion, b: TrustRegion, c: Comparison, x: Point, y: Point, incumbent: Option<ShotId>)
    requires SameSchedule(a, b)
    ensures Judge(s, a, c, Some(x), incumbent).Ok? == Judge(s, b, c, Some(y), incumbent).Ok?
    ensures Judge(s, a, c, Some(x), incumbent).Ok? ==>
      SameSchedule(Judge(s, a, c, Some(x), incumbent).value, Judge(s, b, c, Some(y), incumbent).value)
  {
    if c.mode.BestIncumbent? {
      ClampedIsInside(x);
      ClampedIsInside(y);
      UpdateIgnoresCentre(s, a, b, c.preference, ClampPoint(x), ClampPoint(y));
      var u, v := Update(s, a, c.preference, ClampPoint(x)), Update(s, b, c.preference, ClampPoint(y));
      if u.Ok? {
        AnnotateIgnoresCentre(u.value, v.value, c, incumbent);
      }
    }
  }

  lemma ResumeIgnoresCentre(s: Schedule, a: TrustRegion, b: TrustRegion, x: Point, y: Point, after: Option<ComparisonId>,
                            incumbent: ShotId, createdAt: nat, control: Option<ControlId>)
    requires SameSchedule(a, b) && NearUnitCube(x) && NearUnitCube(y)
    ensures Resume(s, a, x, after, incumbent, createdAt, control).Ok? == Resume(s, b, y, after, incumbent, createdAt, control).Ok?
    ensures Resume(s, a, x, after, incumbent, createdAt, control).Ok? ==>
      SameSchedule(Resume(s, a, x, after, incumbent, createdAt, control).value, Resume(s, b, y, after, incumbent, createdAt, control).value)
  {
    SameUpToCentre(a, b);
    if a.locallyConverged {
      SameAfterAppend(a, b, Resume(s, a, x, after, incumbent, createdAt, control).value, Resume(s, b, y, after, incumbent, createdAt, control).value);
    }
  }

  lemma MarkersAppend(ts: seq<Transition>, e: Transition)
    ensures MarkersOf(ts + [e]) ==
      if e.action.Resumed? then MarkersOf(ts)[e.after := Marker(e.createdAt, e.control)] else MarkersOf(ts)
    ensures DistinctMarkers(ts + [e]) <==> DistinctMarkers(ts) && (e.action.Resumed? ==> e.after !in MarkersOf(ts))
  {
    var all := ts + [e];
    assert all[..|all| - 1] == ts;
    assert all[|ts|] == e && forall i :: 0 <= i < |ts| ==> all[i] == ts[i];
    MarkersNameResumes(ts);
    if DistinctMarkers(all) {
      forall i, j | 0 <= i < j < |ts| && ts[i].action.Resumed? && ts[j].action.Resumed?
        ensures ts[i].after != ts[j].after
      {
        assert all[i] == ts[i] && all[j] == ts[j];
      }
    }
  }

  lemma {:induction false} MarkersNameResumes(ts: seq<Transition>)
    ensures forall k :: k in MarkersOf(ts) <==> exists i :: 0 <= i < |ts| && ts[i].action.Resumed? && ts[i].after == k
  {
    if ts != [] {
      var init := ts[..|ts| - 1];
      MarkersNameResumes(init);
      forall k
        ensures k in MarkersOf(ts) <==> exists i :: 0 <= i < |ts| && ts[i].action.Resumed? && ts[i].after == k
      {
        if k in MarkersOf(init) {
          var i :| 0 <= i < |init| && init[i].action.Resumed? && init[i].after == k;
          assert ts[i] == init[i];
        }
        if i :| 0 <= i < |ts| && ts[i].action.Resumed? && ts[i].after == k {
          if i < |init| {
            assert init[i] == ts[i];
          }
        }
      }
    }
  }
}
