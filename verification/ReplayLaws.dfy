/** Laws of replaying a history: what a replay depends on, what it preserves, and that it is a projection. */
module ReplayLaws {
  import opened Prelude
  import opened RecipeSpace
  import opened Cpbo
  import opened TrustRegions
  import opened TrustRegionLaws
  import opened History
  import opened HistoryLaws

  type Places = map<ShotId, Option<Point>>

  /** Every resume marker carries a positive time stamp. */
  predicate Stamped(m: Markers) { forall k :: k in m ==> m[k].createdAt.Some? && m[k].createdAt.value > 0 }

  predicate DistinctIds(cs: seq<Comparison>) { forall i, j :: 0 <= i < j < |cs| ==> cs[i].id != cs[j].id }

  function Named(cs: seq<Comparison>): set<Option<ComparisonId>> { set c | c in cs :: Some(c.id) }

  predicate AllPlaced(places: Places) { forall k :: k in places ==> places[k].Some? }

  lemma NamedAppend(cs: seq<Comparison>, c: Comparison)
    ensures Named(cs + [c]) == Named(cs) + {Some(c.id)}
  {
    forall k | k in Named(cs) + {Some(c.id)}
      ensures k in Named(cs + [c])
    {
      if k in Named(cs) {
        var d :| d in cs && Some(d.id) == k;
        assert d in cs + [c];
      } else {
        assert c in cs + [c];
      }
    }
  }

  lemma NamedSplit(cs: seq<Comparison>)
    requires cs != []
    ensures Named(cs) == Named(cs[..|cs| - 1]) + {Some(cs[|cs| - 1].id)}
    ensures DistinctIds(cs) ==> Some(cs[|cs| - 1].id) !in Named(cs[..|cs| - 1]) && DistinctIds(cs[..|cs| - 1])
  {
    NamedAppend(cs[..|cs| - 1], cs[|cs| - 1]);
    assert cs == cs[..|cs| - 1] + [cs[|cs| - 1]];
  }

  lemma ReplayAppend(s: Schedule, places: Places, m: Markers, start: Replayed, cs: seq<Comparison>, c: Comparison)
    ensures Replay(s, places, m, start, cs + [c]) ==
      match Replay(s, places, m, start, cs)
      case Err(e) => Err(e)
      case Ok(r) => ReplayStep(s, places, m, r, c)
  {
    assert (cs + [c])[..|cs|] == cs;
  }

  /** A replay computes the head of the chain and keeps the region on schedule. */
  lemma {:induction false} ReplayHead(s: Schedule, places: Places, m: Markers, base: ShotId, position: Point, cs: seq<Comparison>)
    requires Replay(s, places, m, StartAt(s, base, position), cs).Ok?
    ensures var r := Replay(s, places, m, StartAt(s, base, position), cs).value;
      r.head == HeadAfter(base, cs) && OnSchedule(s, r.region)
  {
    if cs != [] {
      var init, c := cs[..|cs| - 1], cs[|cs| - 1];
      ReplayHead(s, places, m, base, position, init);
      var r := Replay(s, places, m, StartAt(s, base, position), init).value;
      StepOnSchedule(s, places, m, r, c);
    }
  }

  lemma StepOnSchedule(s: Schedule, places: Places, m: Markers, r: Replayed, c: Comparison)
    requires OnSchedule(s, r.region) && ReplayStep(s, places, m, r, c).Ok?
    ensures OnSchedule(s, ReplayStep(s, places, m, r, c).value.region)
    ensures ReplayStep(s, places, m, r, c).value.head == Advance(r.head, c)
  {
    if c.mode.BestIncumbent? {
      JudgeStep(s, r.region, c, places[c.newShot].value, Some(Advance(r.head, c).incumbent));
    }
    if Some(c.id) in m {
      var inc := Advance(r.head, c).incumbent;
      ClampedIsInside(places[inc].value);
    }
  }

  /** A replay reads only the places and markers of its own comparisons. */
  lemma {:induction false} ReplayReads(s: Schedule, p: Places, q: Places, m: Markers, n: Markers, start: Replayed, cs: seq<Comparison>)
    requires Replay(s, p, m, start, cs).Ok?
    requires forall k :: k in p ==> k in q && p[k] == q[k]
    requires forall k :: k in Named(cs) ==> (k in m <==> k in n) && (k in m ==> m[k] == n[k])
    ensures Replay(s, q, n, start, cs) == Replay(s, p, m, start, cs)
  {
    if cs != [] {
      NamedSplit(cs);
      ReplayReads(s, p, q, m, n, start, cs[..|cs| - 1]);
    }
  }

  lemma StepMarkers(s: Schedule, places: Places, m: Markers, r: Replayed, c: Comparison)
    requires OnSchedule(s, r.region) && ReplayStep(s, places, m, r, c).Ok? && Stamped(m)
    requires DistinctMarkers(r.region.transitions) && Some(c.id) !in MarkersOf(r.region.transitions)
    ensures var ts := ReplayStep(s, places, m, r, c).value.region.transitions;
      && DistinctMarkers(ts)
      && MarkersOf(ts) == if Some(c.id) in m then MarkersOf(r.region.transitions)[Some(c.id) := m[Some(c.id)]] else MarkersOf(r.region.transitions)
  {
    var inc := Advance(r.head, c).incumbent;
    var judged := Judge(s, r.region, c, places[c.newShot], Some(inc)).value;
    JudgeMarkers(s, r.region, c, places[c.newShot], Some(inc));
    if Some(c.id) in m {
      var after := ReplayStep(s, places, m, r, c).value.region;
      MarkersAppend(judged.transitions, after.transitions[|after.transitions| - 1]);
    }
  }

  /** Judging adds no resume marker. */
  lemma JudgeMarkers(s: Schedule, t: TrustRegion, c: Comparison, place: Option<Point>, incumbent: Option<ShotId>)
    requires OnSchedule(s, t) && Judge(s, t, c, place, incumbent).Ok?
    ensures MarkersOf(Judge(s, t, c, place, incumbent).value.transitions) == MarkersOf(t.transitions)
    ensures DistinctMarkers(Judge(s, t, c, place, incumbent).value.transitions) <==> DistinctMarkers(t.transitions)
  {
    var u := Judge(s, t, c, place, incumbent).value;
    if c.mode.BestIncumbent? {
      JudgeStep(s, t, c, place.value, incumbent);
      assert u.transitions == t.transitions + [u.transitions[|t.transitions|]];
      MarkersAppend(t.transitions, u.transitions[|t.transitions|]);
    }
  }

  /** The markers of a replayed region are exactly the given markers of replayed comparisons. */
  lemma {:induction false} ReplayMarkers(s: Schedule, places: Places, m: Markers, base: ShotId, position: Point, cs: seq<Comparison>)
    requires Replay(s, places, m, StartAt(s, base, position), cs).Ok?
    requires DistinctIds(cs) && Stamped(m)
    ensures var ts := Replay(s, places, m, StartAt(s, base, position), cs).value.region.transitions;
      && DistinctMarkers(ts)
      && MarkersOf(ts).Keys == m.Keys * Named(cs)
      && forall k :: k in MarkersOf(ts) ==> MarkersOf(ts)[k] == m[k]
  {
    if cs != [] {
      var init, c := cs[..|cs| - 1], cs[|cs| - 1];
      NamedSplit(cs);
      ReplayMarkers(s, places, m, base, position, init);
      ReplayHead(s, places, m, base, position, init);
      StepMarkers(s, places, m, Replay(s, places, m, StartAt(s, base, position), init).value, c);
    }
  }

  /** Two replays of the same comparisons over differently placed shots keep the same schedule. */
  lemma {:induction false} ReplayIgnoresPlaces(s: Schedule, p: Places, q: Places, m: Markers, base: ShotId, x: Point, y: Point, cs: seq<Comparison>)
    requires Replay(s, p, m, StartAt(s, base, x), cs).Ok?
    requires p.Keys == q.Keys && AllPlaced(p) && AllPlaced(q)
    ensures var r, t := Replay(s, p, m, StartAt(s, base, x), cs), Replay(s, q, m, StartAt(s, base, y), cs);
      t.Ok? && t.value.head == r.value.head && SameSchedule(r.value.region, t.value.region)
  {
    if cs == [] {
      SameUpToCentre(StartAt(s, base, x).region, StartAt(s, base, y).region);
    } else {
      var init, c := cs[..|cs| - 1], cs[|cs| - 1];
      ReplayIgnoresPlaces(s, p, q, m, base, x, y, init);
      var r, t := Replay(s, p, m, StartAt(s, base, x), init).value, Replay(s, q, m, StartAt(s, base, y), init).value;
      ReplayHead(s, p, m, base, x, init);
      ReplayHead(s, q, m, base, y, init);
      StepIgnoresPlaces(s, p, q, m, r, t, c);
    }
  }

  lemma StepIgnoresPlaces(s: Schedule, p: Places, q: Places, m: Markers, r: Replayed, t: Replayed, c: Comparison)
    requires ReplayStep(s, p, m, r, c).Ok?
    requires p.Keys == q.Keys && AllPlaced(p) && AllPlaced(q)
    requires r.head == t.head && SameSchedule(r.region, t.region) && OnSchedule(s, r.region) && OnSchedule(s, t.region)
    ensures ReplayStep(s, q, m, t, c).Ok?
    ensures ReplayStep(s, q, m, t, c).value.head == ReplayStep(s, p, m, r, c).value.head
    ensures SameSchedule(ReplayStep(s, p, m, r, c).value.region, ReplayStep(s, q, m, t, c).value.region)
  {
    var head := Advance(r.head, c);
    JudgeIgnoresCentre(s, r.region, t.region, c, p[c.newShot].value, q[c.newShot].value, Some(head.incumbent));
    if Some(c.id) in m {
      var a := Judge(s, r.region, c, p[c.newShot], Some(head.incumbent)).value;
      var b := Judge(s, t.region, c, q[c.newShot], Some(head.incumbent)).value;
      var marker := m[Some(c.id)];
      var createdAt := if marker.createdAt.Some? && marker.createdAt.value != 0 then marker.createdAt.value else c.createdAt;
      SameUpToCentre(a, b);
      ClampedIsInside(p[head.incumbent].value);
      ClampedIsInside(q[head.incumbent].value);
      ResumeIgnoresCentre(s, a, b, ClampPoint(p[head.incumbent].value), ClampPoint(q[head.incumbent].value),
                          Some(c.id), head.incumbent, createdAt, marker.control);
    }
  }

  /** Rebuilding finds the head of the chain; without valid shots it starts afresh. */
  lemma RebuildHead(s: Schedule, t: TrustRegion, shots: seq<Shot>, rows: RecipeRows, cs: seq<Comparison>)
    requires RebuildHistory(s, t, shots, rows, cs).Ok?
    ensures var b := RebuildHistory(s, t, shots, rows, cs).value;
      && OnSchedule(s, b.region)
      && (Baseline(shots).Some? ==> b.head == Some(HeadAfter(Baseline(shots).value, cs)))
      && (Baseline(shots).None? ==> b.head == None && b.region == Fresh(s, t.center))
  {
    if Baseline(shots).Some? {
      var base, places := Baseline(shots).value, Centers(shots, rows);
      ReplayHead(s, places, MarkersOf(t.transitions), base, places[base].value, cs);
    }
  }

  /** Rebuilding finds the chain's head, leaves the markers as they are, and rebuilding its own result changes nothing. */
  lemma RebuildIsProjection(s: Schedule, t: TrustRegion, shots: seq<Shot>, rows: RecipeRows, cs: seq<Comparison>)
    requires RebuildHistory(s, t, shots, rows, cs).Ok?
    requires DistinctIds(cs) && Stamped(MarkersOf(t.transitions))
    ensures var b := RebuildHistory(s, t, shots, rows, cs).value;
      && RebuildHistory(s, b.region, shots, rows, cs) == Ok(b)
      && Stamped(MarkersOf(b.region.transitions))
      && OnSchedule(s, b.region)
      && (Baseline(shots).Some? ==> b.head == Some(HeadAfter(Baseline(shots).value, cs)) && MarkersOf(b.region.transitions) == MarkersOf(t.transitions)
                                    && MarkersOf(t.transitions).Keys <= Named(cs))
      && (Baseline(shots).None? ==> b.head == None && b.region == Fresh(s, t.center))
  {
    if Baseline(shots).Some? {
      var base, m, places := Baseline(shots).value, MarkersOf(t.transitions), Centers(shots, rows);
      var x := places[base].value;
      ReplayHead(s, places, m, base, x, cs);
      ReplayMarkers(s, places, m, base, x, cs);
      var b := RebuildHistory(s, t, shots, rows, cs).value;
      assert MarkersOf(b.region.transitions) == m;
    }
  }
}
