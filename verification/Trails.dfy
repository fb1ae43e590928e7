/** The audit trail of the trust region: its entries follow on from each other, lie where the shots lie, and tell the history. */
module Trails {
  import opened Prelude
  import opened RecipeSpace
  import opened Cpbo
  import opened TrustRegions
  import opened TrustRegionLaws
  import opened History
  import opened HistoryLaws
  import opened ReplayLaws
  import opened Ledgers
  import opened Service
  import opened Invariants
  import opened Faithfulness

  // ----- continuity -----

  /** Where a region is, how long, and how far its streaks have come. */
  datatype Pose = Pose(center: Point, length: real, successes: nat, failures: nat, converged: bool)

  function PoseOf(t: TrustRegion): Pose { Pose(t.center, t.length, t.successCount, t.failureCount, t.locallyConverged) }

  function PoseAfter(e: Transition): Pose { Pose(e.centerAfter, e.lengthAfter, e.successCount, e.failureCount, e.action.Converged?) }

  predicate Won(e: Transition) { e.preference == Some(NewBetter) }

  /** The comparison was not won, and the region stayed where it was. */
  predicate Stayed(e: Transition) { e.preference in {Some(AnchorBetter), Some(Tie)} && e.centerAfter == e.centerBefore }

  predicate Streaks(e: Transition, successes: nat, failures: nat) { e.successCount == successes && e.failureCount == failures }

  /** What an entry records of a region that was at p: the label and the streak decide its action, the action its length and counters. */
  predicate Records(s: Schedule, p: Pose, e: Transition)
  {
    && e.centerBefore == p.center && e.lengthBefore == p.length && e.limits == s.limits
    && (e.action.Resumed? <==> p.converged)
    && match e.action
       case Improved =>
         Won(e) && p.successes + 1 < s.limits.successTolerance && e.lengthAfter == p.length && Streaks(e, p.successes + 1, 0)
       case Expanded =>
         && Won(e) && p.successes + 1 >= s.limits.successTolerance && Streaks(e, 0, 0)
         && e.lengthAfter <= s.limits.maximum && e.lengthAfter <= 2.0 * p.length && e.lengthAfter in {s.limits.maximum, 2.0 * p.length}
       case NonImprovement =>
         Stayed(e) && p.failures + 1 < s.limits.failureTolerance && e.lengthAfter == p.length && Streaks(e, 0, p.failures + 1)
       case Contracted =>
         && Stayed(e) && p.failures + 1 >= s.limits.failureTolerance && Streaks(e, 0, 0)
         && e.lengthAfter == p.length / 2.0 > s.limits.minimum
       case Converged =>
         && Stayed(e) && p.failures + 1 >= s.limits.failureTolerance && Streaks(e, 0, 0)
         && p.length / 2.0 <= s.limits.minimum == e.lengthAfter
       case Resumed => e.preference.None? && e.lengthAfter == s.initial && Streaks(e, 0, 0)
  }

  /** The pose before entry i, or the present one after the last entry of an empty trail. */
  function PoseAt(t: TrustRegion, i: nat): Pose
    requires i <= |t.transitions|
  {
    if i > 0 then PoseAfter(t.transitions[i - 1])
    else if t.transitions == [] then PoseOf(t)
    else Pose(t.transitions[0].centerBefore, t.transitions[0].lengthBefore, 0, 0, false)
  }

  predicate Starts(s: Schedule, p: Pose) { p == Pose(p.center, s.initial, 0, 0, false) }

  ghost predicate SomeStarts(ss: set<Schedule>, p: Pose) { exists s :: s in ss && Starts(s, p) }

  ghost predicate SomeRecords(ss: set<Schedule>, p: Pose, e: Transition) { exists s :: s in ss && Records(s, p, e) }

  /** The trail starts at the initial length without streaks, each entry follows on from the one before, and the last one leads to where
      the region is; each of them under one of the schedules. */
  ghost predicate Continuous(ss: set<Schedule>, t: TrustRegion)
  {
    && SomeStarts(ss, PoseAt(t, 0)) && PoseAt(t, |t.transitions|) == PoseOf(t)
    && forall i: nat :: i < |t.transitions| ==> SomeRecords(ss, PoseAt(t, i), t.transitions[i])
  }

  /** The region moved by one entry. */
  predicate Grown(t: TrustRegion, u: TrustRegion, e: Transition)
  {
    u.transitions == t.transitions + [e] && PoseAfter(e) == PoseOf(u)
  }

  lemma GrowsContinuous(s: Schedule, ss: set<Schedule>, t: TrustRegion, u: TrustRegion, e: Transition)
    requires Continuous(ss, t) && s in ss && Grown(t, u, e) && Records(s, PoseOf(t), e)
    ensures Continuous(ss, u)
  {
    var n := |t.transitions|;
    if n == 0 {
      var s0 :| s0 in ss && Starts(s0, PoseOf(t));
      assert PoseAt(u, 0) == PoseOf(t);
    } else {
      assert PoseAt(u, 0) == PoseAt(t, 0);
    }
    forall i: nat | i < |u.transitions|
      ensures SomeRecords(ss, PoseAt(u, i), u.transitions[i])
    {
      if i < n {
        assert PoseAt(u, i) == PoseAt(t, i) && SomeRecords(ss, PoseAt(t, i), t.transitions[i]);
      } else {
        assert PoseAt(u, n) == PoseOf(t);
      }
    }
  }

  lemma MoreSchedules(ss: set<Schedule>, more: set<Schedule>, t: TrustRegion)
    requires Continuous(ss, t) && ss <= more
    ensures Continuous(more, t)
  {
    var s :| s in ss && Starts(s, PoseAt(t, 0));
    forall i: nat | i < |t.transitions|
      ensures SomeRecords(more, PoseAt(t, i), t.transitions[i])
    {
      var r :| r in ss && Records(r, PoseAt(t, i), t.transitions[i]);
    }
  }

  lemma UpdateRecords(s: Schedule, t: TrustRegion, preference: Preference, x: Point) returns (e: Transition)
    requires Update(s, t, preference, x).Ok?
    ensures var u := Update(s, t, preference, x).value;
      && Grown(t, u, e) && Records(s, PoseOf(t), e) && e.preference == Some(preference)
      && (preference.NewBetter? ==> e.centerAfter == ClampPoint(x)) && !e.action.Resumed?
  {
    var u := Update(s, t, preference, x).value;
    e := u.transitions[|t.transitions|];
  }

  /** What a judgement in best-incumbent mode adds to the trail. */
  predicate JudgedEntry(e: Transition, c: Comparison, x: Point, incumbent: Option<ShotId>)
  {
    && !e.action.Resumed? && (c.preference.NewBetter? ==> e.centerAfter == ClampPoint(x))
    && AuditOf(e) == Audit(Some(c.preference), Some(c.id), Some(c.newShot), Some(c.anchor), incumbent, None, None, Some(c.createdAt))
  }

  lemma JudgeRecords(s: Schedule, t: TrustRegion, c: Comparison, x: Point, incumbent: Option<ShotId>) returns (e: Transition)
    requires c.mode.BestIncumbent? && Judge(s, t, c, Some(x), incumbent).Ok?
    ensures var u := Judge(s, t, c, Some(x), incumbent).value;
      Grown(t, u, e) && Records(s, PoseOf(t), e) && JudgedEntry(e, c, x, incumbent)
  {
    ClampedIsInside(x);
    var v := Update(s, t, c.preference, ClampPoint(x)).value;
    var d := UpdateRecords(s, t, c.preference, ClampPoint(x));
    assert v.transitions[..|v.transitions| - 1] == t.transitions;
    var u := Judge(s, t, c, Some(x), incumbent).value;
    e := u.transitions[|t.transitions|];
    assert d.after == None && d.control == None;
  }

  /** What a resumption adds to it. */
  predicate ResumedEntry(e: Transition, center: Point, after: Option<ComparisonId>, incumbent: ShotId, createdAt: nat, control: Option<ControlId>)
  {
    && e.action.Resumed? && e.centerAfter == ClampPoint(center)
    && AuditOf(e) == Audit(None, None, None, None, Some(incumbent), after, control, Some(createdAt))
  }

  lemma ResumeRecords(s: Schedule, t: TrustRegion, center: Point, after: Option<ComparisonId>, incumbent: ShotId, createdAt: nat,
                      control: Option<ControlId>) returns (e: Transition)
    requires Resume(s, t, center, after, incumbent, createdAt, control).Ok?
    ensures var u := Resume(s, t, center, after, incumbent, createdAt, control).value;
      Grown(t, u, e) && Records(s, PoseOf(t), e) && ResumedEntry(e, center, after, incumbent, createdAt, control)
  {
    var u := Resume(s, t, center, after, incumbent, createdAt, control).value;
    e := u.transitions[|t.transitions|];
  }

  // ----- places -----

  predicate PlacedAt(p: Places, id: Option<ShotId>, x: Point) { id.Some? && id.value in p && p[id.value].Some? && x == ClampPoint(p[id.value].value) }

  /** A won comparison leads to where its new shot lies, a resumption to where the incumbent lies. */
  predicate PlacedEntry(p: Places, e: Transition)
  {
    && (Won(e) ==> PlacedAt(p, e.newShot, e.centerAfter))
    && (e.action.Resumed? ==> PlacedAt(p, e.incumbent, e.centerAfter))
  }

  predicate Placed(p: Places, ts: seq<Transition>) { forall i :: 0 <= i < |ts| ==> PlacedEntry(p, ts[i]) }

  predicate Extends(p: Places, q: Places) { forall k :: k in p ==> k in q && q[k] == p[k] }

  lemma PlacedInMore(p: Places, q: Places, ts: seq<Transition>)
    requires Placed(p, ts) && Extends(p, q)
    ensures Placed(q, ts)
  {
  }

  // ----- the history the trail tells -----

  /** What an entry says about the comparison or resumption behind it. */
  datatype Audit = Audit(
    preference: Option<Preference>, comparison: Option<ComparisonId>, newShot: Option<ShotId>, anchor: Option<ShotId>,
    incumbent: Option<ShotId>, after: Option<ComparisonId>, control: Option<ControlId>, createdAt: Option<nat>)

  function AuditOf(e: Transition): Audit
  {
    Audit(e.preference, e.comparison, e.newShot, e.anchor, e.incumbent, e.after, e.control, e.createdAt)
  }

  function Audits(ts: seq<Transition>): seq<Audit> { seq(|ts|, i requires 0 <= i < |ts| => AuditOf(ts[i])) }

  /** What comparison c and the marker after it leave in the trail; global-previous comparisons leave nothing. */
  function Told(c: Comparison, incumbent: ShotId, m: Markers): seq<Audit>
  {
    (if c.mode.GlobalPrevious? then []
     else [Audit(Some(c.preference), Some(c.id), Some(c.newShot), Some(c.anchor), Some(incumbent), None, None, Some(c.createdAt))])
    + (if Some(c.id) !in m then []
       else [Audit(None, None, None, None, Some(incumbent), Some(c.id), m[Some(c.id)].control, m[Some(c.id)].createdAt)])
  }

  /** The trail of a history with its resume markers; incumbents are those right after each comparison. */
  function TrailOf(base: ShotId, cs: seq<Comparison>, m: Markers): seq<Audit>
  {
    if cs == [] then []
    else TrailOf(base, cs[..|cs| - 1], m) + Told(cs[|cs| - 1], HeadAfter(base, cs).incumbent, m)
  }

  lemma AuditsAppend(ts: seq<Transition>, e: Transition)
    ensures Audits(ts + [e]) == Audits(ts) + [AuditOf(e)]
  {
  }

  lemma TrailAppend(base: ShotId, cs: seq<Comparison>, c: Comparison, m: Markers)
    ensures TrailOf(base, cs + [c], m) == TrailOf(base, cs, m) + Told(c, HeadAfter(base, cs + [c]).incumbent, m)
  {
    assert (cs + [c])[..|cs|] == cs;
  }

  lemma {:induction false} TrailReads(base: ShotId, cs: seq<Comparison>, m: Markers, n: Markers)
    requires forall k :: k in Named(cs) ==> (k in m <==> k in n) && (k in m ==> m[k] == n[k])
    ensures TrailOf(base, cs, m) == TrailOf(base, cs, n)
  {
    if cs != [] {
      NamedSplit(cs);
      TrailReads(base, cs[..|cs| - 1], m, n);
    }
  }

  // ----- replays -----

  /** A region replayed from a history: continuous, placed, and with exactly the trail of the history. */
  ghost predicate Replays(s: Schedule, p: Places, m: Markers, base: ShotId, x: Point, cs: seq<Comparison>, t: TrustRegion)
  {
    && Continuous({s}, t) && PoseAt(t, 0).center == ClampPoint(x)
    && Placed(p, t.transitions) && Audits(t.transitions) == TrailOf(base, cs, m)
  }

  lemma GrowsPlaced(p: Places, t: TrustRegion, u: TrustRegion, e: Transition)
    requires Placed(p, t.transitions) && u.transitions == t.transitions + [e] && PlacedEntry(p, e)
    ensures Placed(p, u.transitions)
  {
    forall i | 0 <= i < |u.transitions|
      ensures PlacedEntry(p, u.transitions[i])
    {
      if i < |t.transitions| {
        assert u.transitions[i] == t.transitions[i];
      }
    }
  }

  lemma SameStart(t: TrustRegion, u: TrustRegion, e: Transition)
    requires PoseAt(t, |t.transitions|) == PoseOf(t) && Grown(t, u, e) && e.centerBefore == t.center
    ensures PoseAt(u, 0).center == PoseAt(t, 0).center
  {
  }

  /** The region after the comparison and before its marker. */
  lemma JudgedReplays(s: Schedule, p: Places, base: ShotId, x: Point, cs: seq<Comparison>, trail: seq<Audit>, t: TrustRegion, c: Comparison,
                      incumbent: ShotId)
    requires Continuous({s}, t) && PoseAt(t, 0).center == ClampPoint(x) && Placed(p, t.transitions) && Audits(t.transitions) == trail
    requires c.newShot in p && p[c.newShot].Some? && Judge(s, t, c, p[c.newShot], Some(incumbent)).Ok?
    ensures var u := Judge(s, t, c, p[c.newShot], Some(incumbent)).value;
      && Continuous({s}, u) && PoseAt(u, 0).center == ClampPoint(x)
      && Placed(p, u.transitions) && Audits(u.transitions) == trail + Told(c, incumbent, map[])
  {
    if c.mode.BestIncumbent? {
      var u := Judge(s, t, c, p[c.newShot], Some(incumbent)).value;
      var e := JudgeRecords(s, t, c, p[c.newShot].value, Some(incumbent));
      GrowsContinuous(s, {s}, t, u, e);
      SameStart(t, u, e);
      GrowsPlaced(p, t, u, e);
      AuditsAppend(t.transitions, e);
    }
  }

  lemma ResumedReplays(s: Schedule, p: Places, x: Point, trail: seq<Audit>, t: TrustRegion, center: Point, c: Comparison, incumbent: ShotId,
                       createdAt: nat, control: Option<ControlId>)
    requires Continuous({s}, t) && PoseAt(t, 0).center == ClampPoint(x) && Placed(p, t.transitions) && Audits(t.transitions) == trail
    requires incumbent in p && p[incumbent] == Some(center)
    requires Resume(s, t, ClampPoint(center), Some(c.id), incumbent, createdAt, control).Ok?
    ensures var u := Resume(s, t, ClampPoint(center), Some(c.id), incumbent, createdAt, control).value;
      && Continuous({s}, u) && PoseAt(u, 0).center == ClampPoint(x) && Placed(p, u.transitions)
      && Audits(u.transitions) == trail + [Audit(None, None, None, None, Some(incumbent), Some(c.id), control, Some(createdAt))]
  {
    var u := Resume(s, t, ClampPoint(center), Some(c.id), incumbent, createdAt, control).value;
    var e := ResumeRecords(s, t, ClampPoint(center), Some(c.id), incumbent, createdAt, control);
    ClampedIsInside(center);
    GrowsContinuous(s, {s}, t, u, e);
    SameStart(t, u, e);
    GrowsPlaced(p, t, u, e);
    AuditsAppend(t.transitions, e);
  }

  lemma StepReplays(s: Schedule, p: Places, m: Markers, base: ShotId, x: Point, init: seq<Comparison>, r: Replayed, c: Comparison)
    requires r.head == HeadAfter(base, init) && Replays(s, p, m, base, x, init, r.region) && Stamped(m)
    requires ReplayStep(s, p, m, r, c).Ok? && AllPlaced(p)
    ensures Replays(s, p, m, base, x, init + [c], ReplayStep(s, p, m, r, c).value.region)
  {
    HeadAppend(base, init, c);
    TrailAppend(base, init, c, m);
    var inc := Advance(r.head, c).incumbent;
    var trail := TrailOf(base, init, m);
    JudgedReplays(s, p, base, x, init, trail, r.region, c, inc);
    if Some(c.id) in m {
      var judged := Judge(s, r.region, c, p[c.newShot], Some(inc)).value;
      ResumedReplays(s, p, x, trail + Told(c, inc, map[]), judged, p[inc].value, c, inc, m[Some(c.id)].createdAt.value, m[Some(c.id)].control);
    }
  }

  /** A replay leaves a continuous trail from the start, along the places of the shots, that tells exactly its history. */
  lemma {:induction false} ReplayTells(s: Schedule, p: Places, m: Markers, base: ShotId, x: Point, cs: seq<Comparison>)
    requires Replay(s, p, m, StartAt(s, base, x), cs).Ok? && AllPlaced(p) && Stamped(m)
    ensures Replays(s, p, m, base, x, cs, Replay(s, p, m, StartAt(s, base, x), cs).value.region)
  {
    if cs == [] {
      assert Starts(s, PoseOf(StartAt(s, base, x).region));
    } else {
      var init, c := cs[..|cs| - 1], cs[|cs| - 1];
      ReplayTells(s, p, m, base, x, init);
      ReplayHead(s, p, m, base, x, init);
      StepReplays(s, p, m, base, x, init, Replay(s, p, m, StartAt(s, base, x), init).value, c);
      assert init + [c] == cs;
    }
  }

  // ----- the stored trail -----

  /** The trail is the end of what the history tells: all of it, or what happened since the last reconfiguration. */
  ghost predicate TellsEnd(l: Ledger)
  {
    match Baseline(l.shots)
    case None => l.state.region.transitions == []
    case Some(base) =>
      exists before: seq<Audit> :: before + Audits(l.state.region.transitions) == TrailOf(base, l.comparisons, MarkersOf(l.state.region.transitions))
  }

  ghost predicate Trailed(ss: set<Schedule>, l: Ledger)
  {
    && Continuous(ss, l.state.region)
    && Placed(Centers(l.shots, l.table.rows), l.state.region.transitions)
    && TellsEnd(l)
  }

  /** In a faithful run the trail starts at the baseline and tells the whole history. */
  lemma FaithfulTrail(s: Settings, l: Ledger)
    requires Inv(l) && Faithful(s, l)
    ensures Trailed({s.schedule}, l)
    ensures Baseline(l.shots).Some? ==>
      var base := Baseline(l.shots).value;
      && PlacedAt(Centers(l.shots, l.table.rows), Some(base), PoseAt(l.state.region, 0).center)
      && Audits(l.state.region.transitions) == TrailOf(base, l.comparisons, MarkersOf(l.state.region.transitions))
  {
    if Baseline(l.shots).Some? {
      var base, m, p := Baseline(l.shots).value, MarkersOf(l.state.region.transitions), Centers(l.shots, l.table.rows);
      AllShotsPlaced(l);
      ReplayTells(s.schedule, p, m, base, p[base].value, l.comparisons);
      assert [] + Audits(l.state.region.transitions) == TrailOf(base, l.comparisons, m);
    } else {
      assert Starts(s.schedule, PoseOf(l.state.region));
    }
  }
}
