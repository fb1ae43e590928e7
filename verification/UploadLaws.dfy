/** What every interleaving of enqueues, maintenance and worker steps keeps. */
module UploadLaws {
  import opened Prelude
  import opened UploadQueues

  // ----- rows that disappear -----

  /** Rows went missing, but none that is in flight or already sent. */
  predicate Thinned(q: seq<Row>, p: seq<Row>)
  {
    && DistinctContents(p)
    && (forall x :: x in p ==> x in q)
    && (forall x :: x in q && x.status in {Uploading, Uploaded} ==> x in p)
  }

  /** Rows went missing, but rejected ones only. */
  predicate Spares(q: seq<Row>, p: seq<Row>)
  {
    && DistinctContents(p)
    && (forall x :: x in p ==> x in q)
    && (forall x :: x in q && !x.status.Rejected? ==> x in p)
  }

  lemma SparesTwice(q: seq<Row>, p: seq<Row>, r: seq<Row>)
    requires Spares(q, p) && Spares(p, r)
    ensures Spares(q, r)
  {
  }

  lemma {:induction false} BacklogSplits(a: seq<Row>, b: seq<Row>, record: Record)
    ensures Backlog(a + b, record) == Backlog(a, record) + Backlog(b, record)
  {
    if b == [] {
      assert a + b == a;
    } else {
      assert (a + b)[..|a + b| - 1] == a + b[..|b| - 1];
      BacklogSplits(a, b[..|b| - 1], record);
    }
  }

  lemma {:induction false} CoalesceThins(q: seq<Row>, c: Content)
    requires DistinctContents(q) && !Has(q, c, Uploaded) && !Has(q, c, Uploading)
    ensures Thinned(q, Coalesce(q, c)) && !Knows(Coalesce(q, c), c)
    ensures forall x :: x in Coalesce(q, c) ==> !Superseded(x, c.record)
    ensures forall record :: Backlog(Coalesce(q, c), record) <= Backlog(q, record)
  {
    if q != [] {
      var init, last := q[..|q| - 1], q[|q| - 1];
      assert forall x :: x in init ==> x.content != last.content;
      CoalesceThins(init, c);
      var p := Coalesce(init, c);
      assert forall x :: x in q <==> x in init || x == last;
      assert (p + [last])[..|p|] == p;
    }
  }

  lemma {:induction false} PurgeThins(q: seq<Row>, limit: nat, id: Option<nat>)
    requires DistinctContents(q)
    ensures Spares(q, PurgeRejected(q, limit, id))
    ensures forall record :: Backlog(PurgeRejected(q, limit, id), record) <= Backlog(q, record)
    decreases limit
  {
    var i := Newest(q, id);
    if limit > 0 && i.Some? {
      var p := q[..i.value] + q[i.value + 1..];
      RemovalThins(q, i.value);
      PurgeThins(p, limit - 1, id);
      SparesTwice(q, p, PurgeRejected(p, limit - 1, id));
    }
  }

  lemma RestIsDistinct(q: seq<Row>, i: nat)
    requires DistinctContents(q) && i < |q|
    ensures DistinctContents(q[..i] + q[i + 1..])
  {
    var p := q[..i] + q[i + 1..];
    assert forall k :: 0 <= k < |p| ==> p[k] == q[if k < i then k else k + 1];
  }

  lemma OnlyOneGoes(q: seq<Row>, i: nat)
    requires i < |q|
    ensures forall x :: x in q && x != q[i] ==> x in q[..i] + q[i + 1..]
  {
    forall x | x in q && x != q[i]
      ensures x in q[..i] + q[i + 1..]
    {
      var k :| 0 <= k < |q| && q[k] == x;
      assert (q[..i] + q[i + 1..])[if k < i then k else k - 1] == x;
    }
  }

  lemma OneGoes(q: seq<Row>, k: nat)
    requires DistinctContents(q) && k < |q|
    ensures forall x :: x in q[..k] + q[k + 1..] ==> x in q && x != q[k]
  {
    var p := q[..k] + q[k + 1..];
    forall x | x in p
      ensures x in q && x != q[k]
    {
      var j :| 0 <= j < |p| && p[j] == x;
      assert p[j] == q[if j < k then j else j + 1];
    }
  }

  lemma RemovalThins(q: seq<Row>, i: nat)
    requires DistinctContents(q) && i < |q| && q[i].status.Rejected?
    ensures Spares(q, q[..i] + q[i + 1..])
    ensures forall record :: Backlog(q[..i] + q[i + 1..], record) <= Backlog(q, record)
  {
    var p := q[..i] + q[i + 1..];
    RestIsDistinct(q, i);
    OnlyOneGoes(q, i);
    OneGoes(q, i);
    forall record
      ensures Backlog(p, record) <= Backlog(q, record)
    {
      RemovalBacklog(q, i, record);
    }
  }

  lemma RemovalBacklog(q: seq<Row>, i: nat, record: Record)
    requires i < |q|
    ensures Backlog(q[..i] + q[i + 1..], record) <= Backlog(q, record)
  {
    BacklogSplits(q[..i], q[i + 1..], record);
    BacklogSplits(q[..i], q[i..], record);
    BacklogSplits([q[i]], q[i + 1..], record);
    assert q == q[..i] + q[i..] && q[i..] == [q[i]] + q[i + 1..];
  }

  lemma ThinnedStaysOrderly(s: System, p: seq<Row>)
    requires Orderly(s) && Thinned(s.queue, p) && forall record :: Backlog(p, record) <= Backlog(s.queue, record)
    ensures Orderly(s.(queue := p))
  {
    assert forall i :: 0 <= i < |p| ==> p[i] in s.queue;
    forall c
      ensures Has(s.queue, c, Uploaded) <==> Has(p, c, Uploaded)
    {
      if Has(s.queue, c, Uploaded) {
        var i :| 0 <= i < |s.queue| && s.queue[i].content == c && s.queue[i].status == Uploaded;
        assert s.queue[i] in p;
      }
    }
  }

  lemma HasByRows(q: seq<Row>, p: seq<Row>, c: Content, status: UploadStatus)
    requires Has(q, c, status) && forall x :: x in q && x.status == status ==> x in p
    ensures Has(p, c, status)
  {
    var i :| 0 <= i < |q| && q[i].content == c && q[i].status == status;
    assert q[i] in p;
  }

  lemma PurgeStaysSafe(s: System, limit: nat, id: Option<nat>)
    requires Safe(s)
    ensures Safe(s.(queue := PurgeRejected(s.queue, limit, id)))
  {
    var p := PurgeRejected(s.queue, limit, id);
    PurgeThins(s.queue, limit, id);
    ThinnedStaysOrderly(s, p);
    if s.phase.Sending? {
      var c := s.phase.item.content;
      match TraceOf(s.log, c)
      case Marked => HasByRows(s.queue, p, c, Uploading);
      case Anew => HasByRows(s.queue, p, c, UploadStatus.Pending);
      case Gone => UnknownByRows(s.queue, p, c);
    }
  }

  lemma UnknownByRows(q: seq<Row>, p: seq<Row>, c: Content)
    requires !Knows(q, c) && forall x :: x in p ==> x in q
    ensures !Knows(p, c)
  {
    forall i | 0 <= i < |p|
      ensures p[i].content != c
    {
      assert p[i] in q;
    }
  }

  // ----- a record that is deleted -----

  lemma {:induction false} WithoutMembers(q: seq<Row>, record: Record)
    ensures forall x :: x in Without(q, record) <==> x in q && x.content.record != record
  {
    if q != [] {
      var init, last := q[..|q| - 1], q[|q| - 1];
      assert forall x :: x in q <==> x in init || x == last;
      WithoutMembers(init, record);
    }
  }

  lemma {:induction false} WithoutDistinct(q: seq<Row>, record: Record)
    requires DistinctContents(q)
    ensures DistinctContents(Without(q, record))
  {
    if q != [] {
      var init, last := q[..|q| - 1], q[|q| - 1];
      WithoutDistinct(init, record);
      WithoutMembers(init, record);
      assert q == init + [last];
      AppendDistinct(init, last, Without(init, record));
    }
  }

  lemma AppendDistinct(q: seq<Row>, r: Row, p: seq<Row>)
    requires DistinctContents(q + [r]) && DistinctContents(p) && forall x :: x in p ==> x in q
    ensures DistinctContents(p + [r])
  {
    forall i | 0 <= i < |p|
      ensures p[i].content != r.content
    {
      assert p[i] in q;
      var j :| 0 <= j < |q| && q[j] == p[i];
      assert (q + [r])[j] == q[j] && (q + [r])[|q|] == r;
    }
  }

  lemma {:induction false} WithoutBacklog(q: seq<Row>, record: Record, r: Record)
    ensures Backlog(Without(q, record), r) <= Backlog(q, r)
  {
    if q != [] {
      var p, last := Without(q[..|q| - 1], record), q[|q| - 1];
      WithoutBacklog(q[..|q| - 1], record, r);
      assert (p + [last])[..|p|] == p;
    }
  }

  lemma WithoutKeeps(q: seq<Row>, record: Record)
    requires DistinctContents(q)
    ensures forall x :: x in Without(q, record) <==> x in q && x.content.record != record
    ensures DistinctContents(Without(q, record))
    ensures forall r :: Backlog(Without(q, record), r) <= Backlog(q, r)
  {
    WithoutMembers(q, record);
    WithoutDistinct(q, record);
    forall r
      ensures Backlog(Without(q, record), r) <= Backlog(q, r)
    {
      WithoutBacklog(q, record, r);
    }
  }

  /** Deleting a record forgets its deliveries together with its rows. */
  lemma ForgetStaysSafe(s: System, record: Record)
    requires Safe(s)
    ensures Safe(Step(s, Forget(record)))
  {
    var t := Step(s, Forget(record));
    WithoutKeeps(s.queue, record);
    assert forall i :: 0 <= i < |t.queue| ==> t.queue[i] in s.queue;
    LoggedNoResend(s.log, Forgotten(record));
    ForgetRemembers(s, record);
    ForgetCounts(s, record);
    if s.phase.Sending? {
      var c := s.phase.item.content;
      LoggedTrace(s.log, Forgotten(record), c);
      if c.record != record {
        match TraceOf(s.log, c)
        case Marked => KeptRow(s.queue, record, c, Uploading);
        case Anew => KeptRow(s.queue, record, c, UploadStatus.Pending);
        case Gone =>
      }
    }
  }

  lemma KeptRow(q: seq<Row>, record: Record, c: Content, status: UploadStatus)
    requires DistinctContents(q) && Has(q, c, status) && c.record != record
    ensures Has(Without(q, record), c, status)
  {
    WithoutKeeps(q, record);
    var i :| 0 <= i < |q| && q[i].content == c && q[i].status == status;
    assert q[i] in Without(q, record);
  }

  lemma ForgetCounts(s: System, record: Record)
    requires Safe(s)
    ensures Counted(Step(s, Forget(record)))
  {
    var t := Step(s, Forget(record));
    WithoutKeeps(s.queue, record);
    LoggedCharges(s.log, Forgotten(record));
    forall i | 0 <= i < |t.queue|
      ensures t.queue[i].attempts == Charges(t.log, t.queue[i].content)
    {
      assert t.queue[i] in s.queue;
    }
  }

  lemma ForgetRemembers(s: System, record: Record)
    requires Safe(s)
    ensures Remembered(Step(s, Forget(record)))
  {
    var t := Step(s, Forget(record));
    WithoutKeeps(s.queue, record);
    forall c
      ensures Delivered(t.log, c) <==> Has(t.queue, c, Uploaded)
    {
      LoggedDelivery(s.log, Forgotten(record), c);
      if c.record != record && Has(s.queue, c, Uploaded) {
        KeptRow(s.queue, record, c, Uploaded);
      }
      if Has(t.queue, c, Uploaded) {
        var i :| 0 <= i < |t.queue| && t.queue[i].content == c && t.queue[i].status == Uploaded;
        assert t.queue[i] in s.queue;
      }
    }
  }

  // ----- rows that are updated in place -----

  lemma {:induction false} BacklogShrinks(q: seq<Row>, p: seq<Row>, record: Record)
    requires |p| == |q| && forall i :: 0 <= i < |q| ==> p[i].content == q[i].content && (p[i].status.Uploaded? || !q[i].status.Uploaded?)
    ensures Backlog(p, record) <= Backlog(q, record)
  {
    if q != [] {
      BacklogShrinks(q[..|q| - 1], p[..|p| - 1], record);
    }
  }

  lemma BacklogsShrink(q: seq<Row>, p: seq<Row>)
    requires |p| == |q| && forall i :: 0 <= i < |q| ==> p[i].content == q[i].content && (p[i].status.Uploaded? || !q[i].status.Uploaded?)
    ensures forall record :: Backlog(p, record) <= Backlog(q, record)
  {
    forall record
      ensures Backlog(p, record) <= Backlog(q, record)
    {
      BacklogShrinks(q, p, record);
    }
  }

  lemma LoggedDelivery(log: seq<Entry>, e: Entry, c: Content)
    ensures Delivered(log + [e], c) <==> e == Ended(c, Accepted) || (Delivered(log, c) && e != Forgotten(c.record))
  {
    assert (log + [e])[..|log|] == log;
  }

  lemma LoggedTrace(log: seq<Entry>, e: Entry, c: Content)
    ensures TraceOf(log + [e], c) ==
      match e
      case Sent(x) => if x == c then Marked else TraceOf(log, c)
      case Forgotten(record) => if record == c.record then Gone else TraceOf(log, c)
      case Inserted(x) =>
        if x.record != c.record || TraceOf(log, c).Marked? then TraceOf(log, c)
        else if x == c then Anew else Gone
      case _ => TraceOf(log, c)
  {
    assert (log + [e])[..|log|] == log;
  }

  lemma LoggedCharges(log: seq<Entry>, e: Entry)
    ensures forall c :: e.Forgotten? || c != e.content ==> Charges(log + [e], c) == Charges(log, c)
    ensures !e.Forgotten? ==>
      Charges(log + [e], e.content) ==
        if e.Inserted? || e.Requeued? then 0
        else if e.Ended? && (e.outcome.Refused? || e.outcome.Broken?) then Charges(log, e.content) + 1
        else Charges(log, e.content)
  {
    assert (log + [e])[..|log|] == log;
  }

  lemma LoggedNoResend(log: seq<Entry>, e: Entry)
    requires NoResend(log) && (e.Inserted? || e.Requeued? || e.Sent? ==> !Delivered(log, e.content))
    ensures NoResend(log + [e])
  {
    var next := log + [e];
    forall j | 0 <= j < |next| && (next[j].Inserted? || next[j].Requeued? || next[j].Sent?)
      ensures !Delivered(next[..j], next[j].content)
    {
      assert next[..j] == log[..j];
      if j < |log| {
        assert next[j] == log[j];
      } else {
        assert log[..j] == log;
      }
    }
  }

  /** One row that was never sent successfully is rewritten in place, and the log says how. */
  predicate Rewritten(s: System, t: System, k: nat, e: Entry)
  {
    && !e.Forgotten?
    && k < |s.queue| == |t.queue| && t.queue == s.queue[k := t.queue[k]]
    && t.queue[k].content == s.queue[k].content == e.content && !s.queue[k].status.Uploaded?
    && (t.queue[k].status.Uploaded? <==> e == Ended(e.content, Accepted))
    && t.log == s.log + [e]
    && t.queue[k].attempts == Charges(t.log, e.content)
  }

  lemma RewrittenKeeps(s: System, t: System, k: nat, e: Entry)
    requires Safe(s) && Rewritten(s, t, k, e)
    ensures DistinctContents(t.queue) && Counted(t) && Remembered(t) && NoResend(t.log) && Bounded(t)
    ensures forall c :: Knows(s.queue, c) ==> Knows(t.queue, c)
  {
    assert forall i :: 0 <= i < |s.queue| ==> t.queue[i].content == s.queue[i].content;
    BacklogsShrink(s.queue, t.queue);
    LoggedCharges(s.log, e);
    assert !Delivered(s.log, e.content);
    LoggedNoResend(s.log, e);
    RewrittenRemembers(s, t, k, e);
  }

  lemma RewrittenRemembers(s: System, t: System, k: nat, e: Entry)
    requires DistinctContents(s.queue) && Remembered(s) && Rewritten(s, t, k, e)
    ensures Remembered(t)
  {
    forall c
      ensures Delivered(t.log, c) <==> Has(t.queue, c, Uploaded)
    {
      LoggedDelivery(s.log, e, c);
      assert forall i :: 0 <= i < |s.queue| && i != k ==> t.queue[i] == s.queue[i];
      if Has(s.queue, c, Uploaded) {
        var i :| 0 <= i < |s.queue| && s.queue[i].content == c && s.queue[i].status == Uploaded;
        assert t.queue[i] == s.queue[i];
      }
      if e == Ended(c, Accepted) {
        assert t.queue[k].status == Uploaded;
      }
    }
  }

  lemma RowOf(q: seq<Row>, c: Content) returns (k: nat)
    requires DistinctContents(q) && Knows(q, c)
    ensures k < |q| && q[k].content == c && forall i :: 0 <= i < |q| && i != k ==> q[i].content != c
  {
    k :| k < |q| && q[k].content == c;
  }

  // ----- each step -----

  lemma {:induction false} SoleBacklog(q: seq<Row>, c: Content, record: Record)
    requires DistinctContents(q) && forall x :: x in q && Unsent(x, record) ==> x.content == c
    ensures Backlog(q, record) <= 1
    ensures (forall x :: x in q ==> !Unsent(x, record)) ==> Backlog(q, record) == 0
  {
    if q != [] {
      var init, last := q[..|q| - 1], q[|q| - 1];
      SoleBacklog(init, c, record);
      assert forall x :: x in init ==> x in q && x.content != last.content;
    }
  }

  lemma SubmitStaysSafe(s: System, c: Content, onlyIfNew: bool, now: nat)
    requires Safe(s) && !Skips(s.queue, c, onlyIfNew)
    ensures Safe(Step(s, Submit(c, onlyIfNew, now)))
  {
    var p := Coalesce(s.queue, c);
    CoalesceThins(s.queue, c);
    ThinnedStaysOrderly(s, p);
    SoleBacklog(p, if s.phase.Sending? then s.phase.item.content else c, c.record);
    AppendStaysOrderly(s.(queue := p), c, now);
    SubmitStaysTracked(s, c, now);
  }

  lemma AppendStaysOrderly(s: System, c: Content, now: nat)
    requires Orderly(s) && !Knows(s.queue, c) && Backlog(s.queue, c.record) <= 1
    ensures Orderly(s.(queue := s.queue + [NewRow(c, now)], log := s.log + [Inserted(c)]))
  {
    var t := s.(queue := s.queue + [NewRow(c, now)], log := s.log + [Inserted(c)]);
    LoggedCharges(s.log, Inserted(c));
    assert !Has(s.queue, c, Uploaded);
    LoggedNoResend(s.log, Inserted(c));
    assert t.queue[..|s.queue|] == s.queue;
    assert OnlyOneMarked(t) by {
      assert forall i :: 0 <= i < |s.queue| ==> t.queue[i] == s.queue[i];
    }
    forall x
      ensures Delivered(t.log, x) <==> Has(t.queue, x, Uploaded)
    {
      LoggedDelivery(s.log, Inserted(c), x);
      if Has(s.queue, x, Uploaded) {
        var i :| 0 <= i < |s.queue| && s.queue[i].content == x && s.queue[i].status == Uploaded;
        assert t.queue[i] == s.queue[i];
      }
    }
    assert forall record :: Backlog(t.queue, record) == Backlog(s.queue, record) + if record == c.record then 1 else 0;
  }

  lemma {:induction false} CoalesceSpares(q: seq<Row>, c: Content)
    ensures forall x :: x in q && x.content != c && !Superseded(x, c.record) ==> x in Coalesce(q, c)
    ensures forall x :: x in Coalesce(q, c) ==> x in q && x.content != c && !Superseded(x, c.record)
  {
    if q != [] {
      var init, last := q[..|q| - 1], q[|q| - 1];
      CoalesceSpares(init, c);
      assert forall x :: x in q <==> x in init || x == last;
      assert forall x :: x in Coalesce(init, c) + [last] <==> x in Coalesce(init, c) || x == last;
    }
  }

  lemma SubmitStaysTracked(s: System, c: Content, now: nat)
    requires Safe(s) && !Has(s.queue, c, Uploaded) && !Has(s.queue, c, Uploading)
    ensures Tracked(s.(queue := Coalesce(s.queue, c) + [NewRow(c, now)], log := s.log + [Inserted(c)]))
  {
    if s.phase.Sending? {
      var d, p := s.phase.item.content, Coalesce(s.queue, c);
      var q := p + [NewRow(c, now)];
      CoalesceSpares(s.queue, c);
      LoggedTrace(s.log, Inserted(c), d);
      assert q[|p|] == NewRow(c, now);
      match TraceOf(s.log, d)
      case Marked =>
        var i :| 0 <= i < |s.queue| && s.queue[i].content == d && s.queue[i].status == Uploading;
        assert s.queue[i] in p;
        HasByRows(p, q, d, Uploading);
      case Anew =>
        if c.record != d.record {
          var i :| 0 <= i < |s.queue| && s.queue[i].content == d && s.queue[i].status == UploadStatus.Pending;
          assert s.queue[i] in p;
          HasByRows(p, q, d, UploadStatus.Pending);
        } else if c != d {
          SupersededIsGone(s, c, d, q);
        }
      case Gone =>
        if c != d {
          assert forall x :: x in p ==> x in s.queue;
        }
    }
  }

  lemma SupersededIsGone(s: System, c: Content, d: Content, q: seq<Row>)
    requires DistinctContents(s.queue) && Has(s.queue, d, UploadStatus.Pending) && c.record == d.record && c != d
    requires forall x :: x in q ==> x.content == c || (x in s.queue && !Superseded(x, c.record))
    ensures !Knows(q, d)
  {
    var i :| 0 <= i < |s.queue| && s.queue[i].content == d && s.queue[i].status == UploadStatus.Pending;
    assert Superseded(s.queue[i], c.record);
  }

  lemma RearmStaysSafe(s: System, c: Content, now: nat)
    requires Safe(s) && Has(s.queue, c, Rejected)
    ensures Safe(Step(s, Rearm(c, now)))
  {
    var t := Step(s, Rearm(c, now));
    var k := RowOf(s.queue, c);
    assert t.queue == s.queue[k := t.queue[k]];
    LoggedCharges(s.log, Requeued(c));
    RewrittenKeeps(s, t, k, Requeued(c));
    if s.phase.Sending? {
      var d := s.phase.item.content;
      LoggedTrace(s.log, Requeued(c), d);
      match TraceOf(s.log, d)
      case Marked => OtherRowStays(s.queue, t.queue, k, d, Uploading);
      case Anew => OtherRowStays(s.queue, t.queue, k, d, UploadStatus.Pending);
      case Gone =>
    }
  }

  lemma OtherRowStays(q: seq<Row>, p: seq<Row>, k: nat, c: Content, status: UploadStatus)
    requires DistinctContents(q) && k < |q| == |p| && p == q[k := p[k]] && Has(q, c, status) && q[k].status != status
    ensures Has(p, c, status)
  {
    var i :| 0 <= i < |q| && q[i].content == c && q[i].status == status;
    assert p[i] == q[i];
  }

  lemma BeginStaysSafe(s: System, preflight: bool, now: nat)
    requires Safe(s) && s.phase.Idle? && s.batch != []
    ensures Safe(Step(s, Begin(preflight, now)))
  {
    var item, c := s.batch[0], s.batch[0].content;
    var t := Step(s, Begin(preflight, now));
    if Knows(s.queue, c) {
      var k := RowOf(s.queue, c);
      var e := if preflight then Sent(c) else Ended(c, Refused);
      assert t.queue == s.queue[k := t.queue[k]];
      LoggedCharges(s.log, e);
      RewrittenKeeps(s, t, k, e);
      LoggedTrace(s.log, e, c);
      if preflight {
        assert t.queue[k].content == c && t.queue[k].status == Uploading;
      }
    }
  }

  /** The outcome of an upload is recorded exactly when the sent content is still marked or was inserted anew; it is missed, and the
      worker's run aborted, exactly when its record was forgotten since and what was inserted since, if anything, is another
      snapshot of the record. */
  lemma FinishCondition(s: System, outcome: Outcome, now: nat)
    requires Safe(s) && s.phase.Sending?
    ensures var c, t := s.phase.item.content, Step(s, Finish(outcome, now));
      && Safe(t)
      && (if TraceOf(s.log, c).Gone? then t == Aborted(s) else t.log == s.log + [Ended(c, outcome)] && t.batch == s.batch)
  {
    var c := s.phase.item.content;
    var t := Step(s, Finish(outcome, now));
    if !TraceOf(s.log, c).Gone? {
      var k := RowOf(s.queue, c);
      assert t.queue == s.queue[k := t.queue[k]];
      LoggedCharges(s.log, Ended(c, outcome));
      RewrittenKeeps(s, t, k, Ended(c, outcome));
    }
  }

  /** A record stays unforgotten in a log. */
  predicate Spared(log: seq<Entry>, record: Record) { forall i :: 0 <= i < |log| ==> log[i] != Forgotten(record) }

  /** As long as its record is not forgotten, a content that was sent stays marked, whatever is inserted meanwhile. */
  lemma {:induction false} SparedStaysMarked(log: seq<Entry>, since: seq<Entry>, c: Content)
    requires TraceOf(log, c).Marked? && Spared(since, c.record)
    ensures TraceOf(log + since, c).Marked?
  {
    if since == [] {
      assert log + since == log;
    } else {
      var n := |since| - 1;
      assert forall i :: 0 <= i < n ==> since[..n][i] == since[i];
      SparedStaysMarked(log, since[..n], c);
      assert log + since == (log + since[..n]) + [since[n]];
      LoggedTrace(log + since[..n], since[n], c);
    }
  }

  /** Nothing of a record is inserted. */
  predicate NoneInserted(log: seq<Entry>, record: Record) { forall i :: 0 <= i < |log| && log[i].Inserted? ==> log[i].content.record != record }

  /** Unless something of its record is inserted meanwhile, a content that was sent is gone exactly when its record was forgotten since. */
  lemma {:induction false} ForgottenIsGone(log: seq<Entry>, since: seq<Entry>, c: Content)
    requires TraceOf(log, c).Marked? && NoneInserted(since, c.record) && Sent(c) !in since
    ensures TraceOf(log + since, c).Gone? <==> !Spared(since, c.record)
    ensures !TraceOf(log + since, c).Anew?
  {
    if since == [] {
      assert log + since == log;
    } else {
      var n := |since| - 1;
      assert forall i :: 0 <= i < n ==> since[..n][i] == since[i];
      ForgottenIsGone(log, since[..n], c);
      assert log + since == (log + since[..n]) + [since[n]];
      LoggedTrace(log + since[..n], since[n], c);
      assert Spared(since, c.record) <==> Spared(since[..n], c.record) && since[n] != Forgotten(c.record);
    }
  }

  lemma {:induction false} InsertedByAge(rows: seq<Row>, r: Row)
    ensures forall x :: x in InsertByAge(rows, r) <==> x in rows || x == r
    ensures DistinctContents(rows) && (forall x :: x in rows ==> x.content != r.content) ==> DistinctContents(InsertByAge(rows, r))
  {
    if rows != [] && rows[|rows| - 1].createdAt > r.createdAt {
      var init, last := rows[..|rows| - 1], rows[|rows| - 1];
      InsertedByAge(init, r);
      assert forall x :: x in rows <==> x in init || x == last;
      assert forall x :: x in InsertByAge(rows, r) <==> x in InsertByAge(init, r) || x == last;
      if DistinctContents(rows) && forall x :: x in rows ==> x.content != r.content {
        assert forall x :: x in InsertByAge(init, r) ==> x.content != last.content;
      }
    }
  }

  predicate ByAge(rows: seq<Row>) { forall i, j :: 0 <= i < j < |rows| ==> rows[i].createdAt <= rows[j].createdAt }

  lemma {:induction false} InsertionStaysByAge(rows: seq<Row>, r: Row)
    requires ByAge(rows)
    ensures ByAge(InsertByAge(rows, r))
  {
    if rows != [] && rows[|rows| - 1].createdAt > r.createdAt {
      var init, last := rows[..|rows| - 1], rows[|rows| - 1];
      InsertionStaysByAge(init, r);
      InsertedByAge(init, r);
      var p := InsertByAge(init, r);
      forall i | 0 <= i < |p|
        ensures p[i].createdAt <= last.createdAt
      {
        assert p[i] in p;
      }
    }
  }

  /** The ready list holds exactly the due rows, each once, oldest first. */
  lemma {:induction false} ReadyIsDue(q: seq<Row>, now: nat)
    requires DistinctContents(q)
    ensures forall x :: x in Ready(q, now) <==> x in q && Due(x, now)
    ensures DistinctContents(Ready(q, now)) && ByAge(Ready(q, now))
  {
    if q != [] {
      var init, last := q[..|q| - 1], q[|q| - 1];
      ReadyIsDue(init, now);
      assert forall x :: x in q <==> x in init || x == last;
      assert forall x :: x in init ==> x.content != last.content;
      InsertedByAge(Ready(init, now), last);
      InsertionStaysByAge(Ready(init, now), last);
    }
  }

  lemma PollStaysSafe(s: System, limit: nat, now: nat)
    requires Safe(s) && s.phase.Idle? && s.batch == []
    ensures Safe(Step(s, Poll(limit, now)))
  {
    ReadyIsDue(s.queue, now);
    var batch := Prefix(Ready(s.queue, now), limit);
    forall i, k | 0 <= i < |batch| && 0 <= k < |s.queue| && s.queue[k].content == batch[i].content
      ensures s.queue[k].status in {Pending, Failed}
    {
      assert batch[i] in Ready(s.queue, now);
    }
  }

  lemma StepStaysSafe(s: System, e: Event)
    requires Safe(s)
    ensures Safe(Step(s, e))
  {
    match e
    case Submit(c, onlyIfNew, now) => if !Skips(s.queue, c, onlyIfNew) { SubmitStaysSafe(s, c, onlyIfNew, now); }
    case Rearm(c, now) => if Has(s.queue, c, Rejected) { RearmStaysSafe(s, c, now); }
    case Purge(limit, id) =>
      PurgeStaysSafe(s, limit, id);
    case Forget(record) => ForgetStaysSafe(s, record);
    case Poll(limit, now) => if s.phase.Idle? && s.batch == [] { PollStaysSafe(s, limit, now); }
    case Begin(preflight, now) => if s.phase.Idle? && s.batch != [] { BeginStaysSafe(s, preflight, now); }
    case Finish(outcome, now) => if s.phase.Sending? { FinishCondition(s, outcome, now); }
    case Discard =>
      if s.phase.Discarding? {
        PurgeStaysSafe(s, 1, Some(s.phase.record.id));
      }
  }

  lemma {:induction false} EveryInterleavingIsSafe(es: seq<Event>)
    ensures Safe(Play(Empty, es))
  {
    if es != [] {
      EveryInterleavingIsSafe(es[..|es| - 1]);
      StepStaysSafe(Play(Empty, es[..|es| - 1]), es[|es| - 1]);
    }
  }

  /** A content that was accepted and is inserted, requeued or sent again later had its record forgotten in between. */
  lemma {:induction false} AcceptedOrForgotten(log: seq<Entry>, c: Content, i: nat, n: nat)
    requires i < n <= |log| && log[i] == Ended(c, Accepted)
    ensures Delivered(log[..n], c) || exists k :: i < k < n && log[k] == Forgotten(c.record)
  {
    assert log[..n][..n - 1] == log[..n - 1];
    if i < n - 1 {
      AcceptedOrForgotten(log, c, i, n - 1);
    }
  }

  /** The entry puts a content to work: into the queue, back into it, or on the wire. */
  predicate Renews(e: Entry, c: Content) { e in {Inserted(c), Entry.Requeued(c), Sent(c)} }

  /** With one worker, every interleaving of enqueues, maintenance, deletions and worker steps keeps at most one row uploading, at most
      two unsent rows of a record and attempts that count exactly the failed and refused outcomes; and what was accepted is
      inserted, requeued or sent again only after its record was forgotten. */
  lemma UploadsAreSafe(es: seq<Event>)
    ensures var s := Play(Empty, es);
      && (forall i, j :: 0 <= i < |s.queue| && 0 <= j < |s.queue| && s.queue[i].status.Uploading? && s.queue[j].status.Uploading? ==> i == j)
      && (forall record :: Backlog(s.queue, record) <= 2)
      && (forall i :: 0 <= i < |s.queue| ==> s.queue[i].attempts == Charges(s.log, s.queue[i].content))
      && (forall c, i, j :: 0 <= i < j < |s.log| && s.log[i] == Ended(c, Accepted) && Renews(s.log[j], c) ==>
            exists k :: i < k < j && s.log[k] == Forgotten(c.record))
  {
    EveryInterleavingIsSafe(es);
    var log := Play(Empty, es).log;
    forall c, i, j | 0 <= i < j < |log| && log[i] == Ended(c, Accepted) && Renews(log[j], c)
      ensures exists k :: i < k < j && log[k] == Forgotten(c.record)
    {
      AcceptedOrForgotten(log, c, i, j);
    }
  }

  /** Over every interleaving: an outcome is missed exactly when the row of what was sent is gone. */
  lemma OutcomeIsMissedExactly(es: seq<Event>, outcome: Outcome, now: nat)
    requires Play(Empty, es).phase.Sending?
    ensures var s := Play(Empty, es);
      var c, t := s.phase.item.content, Step(s, Finish(outcome, now));
      if TraceOf(s.log, c).Gone? then t == Aborted(s) else t.log == s.log + [Ended(c, outcome)]
  {
    EveryInterleavingIsSafe(es);
    FinishCondition(Play(Empty, es), outcome, now);
  }

  /** Nothing failed and nothing was refused: uploads were accepted or rate limited. */
  predicate OnlyLimited(es: seq<Event>)
  {
    forall i :: 0 <= i < |es| ==>
      (es[i].Begin? ==> es[i].preflight) && (es[i].Finish? ==> es[i].outcome.Accepted? || es[i].outcome.Limited?)
  }

  predicate Uncharged(log: seq<Entry>) { forall i :: 0 <= i < |log| && log[i].Ended? ==> log[i].outcome.Accepted? || log[i].outcome.Limited? }

  lemma {:induction false} UnchargedCounts(log: seq<Entry>, c: Content)
    requires Uncharged(log)
    ensures Charges(log, c) == 0
  {
    if log != [] {
      UnchargedCounts(log[..|log| - 1], c);
    }
  }

  lemma {:induction false} LimitedStaysUncharged(es: seq<Event>)
    requires OnlyLimited(es)
    ensures Uncharged(Play(Empty, es).log)
  {
    if es != [] {
      LimitedStaysUncharged(es[..|es| - 1]);
      var e := es[|es| - 1];
      assert e.Begin? ==> e.preflight;
    }
  }

  /** However often the server rate limits, it never costs a row an attempt. */
  lemma LimitingNeverCharges(es: seq<Event>)
    requires OnlyLimited(es)
    ensures var q := Play(Empty, es).queue; forall i :: 0 <= i < |q| ==> q[i].attempts == 0
  {
    EveryInterleavingIsSafe(es);
    LimitedStaysUncharged(es);
    var s := Play(Empty, es);
    forall i | 0 <= i < |s.queue|
      ensures s.queue[i].attempts == 0
    {
      UnchargedCounts(s.log, s.queue[i].content);
    }
  }

  // ----- what an enqueue leaves waiting -----

  /** The snapshot waits, and no other snapshot of its record does. */
  predicate LatestWaits(q: seq<Row>, c: Content)
  {
    Has(q, c, Pending) && forall i :: 0 <= i < |q| && Superseded(q[i], c.record) ==> q[i].content == c
  }

  /** The newest snapshot replaces what waited, except exactly when this content was accepted before or is being sent. */
  lemma EnqueueCondition(q: seq<Row>, c: Content, now: nat)
    requires DistinctContents(q)
    ensures LatestWaits(Enqueue(q, c, false, now), c) <==> !Has(q, c, Uploaded) && !Has(q, c, Uploading)
  {
    if !Skips(q, c, false) {
      CoalesceThins(q, c);
      var p := Coalesce(q, c);
      var next := p + [NewRow(c, now)];
      assert next[|p|] == NewRow(c, now);
      assert forall i :: 0 <= i < |p| ==> next[i] == p[i] && p[i] in p;
    }
  }

  /** A snapshot is stored, listed and put on the wire. */
  function Sends(a: Content): seq<Event> { [] + [Submit(a, false, 0)] + [Poll(1, 0)] + [Begin(true, 0)] }

  function Delivers(a: Content): seq<Event> { Sends(a) + [Finish(Accepted, 0)] }

  /** A record that goes back to content that was already accepted: the enqueue is dropped, the version in between stays
      the one that waits, and so the server is left with the version in between. */
  lemma RevertedContentIsLost(a: Content, b: Content)
    requires a.record == b.record && a != b
    ensures var s := Play(Empty, Delivers(a) + [Submit(b, false, 1)] + [Submit(a, false, 2)]);
      && s.queue == Play(Empty, Delivers(a) + [Submit(b, false, 1)]).queue
      && Has(s.queue, b, Pending) && !Has(s.queue, a, Pending) && Delivered(s.log, a)
  {
    var sent := AfterOneUpload(a);
    var waiting := AfterNextVersion(a, b, sent);
    PlayMore(Delivers(a), Submit(b, false, 1));
    PlayMore(Delivers(a) + [Submit(b, false, 1)], Submit(a, false, 2));
    assert Has(waiting.queue, a, Uploaded) && Step(waiting, Submit(a, false, 2)) == waiting;
  }

  lemma PlayMore(es: seq<Event>, e: Event)
    ensures Play(Empty, es + [e]) == Step(Play(Empty, es), e)
  {
    assert (es + [e])[..|es|] == es;
  }

  lemma AfterNextVersion(a: Content, b: Content, sent: System) returns (s: System)
    requires a.record == b.record && a != b && sent.phase.Idle?
    requires |sent.queue| == 1 && sent.queue[0].content == a && sent.queue[0].status.Uploaded? && sent.log == [Inserted(a), Sent(a), Ended(a, Accepted)]
    ensures s == Step(sent, Submit(b, false, 1)) && |s.queue| == 2 && s.queue[0] == sent.queue[0] && s.queue[1] == NewRow(b, 1)
    ensures Delivered(s.log, a)
  {
    assert Coalesce(sent.queue, b) == sent.queue by {
      assert sent.queue[..0] == [];
    }
    s := Step(sent, Submit(b, false, 1));
    LoggedDelivery([Inserted(a), Sent(a)], Ended(a, Accepted), a);
    LoggedDelivery(sent.log, Inserted(b), a);
    assert sent.log == [Inserted(a), Sent(a)] + [Ended(a, Accepted)];
  }

  /** A record that is deleted while its upload is on the wire: the server has it, the queue does not know, the run is over. */
  lemma ForgottenUploadIsMissed(a: Content)
    ensures Play(Empty, Sends(a) + [Forget(a.record)] + [Finish(Accepted, 0)])
         == System([], [], Idle, [Inserted(a), Sent(a), Forgotten(a.record)])
  {
    var sending := AfterSubmitAndBegin(a);
    var forgotten := AfterForget(a, sending);
    PlayMore(Sends(a), Forget(a.record));
    PlayMore(Sends(a) + [Forget(a.record)], Finish(Accepted, 0));
    assert [Inserted(a), Sent(a)] + [Forgotten(a.record)] == [Inserted(a), Sent(a), Forgotten(a.record)];
  }

  /** A record that is deleted while its upload is on the wire and stored again with the same content: the outcome is recorded. */
  lemma StoredAgainIsRecorded(a: Content)
    ensures var s := Play(Empty, Sends(a) + [Forget(a.record)] + [Submit(a, false, 0)] + [Finish(Accepted, 0)]);
      Has(s.queue, a, Uploaded) && s.log == [Inserted(a), Sent(a), Forgotten(a.record), Inserted(a), Ended(a, Accepted)]
  {
    var sending := AfterSubmitAndBegin(a);
    var forgotten := AfterForget(a, sending);
    PlayMore(Sends(a), Forget(a.record));
    PlayMore(Sends(a) + [Forget(a.record)], Submit(a, false, 0));
    PlayMore(Sends(a) + [Forget(a.record)] + [Submit(a, false, 0)], Finish(Accepted, 0));
    var again := Step(forgotten, Submit(a, false, 0));
    assert Coalesce([], a) + [NewRow(a, 0)] == [NewRow(a, 0)];
    assert again.queue[0] == NewRow(a, 0) && again.phase == Sending(NewRow(a, 0));
    var done := Step(again, Finish(Accepted, 0));
    assert done.queue[0].content == a && done.queue[0].status == Uploaded;
  }

  /** A record that is deleted after its content was accepted, and stored again: the same content is sent again. */
  lemma ForgottenContentIsSentAgain(a: Content)
    ensures var s := Play(Empty, Delivers(a) + [Forget(a.record)] + [Submit(a, false, 0)]);
      s.log == [Inserted(a), Sent(a), Ended(a, Accepted), Forgotten(a.record), Inserted(a)] && Has(s.queue, a, Pending)
  {
    var sent := AfterOneUpload(a);
    var forgotten := AfterForget(a, sent);
    PlayMore(Delivers(a), Forget(a.record));
    PlayMore(Delivers(a) + [Forget(a.record)], Submit(a, false, 0));
    var again := Step(forgotten, Submit(a, false, 0));
    assert Coalesce([], a) + [NewRow(a, 0)] == [NewRow(a, 0)];
    assert again.queue[0] == NewRow(a, 0);
  }

  lemma AfterForget(a: Content, s: System) returns (t: System)
    requires |s.queue| == 1 && s.queue[0].content == a
    ensures t == Step(s, Forget(a.record)) == s.(queue := [], log := s.log + [Forgotten(a.record)])
  {
    assert Without(s.queue[..0], a.record) == [];
    t := Step(s, Forget(a.record));
  }

  lemma AfterBegin(a: Content, polled: System) returns (s: System)
    requires polled == System([NewRow(a, 0)], [NewRow(a, 0)], Idle, [Inserted(a)])
    ensures s == Step(polled, Begin(true, 0)) && |s.queue| == 1 && s.queue[0].content == a && s.queue[0].status.Uploading?
    ensures s.phase == Sending(NewRow(a, 0)) && s.batch == [] && s.log == [Inserted(a), Sent(a)]
  {
    assert polled.queue[0].content == a;
    s := Step(polled, Begin(true, 0));
  }

  lemma AfterSubmitAndBegin(a: Content) returns (s: System)
    ensures s == Play(Empty, Sends(a))
    ensures |s.queue| == 1 && s.queue[0].content == a && s.queue[0].status.Uploading?
    ensures s.phase == Sending(NewRow(a, 0)) && s.batch == [] && s.log == [Inserted(a), Sent(a)]
  {
    var polled := AfterPoll(a);
    PlayMore([], Submit(a, false, 0));
    PlayMore([] + [Submit(a, false, 0)], Poll(1, 0));
    PlayMore([] + [Submit(a, false, 0)] + [Poll(1, 0)], Begin(true, 0));
    s := AfterBegin(a, polled);
  }

  lemma AfterOneUpload(a: Content) returns (s: System)
    ensures s == Play(Empty, Delivers(a))
    ensures |s.queue| == 1 && s.queue[0].content == a && s.queue[0].status.Uploaded?
    ensures s.phase.Idle? && s.log == [Inserted(a), Sent(a), Ended(a, Accepted)]
  {
    var sending := AfterSubmitAndBegin(a);
    PlayMore(Sends(a), Finish(Accepted, 0));
    s := Step(sending, Finish(Accepted, 0));
  }

  lemma AfterPoll(a: Content) returns (s: System)
    ensures s == Step(Step(Empty, Submit(a, false, 0)), Poll(1, 0)) == System([NewRow(a, 0)], [NewRow(a, 0)], Idle, [Inserted(a)])
  {
    FirstSubmit(a);
    ReadyAlone(NewRow(a, 0), 0);
    s := System([NewRow(a, 0)], [NewRow(a, 0)], Idle, [Inserted(a)]);
  }

  lemma FirstSubmit(a: Content)
    ensures Step(Empty, Submit(a, false, 0)) == System([NewRow(a, 0)], [], Idle, [Inserted(a)])
  {
    assert Coalesce([], a) + [NewRow(a, 0)] == [NewRow(a, 0)];
  }

  lemma ReadyAlone(r: Row, now: nat)
    requires Due(r, now)
    ensures Ready([r], now) == [r]
  {
    assert [r][..0] == [] && Ready([], now) == [] && InsertByAge([], r) == [r];
  }

  // ----- delays -----

  lemma {:induction false} PowerGrows(a: nat, b: nat)
    requires a <= b
    ensures 1 <= Power(a) <= Power(b)
  {
    if a < b {
      PowerGrows(a, b - 1);
    } else if a > 0 {
      PowerGrows(a - 1, a - 1);
    }
  }

  /** Retries back off monotonically from one minute and never reach the hour the code caps them at. */
  lemma RetriesBackOff(a: nat, b: nat)
    requires a <= b
    ensures 60 <= RetryDelay(a) <= RetryDelay(b) <= 1920
  {
    var m, n := if a < 5 then a else 5, if b < 5 then b else 5;
    PowerGrows(m, n);
    PowerGrows(n, 5);
    assert Power(5) == 32 by {
      assert Power(3) == 8;
    }
  }

  // ----- when a row was last charged -----

  predicate Dated(q: seq<Row>) { forall i :: 0 <= i < |q| ==> (q[i].attempts > 0 <==> q[i].lastAttempt.Some?) }

  lemma DatedInFewer(q: seq<Row>, p: seq<Row>)
    requires Dated(q) && forall x :: x in p ==> x in q || (x.attempts == 0 && x.lastAttempt.None?)
    ensures Dated(p)
  {
    forall i | 0 <= i < |p|
      ensures p[i].attempts > 0 <==> p[i].lastAttempt.Some?
    {
      assert p[i] in p;
    }
  }

  lemma StepStaysDated(s: System, e: Event)
    requires Dated(s.queue) && DistinctContents(s.queue)
    ensures Dated(Step(s, e).queue)
  {
    match e
    case Submit(c, onlyIfNew, now) =>
      CoalesceKeeps(s.queue, c);
      DatedInFewer(s.queue, Step(s, e).queue);
    case Rearm(c, now) =>
    case Purge(limit, id) =>
      PurgeThins(s.queue, limit, id);
      DatedInFewer(s.queue, PurgeRejected(s.queue, limit, id));
    case Forget(record) =>
      WithoutMembers(s.queue, record);
      DatedInFewer(s.queue, Without(s.queue, record));
    case Poll(limit, now) =>
    case Begin(preflight, now) =>
    case Finish(outcome, now) =>
    case Discard =>
      if s.phase.Discarding? {
        PurgeThins(s.queue, 1, Some(s.phase.record.id));
        DatedInFewer(s.queue, PurgeRejected(s.queue, 1, Some(s.phase.record.id)));
      }
  }

  /** Over every interleaving a row carries the time of its last attempt exactly when it was charged one. */
  lemma {:induction false} AttemptsAreDated(es: seq<Event>)
    ensures forall i :: 0 <= i < |Play(Empty, es).queue| ==>
      (Play(Empty, es).queue[i].attempts > 0 <==> Play(Empty, es).queue[i].lastAttempt.Some?)
  {
    if es != [] {
      AttemptsAreDated(es[..|es| - 1]);
      EveryInterleavingIsSafe(es[..|es| - 1]);
      StepStaysDated(Play(Empty, es[..|es| - 1]), es[|es| - 1]);
    }
  }

  // ----- the rows that go, and the rows that come back -----

  /** A purge takes the most recently updated rejected rows: none that it leaves is fresher than one that it takes. */
  lemma {:induction false} PurgeTakesNewest(q: seq<Row>, limit: nat, id: Option<nat>)
    requires DistinctContents(q)
    ensures forall x, y :: x in q && x !in PurgeRejected(q, limit, id) && y in PurgeRejected(q, limit, id) && Purgeable(y, id) ==>
      y.updatedAt < x.updatedAt || (y.updatedAt == x.updatedAt && y.createdAt <= x.createdAt)
    ensures forall x :: x in q && x !in PurgeRejected(q, limit, id) ==> Purgeable(x, id)
  {
    forall x | x in q && x !in PurgeRejected(q, limit, id)
      ensures TakenBefore(x, PurgeRejected(q, limit, id), id)
    {
      TakenWasNewest(q, limit, id, x);
    }
  }

  predicate TakenBefore(x: Row, rest: seq<Row>, id: Option<nat>)
  {
    Purgeable(x, id) && forall y :: y in rest && Purgeable(y, id) ==> !Fresher(y, x)
  }

  lemma {:induction false} TakenWasNewest(q: seq<Row>, limit: nat, id: Option<nat>, x: Row)
    requires DistinctContents(q) && x in q && x !in PurgeRejected(q, limit, id)
    ensures TakenBefore(x, PurgeRejected(q, limit, id), id)
    decreases limit
  {
    var i := Newest(q, id).value;
    if x == q[i] {
      NoneLeftIsFresher(q, limit, id);
    } else {
      OnlyOneGoes(q, i);
      RemovalThins(q, i);
      TakenWasNewest(q[..i] + q[i + 1..], limit - 1, id, x);
    }
  }

  lemma NoneLeftIsFresher(q: seq<Row>, limit: nat, id: Option<nat>)
    requires DistinctContents(q) && limit > 0 && Newest(q, id).Some?
    ensures forall y :: y in PurgeRejected(q, limit, id) && Purgeable(y, id) ==> !Fresher(y, q[Newest(q, id).value])
  {
    NewestIsNewest(q, id);
    PurgeThins(q, limit, id);
  }

  lemma {:induction false} NewestIsNewest(q: seq<Row>, id: Option<nat>)
    ensures Newest(q, id).None? ==> forall x :: x in q ==> !Purgeable(x, id)
    ensures Newest(q, id).Some? ==> forall x :: x in q && Purgeable(x, id) ==> !Fresher(x, q[Newest(q, id).value])
  {
    if q != [] {
      NewestIsNewest(q[..|q| - 1], id);
      assert forall x :: x in q <==> x in q[..|q| - 1] || x == q[|q| - 1];
    }
  }

  /** A row that an administrator requeues is due at once, with a clean record. */
  lemma RequeuedIsDue(q: seq<Row>, c: Content, now: nat, x: Row)
    requires Requeue(q, c, now).Some? && x in Requeue(q, c, now).value && x.content == c
    ensures x.attempts == 0 && x.status == Pending && x.lastAttempt.None? && forall later: nat :: Due(x, later)
  {
  }

  /** When an upload is refused, or its snapshot fails the preflight, and no clock ran backwards, its row is the one that is discarded. */
  lemma RefusedIsDiscarded(s: System, outcome: Outcome, now: nat)
    requires Safe(s) && s.phase.Sending? && outcome.Refused? && Knows(s.queue, s.phase.item.content)
    requires forall x :: x in s.queue ==> x.updatedAt < now
    ensures var c, t := s.phase.item.content, Step(Step(s, Finish(outcome, now)), Discard);
      && t.phase == Idle && !Knows(t.queue, c)
      && forall x :: x in t.queue <==> x in s.queue && x.content != c
  {
    var c := s.phase.item.content;
    var r := Step(s, Finish(outcome, now));
    var k := RowOf(s.queue, c);
    assert r.queue == s.queue[k := r.queue[k]];
    DiscardsOnly(r.queue, k, c.record.id, now);
  }

  lemma DiscardsOnly(q: seq<Row>, k: nat, id: nat, now: nat)
    requires DistinctContents(q) && k < |q| && Purgeable(q[k], Some(id)) && q[k].updatedAt == now
    requires forall i :: 0 <= i < |q| && i != k ==> q[i].updatedAt < now
    ensures PurgeRejected(q, 1, Some(id)) == q[..k] + q[k + 1..]
    ensures forall x :: x in PurgeRejected(q, 1, Some(id)) <==> x in q && x != q[k]
  {
    LatestIsNewest(q, k, id, now);
    assert PurgeRejected(q[..k] + q[k + 1..], 0, Some(id)) == q[..k] + q[k + 1..];
    OnlyOneGoes(q, k);
    OneGoes(q, k);
  }

  lemma LatestIsNewest(q: seq<Row>, k: nat, id: nat, now: nat)
    requires k < |q| && Purgeable(q[k], Some(id)) && q[k].updatedAt == now
    requires forall i :: 0 <= i < |q| && i != k ==> q[i].updatedAt < now
    ensures Newest(q, Some(id)) == Some(k)
  {
    NewestIsNewest(q, Some(id));
    assert q[k] in q;
  }

  // ----- waiting for a retry -----

  /** How long a row is left alone after an outcome: a failed one for a delay that grows with its attempts, a limited one for as long as the
      server says, or to the next midnight, and for a minute at least. */
  function Pause(outcome: Outcome, attempts: nat, now: nat): nat
    requires outcome.Limited? || outcome.Broken?
  {
    if outcome.Broken? then RetryDelay(attempts + 1)
    else
      var hint := if outcome.retryAfter.Some? then outcome.retryAfter.value else 86400 - now % 86400;
      if hint < 60 then 60 else hint
  }

  /** Nothing of the content is due, on the worker's list or on the wire before a time. */
  predicate Rests(s: System, c: Content, until: nat)
  {
    && (forall k :: 0 <= k < |s.queue| && s.queue[k].content == c ==>
          s.queue[k].status in {Pending, Failed} && s.queue[k].nextRetry.Some? && s.queue[k].nextRetry.value >= until)
    && (forall i :: 0 <= i < |s.batch| ==> s.batch[i].content != c)
    && (s.phase.Sending? ==> s.phase.item.content != c)
  }

  /** After a failed or limited outcome the content rests for its pause, and is due as soon as it is over. */
  lemma FinishRests(s: System, outcome: Outcome, now: nat)
    requires Safe(s) && s.phase.Sending? && (outcome.Limited? || outcome.Broken?)
    ensures var c, t, until := s.phase.item.content, Step(s, Finish(outcome, now)), now + Pause(outcome, s.phase.item.attempts, now);
      && Rests(t, c, until)
      && forall x, later: nat :: x in t.queue && x.content == c ==> (x in Ready(t.queue, later) <==> later >= until)
  {
    var c := s.phase.item.content;
    var t, until := Step(s, Finish(outcome, now)), now + Pause(outcome, s.phase.item.attempts, now);
    FinishCondition(s, outcome, now);
    if Knows(s.queue, c) {
      assert t.queue == Update(s.queue, c, StatusAfter(outcome), now, RetryAt(outcome, s.phase.item.attempts, now));
    }
    forall x, later: nat | x in t.queue && x.content == c
      ensures x in Ready(t.queue, later) <==> later >= until
    {
      ReadyIsDue(t.queue, later);
    }
  }

  /** The step brings nothing of the content back early: it does not enqueue it, and lists what is due before the pause is over. */
  predicate Patient(e: Event, c: Content, until: nat)
  {
    && (e.Submit? ==> e.content != c)
    && (e.Poll? ==> e.now < until)
  }

  lemma {:induction false} CoalesceKeeps(q: seq<Row>, c: Content)
    ensures forall x :: x in Coalesce(q, c) ==> x in q
  {
    if q != [] {
      CoalesceKeeps(q[..|q| - 1], c);
      assert forall x :: x in q <==> x in q[..|q| - 1] || x == q[|q| - 1];
    }
  }

  lemma RestsInFewer(s: System, q: seq<Row>, c: Content, until: nat)
    requires Rests(s, c, until) && forall x :: x in q ==> x in s.queue || x.content != c
    ensures forall k :: 0 <= k < |q| && q[k].content == c ==>
      q[k].status in {Pending, Failed} && q[k].nextRetry.Some? && q[k].nextRetry.value >= until
  {
    forall k | 0 <= k < |q| && q[k].content == c
      ensures q[k].status in {Pending, Failed} && q[k].nextRetry.Some? && q[k].nextRetry.value >= until
    {
      assert q[k] in q;
    }
  }

  lemma PollRests(s: System, limit: nat, now: nat, c: Content, until: nat)
    requires Rests(s, c, until) && now < until && DistinctContents(s.queue)
    ensures Rests(Step(s, Poll(limit, now)), c, until)
  {
    ReadyIsDue(s.queue, now);
    var batch := Prefix(Ready(s.queue, now), limit);
    forall i | 0 <= i < |batch|
      ensures batch[i].content != c
    {
      assert batch[i] in Ready(s.queue, now);
    }
  }

  lemma StepRests(s: System, e: Event, c: Content, until: nat)
    requires Rests(s, c, until) && Patient(e, c, until) && DistinctContents(s.queue)
    ensures Rests(Step(s, e), c, until)
    ensures Step(s, e).log == s.log || (Step(s, e).log == s.log + [Step(s, e).log[|s.log|]] && Step(s, e).log[|s.log|] != Sent(c))
  {
    match e
    case Submit(d, onlyIfNew, now) =>
      CoalesceKeeps(s.queue, d);
      RestsInFewer(s, Step(s, e).queue, c, until);
    case Rearm(d, now) =>
    case Purge(limit, id) =>
      PurgeThins(s.queue, limit, id);
      RestsInFewer(s, PurgeRejected(s.queue, limit, id), c, until);
    case Forget(record) =>
      WithoutMembers(s.queue, record);
      RestsInFewer(s, Without(s.queue, record), c, until);
    case Poll(limit, now) => PollRests(s, limit, now, c, until);
    case Begin(preflight, now) =>
    case Finish(outcome, now) =>
    case Discard =>
      if s.phase.Discarding? {
        PurgeThins(s.queue, 1, Some(s.phase.record.id));
        RestsInFewer(s, PurgeRejected(s.queue, 1, Some(s.phase.record.id)), c, until);
      }
  }

  lemma {:induction false} PlayRests(s: System, es: seq<Event>, c: Content, until: nat)
    requires Safe(s) && Rests(s, c, until) && forall i :: 0 <= i < |es| ==> Patient(es[i], c, until)
    ensures var t := Play(s, es);
      && Safe(t) && Rests(t, c, until) && |s.log| <= |t.log| && t.log[..|s.log|] == s.log
      && Sent(c) !in t.log[|s.log|..]
  {
    if es != [] {
      var t := Play(s, es[..|es| - 1]);
      PlayRests(s, es[..|es| - 1], c, until);
      StepStaysSafe(t, es[|es| - 1]);
      StepRests(t, es[|es| - 1], c, until);
    }
  }

  /** Over every interleaving: content whose upload failed or was limited is not sent again before its pause is over, whatever else is
      enqueued, requeued, purged, deleted or sent meanwhile, unless it is itself enqueued again. */
  lemma RetriesWait(es: seq<Event>, outcome: Outcome, now: nat, later: seq<Event>)
    requires Play(Empty, es).phase.Sending? && (outcome.Limited? || outcome.Broken?)
    requires var item := Play(Empty, es).phase.item;
      forall i :: 0 <= i < |later| ==> Patient(later[i], item.content, now + Pause(outcome, item.attempts, now))
    ensures var s := Step(Play(Empty, es), Finish(outcome, now));
      && |s.log| <= |Play(s, later).log|
      && Sent(Play(Empty, es).phase.item.content) !in Play(s, later).log[|s.log|..]
  {
    var s := Play(Empty, es);
    EveryInterleavingIsSafe(es);
    FinishRests(s, outcome, now);
    StepStaysSafe(s, Finish(outcome, now));
    PlayRests(Step(s, Finish(outcome, now)), later, s.phase.item.content, now + Pause(outcome, s.phase.item.attempts, now));
  }

  /** A rate limit without a hint lasts to the next midnight, at least a minute. */
  lemma LimitedToMidnight(now: nat)
    ensures var at := LimitedUntil(now, None);
      && at >= now + 60
      && (UntilDayReset(now) >= 60 ==> at % 86400 == 0 && at - now <= 86400 && forall t :: now < t < at ==> t % 86400 != 0)
  {
    var day := now / 86400;
    assert now + UntilDayReset(now) == (day + 1) * 86400;
    forall t | now < t < (day + 1) * 86400
      ensures t % 86400 != 0
    {
      assert t == (t / 86400) * 86400 + t % 86400;
    }
  }
}
