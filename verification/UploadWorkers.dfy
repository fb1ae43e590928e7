/** The queue and its worker as objects: rows changed in place, and one worker run over the rows that are due. */
module UploadWorkers {
  import opened Prelude
  import opened UploadQueues
  import opened UploadLaws

  class UploadQueue {
    var rows: seq<Row>

    constructor ()
      ensures rows == []
    {
      rows := [];
    }

    method Enqueue(c: Content, onlyIfNew: bool, now: nat)
      modifies this
      ensures rows == UploadQueues.Enqueue(old(rows), c, onlyIfNew, now)
    {
      var owned, settled, kept, i := false, false, [], 0;
      while i < |rows|
        invariant 0 <= i <= |rows| && rows == old(rows)
        invariant owned <==> exists k :: 0 <= k < i && rows[k].content.record == c.record
        invariant settled <==> exists k :: 0 <= k < i && rows[k].content == c && rows[k].status in {Uploaded, Uploading}
        invariant kept == Coalesce(rows[..i], c)
      {
        var r := rows[i];
        assert rows[..i + 1][..i] == rows[..i];
        owned := owned || r.content.record == c.record;
        settled := settled || (r.content == c && r.status in {Uploaded, Uploading});
        if !Superseded(r, c.record) && r.content != c {
          kept := kept + [r];
        }
        i := i + 1;
      }
      assert rows[..i] == rows;
      if (onlyIfNew && owned) || settled {
        return;
      }
      rows := kept + [NewRow(c, now)];
    }

    method ListReady(now: nat, limit: nat) returns (ready: seq<Row>)
      ensures ready == Prefix(Ready(rows, now), limit)
    {
      ready := [];
      var i := 0;
      while i < |rows|
        invariant 0 <= i <= |rows|
        invariant ready == Ready(rows[..i], now)
      {
        assert rows[..i + 1][..i] == rows[..i];
        if Due(rows[i], now) {
          ready := InsertByAge(ready, rows[i]);
        }
        i := i + 1;
      }
      assert rows[..i] == rows;
      ready := Prefix(ready, limit);
    }

    /** False when the identifier is unknown, in which case nothing changes. */
    method UpdateStatus(c: Content, status: UploadStatus, now: nat, nextRetry: Option<nat>) returns (known: bool)
      modifies this
      ensures known == Knows(old(rows), c)
      ensures rows == if known then Update(old(rows), c, status, now, nextRetry) else old(rows)
    {
      known := exists i :: 0 <= i < |rows| && rows[i].content == c;
      if known {
        rows := Update(rows, c, status, now, nextRetry);
      }
    }

    method Requeue(c: Content, now: nat) returns (known: bool)
      modifies this
      ensures known == Has(old(rows), c, Rejected)
      ensures rows == if known then UploadQueues.Requeue(old(rows), c, now).value else old(rows)
    {
      var requeued := UploadQueues.Requeue(rows, c, now);
      known := requeued.Some?;
      if known {
        rows := requeued.value;
      }
    }

    /** Deletes every row of a record, as deleting the record does. */
    method Forget(record: Record) returns (removed: nat)
      modifies this
      ensures rows == Without(old(rows), record)
      ensures |rows| + removed == |old(rows)|
    {
      var kept, i := [], 0;
      while i < |rows|
        invariant 0 <= i <= |rows| && rows == old(rows)
        invariant kept == Without(rows[..i], record)
      {
        assert rows[..i + 1][..i] == rows[..i];
        if rows[i].content.record != record {
          kept := kept + [rows[i]];
        }
        i := i + 1;
      }
      assert rows[..i] == rows;
      WithoutShrinks(rows, record);
      removed := |rows| - |kept|;
      rows := kept;
    }

    method PurgeRejected(limit: nat, id: Option<nat>) returns (purged: nat)
      modifies this
      ensures rows == UploadQueues.PurgeRejected(old(rows), limit, id)
      ensures |rows| + purged == |old(rows)|
    {
      purged := 0;
      var newest := Newest(rows, id);
      while purged < limit && newest.Some?
        invariant 0 <= purged <= limit && newest == Newest(rows, id)
        invariant UploadQueues.PurgeRejected(rows, limit - purged, id) == UploadQueues.PurgeRejected(old(rows), limit, id)
        invariant |rows| + purged == |old(rows)|
      {
        rows := rows[..newest.value] + rows[newest.value + 1..];
        newest := Newest(rows, id);
        purged := purged + 1;
      }
    }
  }

  lemma {:induction false} WithoutShrinks(q: seq<Row>, record: Record)
    ensures |Without(q, record)| <= |q|
  {
    if q != [] {
      WithoutShrinks(q[..|q| - 1], record);
    }
  }

  /** What the local preflight and the server say to a snapshot. */
  datatype Verdict = Verdict(preflight: bool, outcome: Outcome)

  /** The worker's steps for the first row of its batch. */
  function Serve(s: System, v: Verdict, now: nat): (t: System)
    requires s.phase.Idle? && s.batch != []
    ensures |t.batch| < |s.batch| && t.phase.Idle?
  {
    var begun := Step(s, Begin(v.preflight, now));
    var ended := if begun.phase.Sending? then Step(begun, Finish(v.outcome, now)) else begun;
    if ended.phase.Discarding? then Step(ended, Discard) else ended
  }

  function Drain(s: System, remote: Content -> Verdict, now: nat): (t: System)
    requires s.phase.Idle?
    ensures t.phase.Idle? && t.batch == []
    decreases |s.batch|
  {
    if s.batch == [] then s else Drain(Serve(s, remote(s.batch[0].content), now), remote, now)
  }

  function AcceptedIn(log: seq<Entry>): nat
  {
    if log == [] then 0
    else AcceptedIn(log[..|log| - 1]) + if log[|log| - 1].Ended? && log[|log| - 1].outcome.Accepted? then 1 else 0
  }

  class UploadWorker {
    const queue: UploadQueue

    constructor (rows: UploadQueue)
      ensures queue == rows
    {
      queue := rows;
    }

    /** One run without interference: lists the due rows and serves them one by one; returns how many were accepted. */
    method RunOnce(limit: nat, now: nat, remote: Content -> Verdict) returns (uploaded: nat)
      modifies queue
      ensures var s := Drain(Step(System(old(queue.rows), [], Idle, []), Poll(limit, now)), remote, now);
        queue.rows == s.queue && uploaded == AcceptedIn(s.log)
    {
      var batch := queue.ListReady(now, limit);
      ghost var start := Step(System(queue.rows, [], Idle, []), Poll(limit, now));
      ghost var s := start;
      var i := 0;
      uploaded := 0;
      while i < |batch|
        invariant 0 <= i <= |batch|
        invariant s.phase.Idle? && s.queue == queue.rows && s.batch == batch[i..]
        invariant Drain(s, remote, now) == Drain(start, remote, now)
        invariant uploaded == AcceptedIn(s.log)
      {
        var v := remote(batch[i].content);
        ghost var next := Serve(s, v, now);
        var served := ServeRow(s, batch[i], v, now);
        uploaded := uploaded + if served == Some(Accepted) then 1 else 0;
        s := next;
        if served.None? {
          return;
        }
        i := i + 1;
      }
    }

    /** The body of the loop; None when a row was unknown and the run is over. */
    method ServeRow(ghost s: System, item: Row, v: Verdict, now: nat) returns (served: Option<Outcome>)
      requires s.phase.Idle? && s.batch != [] && s.batch[0] == item && s.queue == queue.rows
      modifies queue
      ensures var t := Serve(s, v, now);
        && queue.rows == t.queue
        && t.batch == (if served.None? then [] else s.batch[1..])
        && AcceptedIn(t.log) == AcceptedIn(s.log) + if served == Some(Accepted) then 1 else 0
    {
      ghost var first := s.(batch := s.batch[1..]);
      var outcome := Refused;
      if v.preflight {
        var known := queue.UpdateStatus(item.content, Uploading, now, None);
        if !known {
          return None;
        }
        outcome := v.outcome;
        AcceptedGrows(s.log, Sent(item.content));
      }
      ghost var log := if v.preflight then s.log + [Sent(item.content)] else s.log;
      var known := queue.UpdateStatus(item.content, StatusAfter(outcome), now, RetryAt(outcome, item.attempts, now));
      if !known {
        return None;
      }
      AcceptedGrows(log, Ended(item.content, outcome));
      if outcome.Refused? {
        var purged := queue.PurgeRejected(1, Some(item.content.record.id));
      }
      return Some(outcome);
    }
  }

  lemma AcceptedGrows(log: seq<Entry>, e: Entry)
    ensures AcceptedIn(log + [e]) == AcceptedIn(log) + if e.Ended? && e.outcome.Accepted? then 1 else 0
  {
    assert (log + [e])[..|log|] == log;
  }

  // ----- a run without interference serves every due row once -----

  function ServedItem(c: Content, v: Verdict): seq<Entry>
  {
    if v.preflight then [Sent(c), Ended(c, v.outcome)] else [Ended(c, Refused)]
  }

  function Served(batch: seq<Row>, remote: Content -> Verdict): seq<Entry>
  {
    if batch == [] then [] else ServedItem(batch[0].content, remote(batch[0].content)) + Served(batch[1..], remote)
  }

  predicate BatchKnown(s: System) { forall i :: 0 <= i < |s.batch| ==> Knows(s.queue, s.batch[i].content) }

  lemma {:induction false} PurgeKeepsOthers(q: seq<Row>, limit: nat, id: Option<nat>, c: Content)
    requires Knows(q, c) && !Has(q, c, Rejected)
    ensures Knows(PurgeRejected(q, limit, id), c)
    decreases limit
  {
    var i := Newest(q, id);
    if limit > 0 && i.Some? {
      var k :| 0 <= k < |q| && q[k].content == c;
      var p := q[..i.value] + q[i.value + 1..];
      assert q[k] == if k < i.value then p[k] else p[k - 1];
      assert forall j :: 0 <= j < |p| ==> p[j] == q[if j < i.value then j else j + 1];
      PurgeKeepsOthers(p, limit - 1, id, c);
    }
  }

  lemma UpdateKeepsKnown(q: seq<Row>, c: Content, status: UploadStatus, now: nat, nextRetry: Option<nat>)
    ensures forall d :: Knows(q, d) ==> Knows(Update(q, c, status, now, nextRetry), d)
    ensures forall d, t :: d != c && Has(Update(q, c, status, now, nextRetry), d, t) ==> Has(q, d, t)
  {
    var p := Update(q, c, status, now, nextRetry);
    assert forall i :: 0 <= i < |q| ==> p[i].content == q[i].content && (q[i].content != c ==> p[i] == q[i]);
  }

  lemma ServeOne(s: System, v: Verdict, now: nat)
    requires Safe(s) && s.phase.Idle? && s.batch != [] && BatchKnown(s)
    ensures var t := Serve(s, v, now);
      && Safe(t) && BatchKnown(t) && t.batch == s.batch[1..]
      && t.log == s.log + ServedItem(s.batch[0].content, v)
  {
    var begun := Step(s, Begin(v.preflight, now));
    assert Knows(s.queue, s.batch[0].content);
    StepStaysSafe(s, Begin(v.preflight, now));
    if v.preflight {
      StepStaysSafe(begun, Finish(v.outcome, now));
    }
    var ended := if v.preflight then Step(begun, Finish(v.outcome, now)) else begun;
    EndedKnows(s, v, now, ended);
    if ended.phase.Discarding? {
      DiscardKnows(ended);
    }
  }

  lemma EndedKnows(s: System, v: Verdict, now: nat, ended: System)
    requires Safe(s) && s.phase.Idle? && s.batch != [] && BatchKnown(s)
    requires var begun := Step(s, Begin(v.preflight, now)); ended == if v.preflight then Step(begun, Finish(v.outcome, now)) else begun
    ensures ended.batch == s.batch[1..] && BatchKnown(ended)
    ensures ended.log == s.log + ServedItem(s.batch[0].content, v)
    ensures ended.phase.Idle? || ended.phase.Discarding?
  {
    var item := s.batch[0];
    assert Knows(s.queue, item.content);
    if v.preflight {
      UpdateKeepsKnown(s.queue, item.content, Uploading, now, None);
      var q := Update(s.queue, item.content, Uploading, now, None);
      UpdateKeepsKnown(q, item.content, StatusAfter(v.outcome), now, RetryAt(v.outcome, item.attempts, now));
    } else {
      UpdateKeepsKnown(s.queue, item.content, Rejected, now, None);
    }
    assert forall i :: 0 <= i < |s.batch[1..]| ==> s.batch[1..][i] == s.batch[i + 1];
  }

  lemma DiscardKnows(s: System)
    requires Safe(s) && s.phase.Discarding? && BatchKnown(s)
    ensures Safe(Step(s, Discard)) && BatchKnown(Step(s, Discard))
  {
    StepStaysSafe(s, Discard);
    forall i | 0 <= i < |s.batch|
      ensures Knows(Step(s, Discard).queue, s.batch[i].content)
    {
      assert !Has(s.queue, s.batch[i].content, Rejected);
      PurgeKeepsOthers(s.queue, 1, Some(s.phase.record.id), s.batch[i].content);
    }
  }

  lemma {:induction false} DrainServesAll(s: System, remote: Content -> Verdict, now: nat)
    requires Safe(s) && s.phase.Idle? && BatchKnown(s)
    ensures Safe(Drain(s, remote, now)) && Drain(s, remote, now).log == s.log + Served(s.batch, remote)
    decreases |s.batch|
  {
    if s.batch != [] {
      var v := remote(s.batch[0].content);
      ServeOne(s, v, now);
      DrainServesAll(Serve(s, v, now), remote, now);
    }
  }

  /** An undisturbed run sends every due row that passes the preflight exactly once, oldest first up to the limit,
      and leaves nothing uploading. */
  lemma RunServesDueRows(s: System, limit: nat, remote: Content -> Verdict, now: nat)
    requires Safe(s) && s.phase.Idle? && s.batch == []
    ensures var t := Drain(Step(s, Poll(limit, now)), remote, now);
      && Safe(t) && t.log == s.log + Served(Prefix(Ready(s.queue, now), limit), remote)
      && forall i :: 0 <= i < |t.queue| ==> !t.queue[i].status.Uploading?
  {
    var polled := Step(s, Poll(limit, now));
    StepStaysSafe(s, Poll(limit, now));
    ReadyIsDue(s.queue, now);
    forall i | 0 <= i < |polled.batch|
      ensures Knows(polled.queue, polled.batch[i].content)
    {
      assert polled.batch[i] in Ready(s.queue, now);
    }
    DrainServesAll(polled, remote, now);
  }
}
