/** The coalescing upload queue and its worker, as a state machine in which other threads enqueue, requeue, purge and delete records
    between any two steps of the worker. Upload identifiers are derived from the content, as for shots and comparisons. */
module UploadQueues {
  import opened Prelude

  /** The local record an upload is a snapshot of. */
  datatype Record = Record(kind: nat, id: nat)

  /** A snapshot of a record; also its upload identifier. */
  datatype Content = Content(record: Record, digest: nat)

  datatype UploadStatus = Pending | Uploading | Uploaded | Failed | Rejected

  datatype Row = Row(content: Content, status: UploadStatus, attempts: nat, lastAttempt: Option<nat>, nextRetry: Option<nat>,
                     createdAt: nat, updatedAt: nat)

  // ----- queue operations -----

  predicate Has(q: seq<Row>, c: Content, status: UploadStatus) { exists i :: 0 <= i < |q| && q[i].content == c && q[i].status == status }

  predicate Knows(q: seq<Row>, c: Content) { exists i :: 0 <= i < |q| && q[i].content == c }

  predicate Superseded(r: Row, record: Record) { r.content.record == record && r.status in {Pending, Failed, Rejected} }

  /** Drops what a new snapshot of the record replaces. */
  function Coalesce(q: seq<Row>, c: Content): seq<Row>
  {
    if q == [] then []
    else
      var rest, last := Coalesce(q[..|q| - 1], c), q[|q| - 1];
      if Superseded(last, c.record) || last.content == c then rest else rest + [last]
  }

  function NewRow(c: Content, now: nat): Row { Row(c, Pending, 0, None, None, now, now) }

  predicate Skips(q: seq<Row>, c: Content, onlyIfNew: bool)
  {
    || (onlyIfNew && exists i :: 0 <= i < |q| && q[i].content.record == c.record)
    || Has(q, c, Uploaded)
    || Has(q, c, Uploading)
  }

  function Enqueue(q: seq<Row>, c: Content, onlyIfNew: bool, now: nat): seq<Row>
  {
    if Skips(q, c, onlyIfNew) then q else Coalesce(q, c) + [NewRow(c, now)]
  }

  predicate Due(r: Row, now: nat) { r.status in {Pending, Failed} && (r.nextRetry.None? || r.nextRetry.value <= now) }

  function InsertByAge(rows: seq<Row>, r: Row): seq<Row>
  {
    if rows == [] || rows[|rows| - 1].createdAt <= r.createdAt then rows + [r]
    else InsertByAge(rows[..|rows| - 1], r) + [rows[|rows| - 1]]
  }

  /** The due rows, oldest first. */
  function Ready(q: seq<Row>, now: nat): seq<Row>
  {
    if q == [] then []
    else
      var earlier := Ready(q[..|q| - 1], now);
      if Due(q[|q| - 1], now) then InsertByAge(earlier, q[|q| - 1]) else earlier
  }

  function Prefix(rows: seq<Row>, limit: nat): seq<Row> { if |rows| <= limit then rows else rows[..limit] }

  function Restated(r: Row, status: UploadStatus, now: nat, nextRetry: Option<nat>): Row
  {
    var charged := status in {Failed, Rejected};
    r.(status := status, attempts := if charged then r.attempts + 1 else r.attempts,
       lastAttempt := if charged then Some(now) else r.lastAttempt, nextRetry := nextRetry, updatedAt := now)
  }

  function Update(q: seq<Row>, c: Content, status: UploadStatus, now: nat, nextRetry: Option<nat>): seq<Row>
  {
    seq(|q|, i requires 0 <= i < |q| => if q[i].content == c then Restated(q[i], status, now, nextRetry) else q[i])
  }

  /** None when the identifier is unknown. */
  function UpdateStatus(q: seq<Row>, c: Content, status: UploadStatus, now: nat, nextRetry: Option<nat>): Option<seq<Row>>
  {
    if Knows(q, c) then Some(Update(q, c, status, now, nextRetry)) else None
  }

  /** Only a rejected row can be requeued. */
  function Requeue(q: seq<Row>, c: Content, now: nat): Option<seq<Row>>
  {
    if !Has(q, c, Rejected) then None
    else Some(seq(|q|, i requires 0 <= i < |q| =>
                if q[i].content == c then q[i].(status := Pending, attempts := 0, lastAttempt := None, nextRetry := None, updatedAt := now) else q[i]))
  }

  predicate Purgeable(r: Row, id: Option<nat>) { r.status.Rejected? && (id.Some? ==> r.content.record.id == id.value) }

  predicate Fresher(a: Row, b: Row) { a.updatedAt > b.updatedAt || (a.updatedAt == b.updatedAt && a.createdAt > b.createdAt) }

  /** The most recently updated row that may be purged. */
  function Newest(q: seq<Row>, id: Option<nat>): (r: Option<nat>)
    ensures r.Some? ==> r.value < |q| && Purgeable(q[r.value], id)
  {
    if q == [] then None
    else
      var n, earlier := |q| - 1, Newest(q[..|q| - 1], id);
      if !Purgeable(q[n], id) then earlier
      else if earlier.Some? && !Fresher(q[n], q[earlier.value]) then earlier
      else Some(n)
  }

  function PurgeRejected(q: seq<Row>, limit: nat, id: Option<nat>): seq<Row>
    decreases limit
  {
    var i := Newest(q, id);
    if limit == 0 || i.None? then q else PurgeRejected(q[..i.value] + q[i.value + 1..], limit - 1, id)
  }

  /** Deleting a local record deletes every upload row of it, whatever its status. */
  function Without(q: seq<Row>, record: Record): seq<Row>
  {
    if q == [] then []
    else
      var rest, last := Without(q[..|q| - 1], record), q[|q| - 1];
      if last.content.record == record then rest else rest + [last]
  }

  // ----- delays -----

  function Power(n: nat): nat { if n == 0 then 1 else 2 * Power(n - 1) }

  function RetryDelay(attempts: nat): nat
  {
    var wait := 60 * Power(if attempts < 5 then attempts else 5);
    if wait < 3600 then wait else 3600
  }

  function UntilDayReset(now: nat): nat { 86400 - now % 86400 }

  function LimitedUntil(now: nat, retryAfter: Option<nat>): nat
  {
    var delay := if retryAfter.Some? then retryAfter.value else UntilDayReset(now);
    now + if delay < 60 then 60 else delay
  }

  // ----- worker -----

  datatype Outcome = Accepted | Refused | Limited(retryAfter: Option<nat>) | Broken

  datatype Phase = Idle | Sending(item: Row) | Discarding(record: Record)

  /** What has happened to each content and record so far. */
  datatype Entry =
    | Inserted(content: Content)
    | Requeued(content: Content)
    | Sent(content: Content)
    | Ended(content: Content, outcome: Outcome)
    | Forgotten(record: Record)

  datatype System = System(queue: seq<Row>, batch: seq<Row>, phase: Phase, log: seq<Entry>)

  datatype Event =
    | Submit(content: Content, onlyIfNew: bool, now: nat)
    | Rearm(content: Content, now: nat)
    | Purge(limit: nat, id: Option<nat>)
    | Forget(record: Record)
    | Poll(limit: nat, now: nat)
    | Begin(preflight: bool, now: nat)
    | Finish(outcome: Outcome, now: nat)
    | Discard

  /** A worker run that meets an unknown row raises out of its loop and drops the rest of its batch. */
  function Aborted(s: System): System { s.(batch := [], phase := Idle) }

  function StatusAfter(outcome: Outcome): UploadStatus
  {
    match outcome
    case Accepted => Uploaded
    case Refused => Rejected
    case Limited(_) => Pending
    case Broken => Failed
  }

  function RetryAt(outcome: Outcome, attempts: nat, now: nat): Option<nat>
  {
    match outcome
    case Accepted => None
    case Refused => None
    case Limited(after) => Some(LimitedUntil(now, after))
    case Broken => Some(now + RetryDelay(attempts + 1))
  }

  /** How the worker ends its work on a row; a refused upload is discarded next. */
  function FinishItem(s: System, item: Row, outcome: Outcome, now: nat): System
  {
    var updated := UpdateStatus(s.queue, item.content, StatusAfter(outcome), now, RetryAt(outcome, item.attempts, now));
    if updated.None? then Aborted(s)
    else s.(queue := updated.value, phase := if outcome.Refused? then Discarding(item.content.record) else Idle,
            log := s.log + [Ended(item.content, outcome)])
  }

  /** A snapshot that fails the local preflight is refused without being sent. */
  function BeginItem(s: System, item: Row, preflight: bool, now: nat): System
  {
    if !preflight then FinishItem(s, item, Refused, now)
    else
      var updated := UpdateStatus(s.queue, item.content, Uploading, now, None);
      if updated.None? then Aborted(s)
      else s.(queue := updated.value, phase := Sending(item), log := s.log + [Sent(item.content)])
  }

  /** One atomic step; an event that does not fit the worker's phase, or a call that raises, changes nothing. */
  function Step(s: System, e: Event): System
  {
    match e
    case Submit(c, onlyIfNew, now) =>
      if Skips(s.queue, c, onlyIfNew) then s
      else s.(queue := Enqueue(s.queue, c, onlyIfNew, now), log := s.log + [Inserted(c)])
    case Rearm(c, now) =>
      var requeued := Requeue(s.queue, c, now);
      if requeued.None? then s else s.(queue := requeued.value, log := s.log + [Entry.Requeued(c)])
    case Purge(limit, id) => s.(queue := PurgeRejected(s.queue, limit, id))
    case Forget(record) => s.(queue := Without(s.queue, record), log := s.log + [Forgotten(record)])
    case Poll(limit, now) => if s.phase.Idle? && s.batch == [] then s.(batch := Prefix(Ready(s.queue, now), limit)) else s
    case Begin(preflight, now) =>
      if s.phase.Idle? && s.batch != [] then BeginItem(s.(batch := s.batch[1..]), s.batch[0], preflight, now) else s
    case Finish(outcome, now) => if s.phase.Sending? then FinishItem(s, s.phase.item, outcome, now) else s
    case Discard => if s.phase.Discarding? then s.(queue := PurgeRejected(s.queue, 1, Some(s.phase.record.id)), phase := Idle) else s
  }

  function Play(s: System, es: seq<Event>): System
  {
    if es == [] then s else Step(Play(s, es[..|es| - 1]), es[|es| - 1])
  }

  const Empty := System([], [], Idle, [])

  // ----- what must hold -----

  /** Failed or rejected outcomes of a content since it was inserted or requeued. */
  function Charges(log: seq<Entry>, c: Content): nat
  {
    if log == [] then 0
    else
      var e, earlier := log[|log| - 1], Charges(log[..|log| - 1], c);
      if e.Forgotten? || e.content != c then earlier
      else if e.Inserted? || e.Requeued? then 0
      else if e.Ended? && (e.outcome.Refused? || e.outcome.Broken?) then earlier + 1
      else earlier
  }

  /** The content was accepted, and its record was not forgotten since. */
  predicate Delivered(log: seq<Entry>, c: Content)
  {
    if log == [] then false
    else
      var e := log[|log| - 1];
      e == Ended(c, Accepted) || (e != Forgotten(c.record) && Delivered(log[..|log| - 1], c))
  }

  /** Where the row of the content that was sent last is: still marked, inserted anew after its record was forgotten, or gone. */
  datatype Trace = Marked | Anew | Gone

  function TraceOf(log: seq<Entry>, c: Content): Trace
  {
    if log == [] then Gone
    else
      var e, earlier := log[|log| - 1], TraceOf(log[..|log| - 1], c);
      match e
      case Sent(x) => if x == c then Marked else earlier
      case Forgotten(record) => if record == c.record then Gone else earlier
      case Inserted(x) =>
        if x.record != c.record || earlier.Marked? then earlier
        else if x == c then Anew else Gone
      case _ => earlier
  }

  /** A content that was accepted is inserted, requeued or sent again only after its record was forgotten. */
  predicate NoResend(log: seq<Entry>)
  {
    forall j :: 0 <= j < |log| && (log[j].Inserted? || log[j].Requeued? || log[j].Sent?) ==> !Delivered(log[..j], log[j].content)
  }

  predicate Unsent(r: Row, record: Record) { r.content.record == record && !r.status.Uploaded? }

  /** How many rows of a record are waiting, rejected or in flight. */
  function Backlog(q: seq<Row>, record: Record): nat
  {
    if q == [] then 0 else Backlog(q[..|q| - 1], record) + if Unsent(q[|q| - 1], record) then 1 else 0
  }

  predicate DistinctContents(q: seq<Row>) { forall i, j :: 0 <= i < j < |q| ==> q[i].content != q[j].content }

  /** The rows of the content in flight are where its trace says. */
  predicate Traced(q: seq<Row>, log: seq<Entry>, c: Content)
  {
    match TraceOf(log, c)
    case Marked => Has(q, c, Uploading)
    case Anew => Has(q, c, Pending)
    case Gone => !Knows(q, c)
  }

  /** Only the row the worker is sending may be marked as uploading, and the worker has taken it off its batch. */
  predicate OnlyOneMarked(s: System)
  {
    && (forall i :: 0 <= i < |s.queue| && s.queue[i].status.Uploading? ==> s.phase.Sending? && s.queue[i].content == s.phase.item.content)
    && (s.phase.Sending? ==> forall i :: 0 <= i < |s.batch| ==> s.batch[i].content != s.phase.item.content)
  }

  predicate Tracked(s: System) { s.phase.Sending? ==> Traced(s.queue, s.log, s.phase.item.content) }

  /** Rows the worker has listed and not yet served still wait, or are gone. */
  predicate BatchWaits(s: System)
  {
    && DistinctContents(s.batch)
    && (forall i, k :: 0 <= i < |s.batch| && 0 <= k < |s.queue| && s.queue[k].content == s.batch[i].content ==>
          s.queue[k].status in {Pending, Failed})
  }

  predicate Counted(s: System) { forall i :: 0 <= i < |s.queue| ==> s.queue[i].attempts == Charges(s.log, s.queue[i].content) }

  ghost predicate Remembered(s: System) { forall c :: Delivered(s.log, c) <==> Has(s.queue, c, Uploaded) }

  ghost predicate Bounded(s: System) { forall record :: Backlog(s.queue, record) <= 2 }

  ghost predicate Orderly(s: System)
  {
    && DistinctContents(s.queue) && OnlyOneMarked(s) && BatchWaits(s) && Counted(s) && Remembered(s) && NoResend(s.log) && Bounded(s)
  }

  ghost predicate Safe(s: System) { Orderly(s) && Tracked(s) }
}
