/** Live shot sessions: which samples of a running shot arrived, and how many are missing. */
module LiveTelemetry {
  import opened Prelude

  type ShotId = nat

  datatype Owner = Owner(install: nat, machine: nat)

  datatype SessionStatus = Active | Ended | Reconciled | Expired

  /** What a machine announces; samples carry one value for all measured channels. */
  datatype Started = Started(shot: ShotId, owner: Owner, timestamp: int, sources: nat)

  datatype Sample = Sample(shot: ShotId, owner: Owner, timestamp: int, sequence: nat, elapsed: nat, reading: nat)

  datatype Finished = Finished(shot: ShotId, owner: Owner, timestamp: int, finalSequence: nat, elapsed: nat, endState: nat)

  datatype Session = Session(
    owner: Owner, startedAt: int, sources: nat, status: SessionStatus, last: Option<nat>, count: nat, gaps: nat,
    endedAt: Option<int>, endState: Option<nat>, reconciledAt: Option<int>, updatedAt: int)

  type Rows = map<nat, Sample>

  /** Session rows, and the sample rows of each shot by sequence number. */
  datatype Book = Book(sessions: map<ShotId, Session>, samples: map<ShotId, Rows>)

  const RETENTION: int := 24 * 60 * 60 * 1000

  function Taken(samples: map<ShotId, Rows>, id: ShotId): Rows { if id in samples then samples[id] else map[] }

  predicate Outdated(s: Session, cutoff: int) { s.status in {Active, Ended} && s.updatedAt < cutoff }

  function OutdatedIds(b: Book, cutoff: int): set<ShotId> { set id | id in b.sessions && Outdated(b.sessions[id], cutoff) }

  /** Expires the listed sessions and deletes their samples. */
  function Expire(b: Book, ids: set<ShotId>, now: int): Book
  {
    Book(map id | id in b.sessions :: if id in ids then b.sessions[id].(status := Expired, updatedAt := now) else b.sessions[id],
         b.samples - ids)
  }

  function ExpireBefore(b: Book, cutoff: int, now: int): Book { Expire(b, OutdatedIds(b, cutoff), now) }

  function Opened(e: Started, now: int): Session
  {
    Session(e.owner, e.timestamp, e.sources, Active, None, 0, 0, None, None, None, now)
  }

  predicate SameStart(s: Session, e: Started) { s.owner == e.owner && s.startedAt == e.timestamp && s.sources == e.sources }

  /** The expiry is committed even when the start is then refused. */
  function Start(b: Book, e: Started, now: int): (Book, Result<()>)
  {
    var kept := ExpireBefore(b, now - RETENTION, now);
    if e.shot in kept.sessions then (kept, Need(SameStart(kept.sessions[e.shot], e), SessionConflict))
    else (kept.(sessions := kept.sessions[e.shot := Opened(e, now)]), Ok(()))
  }

  function Owned(b: Book, id: ShotId, owner: Owner): Result<Session>
  {
    var _ :- Need(id in b.sessions, SessionUnknown);
    var _ :- Need(b.sessions[id].owner == owner, SessionConflict);
    Ok(b.sessions[id])
  }

  function Extended(s: Session, sequence: nat, now: int): Session
    requires s.last.Some? ==> sequence > s.last.value
  {
    s.(last := Some(sequence), count := s.count + 1,
       gaps := s.gaps + if s.last.None? then sequence else sequence - s.last.value - 1, updatedAt := now)
  }

  function Append(b: Book, e: Sample, now: int): Result<Book>
  {
    var s :- Owned(b, e.shot, e.owner);
    var rows := Taken(b.samples, e.shot);
    if e.sequence in rows then
      var _ :- Need(rows[e.sequence] == e, SampleConflict);
      Ok(b)
    else
      var _ :- Need(s.status.Active?, SessionInactive);
      var _ :- Need(s.last.Some? ==> e.sequence > s.last.value, SequenceRegressed);
      var _ :- Need(e.timestamp == s.startedAt + e.elapsed, TimestampMismatch);
      Ok(Book(b.sessions[e.shot := Extended(s, e.sequence, now)], b.samples[e.shot := rows[e.sequence := e]]))
  }

  function Closed(s: Session, e: Finished, now: int): Session
    requires s.last.Some? ==> e.finalSequence >= s.last.value
  {
    s.(status := Ended, gaps := s.gaps + if s.last.None? then e.finalSequence + 1 else e.finalSequence - s.last.value,
       endedAt := Some(e.timestamp), endState := Some(e.endState), updatedAt := now)
  }

  function End(b: Book, e: Finished, now: int): Result<Book>
  {
    var s :- Owned(b, e.shot, e.owner);
    if !s.status.Active? then
      var _ :- Need(s.endedAt == Some(e.timestamp) && s.endState == Some(e.endState), EndConflict);
      Ok(b)
    else
      var _ :- Need(e.timestamp == s.startedAt + e.elapsed, TimestampMismatch);
      var _ :- Need(s.last.Some? ==> e.finalSequence >= s.last.value, SequenceRegressed);
      Ok(b.(sessions := b.sessions[e.shot := Closed(s, e, now)]))
  }

  /** The stored shot takes over: the session is settled and its samples are deleted. False when the owner differs. */
  function Reconcile(b: Book, id: ShotId, owner: Owner, now: int): (Book, bool)
  {
    if id !in b.sessions then (b, true)
    else
      var s := b.sessions[id];
      if s.owner != owner then
        (Book(b.sessions[id := s.(status := Expired, updatedAt := now)], b.samples - {id}), false)
      else
        (Book(b.sessions[id := s.(status := Reconciled, reconciledAt := Some(now), updatedAt := now)], b.samples - {id}), true)
  }

  // ----- every order of events -----

  datatype Event =
    | ShotStarted(started: Started, now: int)
    | ShotSample(sample: Sample, now: int)
    | ShotEnded(finished: Finished, now: int)
    | ShotStored(shot: ShotId, owner: Owner, now: int)

  /** The rows, and the final sequence that ended each session, which no row stores. */
  datatype World = World(book: Book, finals: map<ShotId, nat>)

  const Empty := World(Book(map[], map[]), map[])

  predicate Ends(b: Book, e: Finished, now: int) { End(b, e, now).Ok? && b.sessions[e.shot].status.Active? }

  function Step(w: World, e: Event): World
  {
    match e
    case ShotStarted(started, now) => w.(book := Start(w.book, started, now).0)
    case ShotSample(sample, now) =>
      var r := Append(w.book, sample, now);
      if r.Ok? then w.(book := r.value) else w
    case ShotEnded(finished, now) =>
      var r := End(w.book, finished, now);
      if r.Err? then w
      else World(r.value, if Ends(w.book, finished, now) then w.finals[finished.shot := finished.finalSequence] else w.finals)
    case ShotStored(shot, owner, now) => w.(book := Reconcile(w.book, shot, owner, now).0)
  }

  function Play(w: World, es: seq<Event>): World
  {
    if es == [] then w else Step(Play(w, es[..|es| - 1]), es[|es| - 1])
  }

  function Lookup<V>(m: map<ShotId, V>, id: ShotId): Option<V> { if id in m then Some(m[id]) else None }

  /** How many sequence numbers a session covers so far. */
  function Span(s: Session, final: Option<nat>): nat
  {
    if s.status.Ended? && final.Some? then final.value + 1
    else if s.last.Some? then s.last.value + 1 else 0
  }

  /** The sequence numbers below a bound that never arrived. */
  function Missing(span: nat, rows: Rows): set<nat> { set k: nat | 0 <= k < span && k !in rows }

  predicate Open(s: Session) { s.status in {Active, Ended} }

  /** The counters of one open session against its stored samples. */
  predicate Exact(s: Session, rows: Rows, span: nat)
  {
    && s.count == |rows|
    && s.count + s.gaps == span
    && (forall k :: k in rows ==> s.last.Some? && k <= s.last.value)
    && (s.last.Some? ==> s.last.value < span)
  }

  /** One session, its sample rows and the final sequence that ended it. */
  predicate AccountedFor(s: Option<Session>, rows: Option<Rows>, final: Option<nat>)
  {
    && (rows.Some? ==> s.Some? && Open(s.value))
    && (s.Some? && s.value.status.Ended? ==> final.Some?)
    && (s.Some? && Open(s.value) ==> Exact(s.value, if rows.Some? then rows.value else map[], Span(s.value, final)))
  }

  predicate AccountedAt(w: World, id: ShotId)
  {
    AccountedFor(Lookup(w.book.sessions, id), Lookup(w.book.samples, id), Lookup(w.finals, id))
  }

  ghost predicate Accounted(w: World) { forall id :: AccountedAt(w, id) }

  // ----- laws -----

  /** A start expires exactly the open sessions that were not touched for 24 hours, deletes their samples and leaves every other session
      and sample as it is; only then is the new session opened, unless its shot is known. */
  lemma StartExpires(b: Book, e: Started, now: int, id: ShotId)
    requires id in b.sessions
    ensures var c := Start(b, e, now).0;
      && id in c.sessions
      && if Open(b.sessions[id]) && now - b.sessions[id].updatedAt > 86400000 then
           c.sessions[id] == b.sessions[id].(status := Expired, updatedAt := now) && id !in c.samples
         else c.sessions[id] == b.sessions[id] && Lookup(c.samples, id) == Lookup(b.samples, id)
  {
  }

  /** A sample is accepted exactly from the owner of a known session, and then if it repeats a stored one or if the session is active, its
      number is higher than every one before and its time is the start plus what has elapsed. Only in the second case is it stored. */
  lemma AppendCondition(b: Book, e: Sample, now: int)
    ensures var stored := e.shot in b.samples && e.sequence in b.samples[e.shot];
      && (Append(b, e, now).Ok? <==>
            && e.shot in b.sessions && b.sessions[e.shot].owner == e.owner
            && if stored then b.samples[e.shot][e.sequence] == e
               else
                 && b.sessions[e.shot].status == Active && e.timestamp == b.sessions[e.shot].startedAt + e.elapsed
                 && (b.sessions[e.shot].last.Some? ==> e.sequence > b.sessions[e.shot].last.value))
      && (Append(b, e, now).Ok? ==> if stored then Append(b, e, now).value == b else Appended(b, e, now, Append(b, e, now).value))
  {
  }

  /** The sample was added to its session and nothing else changed. */
  predicate Appended(b: Book, e: Sample, now: int, c: Book)
  {
    && e.shot in b.sessions && e.shot in c.sessions && e.shot in c.samples
    && c.sessions == b.sessions[e.shot := c.sessions[e.shot]] && c.samples == b.samples[e.shot := c.samples[e.shot]]
    && c.samples[e.shot] == (if e.shot in b.samples then b.samples[e.shot] else map[])[e.sequence := e]
    && var s := c.sessions[e.shot];
      && s == b.sessions[e.shot].(last := Some(e.sequence), count := s.count, gaps := s.gaps, updatedAt := now)
      && s.count == b.sessions[e.shot].count + 1
  }

  /** An end is accepted exactly from the owner of a known session, and then if it repeats the end that was stored or if the session is
      active, no stored sample is later and its time is the start plus what has elapsed. */
  lemma EndCondition(b: Book, e: Finished, now: int)
    ensures End(b, e, now).Ok? <==>
      && e.shot in b.sessions && b.sessions[e.shot].owner == e.owner
      && var s := b.sessions[e.shot];
        if s.status != Active then s.endedAt == Some(e.timestamp) && s.endState == Some(e.endState)
        else e.timestamp == s.startedAt + e.elapsed && (s.last.Some? ==> s.last.value <= e.finalSequence)
    ensures End(b, e, now).Ok? ==>
      var (s, c) := (b.sessions[e.shot], End(b, e, now).value);
      if s.status != Active then c == b
      else
        && e.shot in c.sessions && c.samples == b.samples && c.sessions == b.sessions[e.shot := c.sessions[e.shot]]
        && c.sessions[e.shot] == s.(status := Ended, gaps := c.sessions[e.shot].gaps, endedAt := Some(e.timestamp), endState := Some(e.endState), updatedAt := now)
  {
  }

  /** A start for a known shot is accepted exactly when it repeats the one that opened the session. */
  lemma StartCondition(b: Book, e: Started, now: int)
    ensures Start(b, e, now).1.Ok? <==>
      (e.shot in b.sessions ==>
         b.sessions[e.shot].owner == e.owner && b.sessions[e.shot].startedAt == e.timestamp && b.sessions[e.shot].sources == e.sources)
  {
  }

  /** The stored shot settles its session and takes over its samples; one from another owner only expires the session. */
  lemma ReconcileSettles(b: Book, id: ShotId, owner: Owner, now: int)
    requires id in b.sessions
    ensures var (c, r) := Reconcile(b, id, owner, now);
      && (r <==> b.sessions[id].owner == owner) && c.samples == b.samples - {id}
      && c.sessions == b.sessions[id := if r then b.sessions[id].(status := Reconciled, reconciledAt := Some(now), updatedAt := now)
                                        else b.sessions[id].(status := Expired, updatedAt := now)]
  {
  }

  function Clock(e: Event): int
  {
    match e
    case ShotStarted(_, now) => now
    case ShotSample(_, now) => now
    case ShotEnded(_, now) => now
    case ShotStored(_, _, now) => now
  }

  /** Every step that changes a session stamps it with its time, so the last stamp is the last change. */
  lemma StepStamps(w: World, e: Event, id: ShotId)
    requires Lookup(Step(w, e).book.sessions, id) != Lookup(w.book.sessions, id)
    ensures id in Step(w, e).book.sessions && Step(w, e).book.sessions[id].updatedAt == Clock(e)
  {
  }

  // ----- stored samples -----

  /** A stored sample is one of its session's owner, at its own number, at the time that has elapsed since the start. */
  predicate Timely(b: Book, id: ShotId, k: nat)
    requires id in b.samples && k in b.samples[id]
  {
    && id in b.sessions
    && var (s, e) := (b.sessions[id], b.samples[id][k]);
      e.shot == id && e.owner == s.owner && e.sequence == k && e.timestamp == s.startedAt + e.elapsed
  }

  predicate AllTimely(b: Book) { forall id, k :: id in b.samples && k in b.samples[id] ==> Timely(b, id, k) }

  lemma StepStaysTimely(w: World, e: Event)
    requires AllTimely(w.book)
    ensures AllTimely(Step(w, e).book)
  {
    var c := Step(w, e).book;
    forall id, k | id in c.samples && k in c.samples[id]
      ensures Timely(c, id, k)
    {
      if id in w.book.samples && k in w.book.samples[id] {
        assert Timely(w.book, id, k);
      }
    }
  }

  /** Over every order of events, with any duplicates, the stored samples of a session are its owner's, at their own numbers and times. */
  lemma {:induction false} SamplesAreTimely(es: seq<Event>)
    ensures AllTimely(Play(Empty, es).book)
  {
    if es != [] {
      SamplesAreTimely(es[..|es| - 1]);
      StepStaysTimely(Play(Empty, es[..|es| - 1]), es[|es| - 1]);
    }
  }

  /** A shot that has no session gets an active, empty one. */
  lemma StartOpens(b: Book, e: Started, now: int)
    requires e.shot !in b.sessions
    ensures var (c, r) := Start(b, e, now);
      && r.Ok? && c.sessions.Keys == b.sessions.Keys + {e.shot} && c.sessions[e.shot].owner == e.owner
      && c.sessions[e.shot].status.Active? && c.sessions[e.shot].last.None? && c.sessions[e.shot].startedAt == e.timestamp
  {
  }

  lemma ExtendedIsExact(s: Session, rows: Rows, e: Sample, now: int)
    requires Exact(s, rows, Span(s, None)) && s.status.Active? && (s.last.Some? ==> e.sequence > s.last.value)
    ensures Exact(Extended(s, e.sequence, now), rows[e.sequence := e], e.sequence + 1)
  {
    assert rows[e.sequence := e].Keys == rows.Keys + {e.sequence};
  }

  lemma AppendStaysAccounted(w: World, e: Sample, now: int, id: ShotId)
    requires AccountedAt(w, id)
    ensures AccountedAt(Step(w, ShotSample(e, now)), id)
  {
    var b := w.book;
    if Append(b, e, now).Ok? && e.sequence !in Taken(b.samples, e.shot) {
      var next := Step(w, ShotSample(e, now));
      if id == e.shot {
        var s, rows := b.sessions[id], Taken(b.samples, id);
        ExtendedIsExact(s, rows, e, now);
        assert Lookup(next.book.sessions, id) == Some(Extended(s, e.sequence, now));
        assert Lookup(next.book.samples, id) == Some(rows[e.sequence := e]);
      } else {
        assert Lookup(next.book.sessions, id) == Lookup(b.sessions, id);
        assert Lookup(next.book.samples, id) == Lookup(b.samples, id);
      }
    }
  }

  lemma EndStaysAccounted(w: World, e: Finished, now: int, id: ShotId)
    requires AccountedAt(w, id)
    ensures AccountedAt(Step(w, ShotEnded(e, now)), id)
  {
    if Ends(w.book, e, now) && id == e.shot {
      assert Exact(Closed(w.book.sessions[id], e, now), Taken(w.book.samples, id), e.finalSequence + 1);
    }
  }

  lemma ExpiredLookup(b: Book, ids: set<ShotId>, now: int, id: ShotId)
    ensures id in ids ==> Lookup(Expire(b, ids, now).samples, id) == None
    ensures id !in ids ==> Lookup(Expire(b, ids, now).samples, id) == Lookup(b.samples, id)
    ensures id !in ids ==> Lookup(Expire(b, ids, now).sessions, id) == Lookup(b.sessions, id)
    ensures id in ids && id in b.sessions ==>
      Lookup(Expire(b, ids, now).sessions, id) == Some(b.sessions[id].(status := Expired, updatedAt := now))
  {
  }

  lemma ExpireStaysAccounted(w: World, ids: set<ShotId>, now: int, id: ShotId)
    requires AccountedAt(w, id) && ids <= w.book.sessions.Keys
    ensures AccountedAt(w.(book := Expire(w.book, ids, now)), id)
  {
    ExpiredLookup(w.book, ids, now, id);
  }

  lemma StartStaysAccounted(w: World, e: Started, now: int, id: ShotId)
    requires AccountedAt(w, id)
    ensures AccountedAt(Step(w, ShotStarted(e, now)), id)
  {
    var kept := ExpireBefore(w.book, now - RETENTION, now);
    ExpireStaysAccounted(w, OutdatedIds(w.book, now - RETENTION), now, id);
    OpenStaysAccounted(w.(book := kept), e, now, id);
  }

  lemma OpenStaysAccounted(w: World, e: Started, now: int, id: ShotId)
    requires AccountedAt(w, id)
    ensures e.shot !in w.book.sessions ==>
      AccountedAt(w.(book := w.book.(sessions := w.book.sessions[e.shot := Opened(e, now)])), id)
  {
    if id == e.shot {
      assert Exact(Opened(e, now), map[], 0);
    } else {
      assert Lookup(w.book.sessions[e.shot := Opened(e, now)], id) == Lookup(w.book.sessions, id);
    }
  }

  lemma StoreStaysAccounted(w: World, shot: ShotId, owner: Owner, now: int, id: ShotId)
    requires AccountedAt(w, id)
    ensures AccountedAt(Step(w, ShotStored(shot, owner, now)), id)
  {
    var next := Step(w, ShotStored(shot, owner, now));
    if id != shot || shot !in w.book.sessions {
      assert Lookup(next.book.sessions, id) == Lookup(w.book.sessions, id);
      assert Lookup(next.book.samples, id) == Lookup(w.book.samples, id);
    } else {
      assert Lookup(next.book.samples, id) == None;
      assert !Open(next.book.sessions[id]);
    }
  }

  lemma StepStaysAccounted(w: World, e: Event)
    requires Accounted(w)
    ensures Accounted(Step(w, e))
  {
    forall id
      ensures AccountedAt(Step(w, e), id)
    {
      assert AccountedAt(w, id);
      match e
      case ShotStarted(started, now) => StartStaysAccounted(w, started, now, id);
      case ShotSample(sample, now) => AppendStaysAccounted(w, sample, now, id);
      case ShotEnded(finished, now) => EndStaysAccounted(w, finished, now, id);
      case ShotStored(shot, owner, now) => StoreStaysAccounted(w, shot, owner, now, id);
    }
  }

  lemma {:induction false} EveryOrderIsAccounted(es: seq<Event>)
    ensures Accounted(Play(Empty, es))
  {
    if es != [] {
      EveryOrderIsAccounted(es[..|es| - 1]);
      StepStaysAccounted(Play(Empty, es[..|es| - 1]), es[|es| - 1]);
    }
  }

  lemma {:induction false} CountBelow(span: nat)
    ensures |Missing(span, map[])| == span
  {
    if span > 0 {
      CountBelow(span - 1);
      assert Missing(span, map[]) == Missing(span - 1, map[]) + {span - 1};
    } else {
      assert Missing(0, map[]) == {};
    }
  }

  lemma MissingCount(span: nat, rows: Rows)
    requires forall k :: k in rows ==> k < span
    ensures |Missing(span, rows)| == span - |rows|
  {
    CountBelow(span);
    assert Missing(span, map[]) == Missing(span, rows) + rows.Keys;
  }

  /** The counters of a session against its stored samples and the final sequence that ended it. */
  predicate Counted(w: World, id: ShotId)
    requires id in w.book.sessions
  {
    var s, rows := w.book.sessions[id], Taken(w.book.samples, id);
    && s.count == |rows|
    && s.gaps == |Missing(Span(s, Lookup(w.finals, id)), rows)|
    && (s.status.Ended? ==> id in w.finals && s.count + s.gaps == w.finals[id] + 1)
    && (s.status.Active? ==> s.count + s.gaps == if s.last.Some? then s.last.value + 1 else 0)
  }

  lemma AccountedIsCounted(w: World, id: ShotId)
    requires Accounted(w) && id in w.book.sessions && Open(w.book.sessions[id])
    ensures Counted(w, id)
  {
    assert AccountedAt(w, id);
    var s, rows := w.book.sessions[id], Taken(w.book.samples, id);
    assert Exact(s, rows, Span(s, Lookup(w.finals, id)));
    MissingCount(Span(s, Lookup(w.finals, id)), rows);
  }

  /** Whatever arrives in whatever order, with any duplicates: an open session's counters are the number of stored samples and
      the number of sequence numbers that never arrived, up to the last one seen, or to the announced final one once ended. */
  lemma GapsAreExact(es: seq<Event>, id: ShotId)
    requires var b := Play(Empty, es).book; id in b.sessions && Open(b.sessions[id])
    ensures Counted(Play(Empty, es), id)
  {
    EveryOrderIsAccounted(es);
    AccountedIsCounted(Play(Empty, es), id);
  }

  /** A session that left the active state never becomes active again. */
  lemma {:induction false} NeverActiveAgain(w: World, es: seq<Event>, id: ShotId)
    requires id in w.book.sessions && !w.book.sessions[id].status.Active?
    ensures id in Play(w, es).book.sessions && !Play(w, es).book.sessions[id].status.Active?
  {
    if es != [] {
      NeverActiveAgain(w, es[..|es| - 1], id);
      StaysInactive(Play(w, es[..|es| - 1]), es[|es| - 1], id);
    }
  }

  lemma StaysInactive(w: World, e: Event, id: ShotId)
    requires id in w.book.sessions && !w.book.sessions[id].status.Active?
    ensures id in Step(w, e).book.sessions && !Step(w, e).book.sessions[id].status.Active?
  {
    match e
    case ShotStarted(started, now) =>
      var kept := ExpireBefore(w.book, now - RETENTION, now);
      assert id in kept.sessions && !kept.sessions[id].status.Active?;
    case ShotSample(sample, now) =>
    case ShotEnded(finished, now) =>
    case ShotStored(shot, owner, now) =>
  }

  /** A stored sample that arrives again at any later time is accepted without effect as long as the session keeps its
      samples, and refused without effect afterwards. */
  lemma {:induction false} RepeatedSampleIsHarmless(w: World, e: Sample, now: int, es: seq<Event>, later: int)
    requires Append(w.book, e, now).Ok?
    ensures var b := Play(Step(w, ShotSample(e, now)), es).book;
      Append(b, e, later) == if e.shot in b.samples then Ok(b) else Err(SessionInactive)
  {
    var first := Step(w, ShotSample(e, now));
    assert Holds(first, e);
    SampleStays(first, es, e);
  }

  /** The sample is stored and its session belongs to the sender. */
  predicate Holds(w: World, e: Sample)
  {
    e.shot in w.book.sessions && w.book.sessions[e.shot].owner == e.owner && e.sequence in Taken(w.book.samples, e.shot)
    && Taken(w.book.samples, e.shot)[e.sequence] == e
  }

  predicate Dropped(w: World, e: Sample)
  {
    e.shot in w.book.sessions && w.book.sessions[e.shot].owner == e.owner && !Open(w.book.sessions[e.shot]) && e.shot !in w.book.samples
  }

  lemma SampleStaysOnce(w: World, v: Event, e: Sample)
    requires Holds(w, e) || Dropped(w, e)
    ensures Holds(Step(w, v), e) || Dropped(Step(w, v), e)
  {
  }

  lemma {:induction false} SampleStays(w: World, es: seq<Event>, e: Sample)
    requires Holds(w, e) || Dropped(w, e)
    ensures Holds(Play(w, es), e) || Dropped(Play(w, es), e)
  {
    if es != [] {
      SampleStays(w, es[..|es| - 1], e);
      SampleStaysOnce(Play(w, es[..|es| - 1]), es[|es| - 1], e);
    }
  }

  /** An end that was accepted may be repeated at any later time; nothing changes. */
  lemma {:induction false} RepeatedEndIsHarmless(w: World, e: Finished, now: int, es: seq<Event>, later: int)
    requires End(w.book, e, now).Ok?
    ensures var v := Play(Step(w, ShotEnded(e, now)), es); End(v.book, e, later) == Ok(v.book)
  {
    EndStays(Step(w, ShotEnded(e, now)), es, e);
  }

  predicate EndedBy(w: World, e: Finished)
  {
    && e.shot in w.book.sessions && w.book.sessions[e.shot].owner == e.owner && !w.book.sessions[e.shot].status.Active?
    && w.book.sessions[e.shot].endedAt == Some(e.timestamp) && w.book.sessions[e.shot].endState == Some(e.endState)
  }

  lemma EndStaysOnce(w: World, v: Event, e: Finished)
    requires EndedBy(w, e)
    ensures EndedBy(Step(w, v), e)
  {
  }

  lemma {:induction false} EndStays(w: World, es: seq<Event>, e: Finished)
    requires EndedBy(w, e)
    ensures EndedBy(Play(w, es), e)
  {
    if es != [] {
      EndStays(w, es[..|es| - 1], e);
      EndStaysOnce(Play(w, es[..|es| - 1]), es[|es| - 1], e);
    }
  }
}
