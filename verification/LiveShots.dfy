/** The live telemetry service as an object over the stored session and sample rows. */
module LiveShots {
  import opened Prelude
  import opened LiveTelemetry

  class SessionRepository {
    var sessions: map<ShotId, Session>
    var samples: map<ShotId, Rows>

    /** The final sequence that ended each session, which no row stores. */
    ghost var finals: map<ShotId, nat>

    function Contents(): Book
      reads this
    {
      Book(sessions, samples)
    }

    ghost function Record(): World
      reads this
    {
      World(Contents(), finals)
    }

    /** Every open session's counters account for its samples and for what never arrived. */
    ghost predicate Valid()
      reads this
    {
      Accounted(Record())
    }

    constructor ()
      ensures Valid() && Record() == Empty
    {
      sessions, samples, finals := map[], map[], map[];
    }

    method UpsertSession(id: ShotId, s: Session)
      modifies `sessions, `samples
      ensures Contents() == Book(old(sessions)[id := s], old(samples))
    {
      sessions := sessions[id := s];
    }

    method AppendSample(e: Sample, s: Session)
      modifies `sessions, `samples
      ensures Contents() == Book(old(sessions)[e.shot := s], old(samples)[e.shot := Taken(old(samples), e.shot)[e.sequence := e]])
    {
      samples := samples[e.shot := Taken(samples, e.shot)[e.sequence := e]];
      sessions := sessions[e.shot := s];
    }

    method ReconcileSession(id: ShotId, s: Session)
      modifies `sessions, `samples
      ensures Contents() == Book(old(sessions)[id := s], old(samples) - {id})
    {
      sessions := sessions[id := s];
      samples := samples - {id};
    }

    /** Expires the outdated sessions one by one. */
    method ExpireBefore(cutoff: int, now: int) returns (expired: nat)
      modifies `sessions, `samples
      ensures Contents() == LiveTelemetry.ExpireBefore(old(Contents()), cutoff, now)
      ensures expired == |OutdatedIds(old(Contents()), cutoff)|
    {
      var outdated := OutdatedIds(Contents(), cutoff);
      expired := |outdated|;
      var rest := outdated;
      while rest != {}
        invariant rest <= outdated
        invariant Contents() == Expire(old(Contents()), outdated - rest, now)
        decreases |rest|
      {
        var id :| id in rest;
        ExpireOneMore(old(Contents()), outdated - rest, id, now);
        assert outdated - (rest - {id}) == outdated - rest + {id};
        sessions := sessions[id := sessions[id].(status := Expired, updatedAt := now)];
        samples := samples - {id};
        rest := rest - {id};
      }
      assert outdated - rest == outdated;
    }
  }

  lemma ExpireOneMore(b: Book, ids: set<ShotId>, id: ShotId, now: int)
    requires id in b.sessions && id !in ids
    ensures var e := Expire(b, ids, now);
      id in e.sessions &&
      Expire(b, ids + {id}, now) == Book(e.sessions[id := e.sessions[id].(status := Expired, updatedAt := now)], e.samples - {id})
  {
    var e := Expire(b, ids, now);
    assert Expire(b, ids + {id}, now).sessions == e.sessions[id := e.sessions[id].(status := Expired, updatedAt := now)];
  }

  class TelemetryService {
    const repository: SessionRepository

    constructor (rows: SessionRepository)
      ensures repository == rows
    {
      repository := rows;
    }

    method Start(e: Started, now: int) returns (r: Result<()>)
      requires repository.Valid()
      modifies repository
      ensures (repository.Contents(), r) == LiveTelemetry.Start(old(repository.Contents()), e, now)
      ensures repository.Valid() && repository.Record() == Step(old(repository.Record()), ShotStarted(e, now))
    {
      StepStaysAccounted(repository.Record(), ShotStarted(e, now));
      var expired := repository.ExpireBefore(now - RETENTION, now);
      if e.shot in repository.sessions {
        return if SameStart(repository.sessions[e.shot], e) then Ok(()) else Err(SessionConflict);
      }
      repository.UpsertSession(e.shot, Opened(e, now));
      return Ok(());
    }

    method RequireOwner(id: ShotId, owner: Owner) returns (r: Result<Session>)
      ensures r == Owned(repository.Contents(), id, owner)
    {
      if id !in repository.sessions {
        return Err(SessionUnknown);
      }
      if repository.sessions[id].owner != owner {
        return Err(SessionConflict);
      }
      return Ok(repository.sessions[id]);
    }

    method Append(e: Sample, now: int) returns (r: Result<()>)
      requires repository.Valid()
      modifies repository
      ensures var spec := LiveTelemetry.Append(old(repository.Contents()), e, now);
        && repository.Contents() == (if spec.Ok? then spec.value else old(repository.Contents()))
        && r == if spec.Ok? then Ok(()) else Err(spec.why)
      ensures repository.Valid() && repository.Record() == Step(old(repository.Record()), ShotSample(e, now))
    {
      StepStaysAccounted(repository.Record(), ShotSample(e, now));
      var found := RequireOwner(e.shot, e.owner);
      if found.Err? {
        return Err(found.why);
      }
      var s := found.value;
      var rows := Taken(repository.samples, e.shot);
      if e.sequence in rows {
        return if rows[e.sequence] == e then Ok(()) else Err(SampleConflict);
      }
      if !s.status.Active? {
        return Err(SessionInactive);
      }
      if s.last.Some? && e.sequence <= s.last.value {
        return Err(SequenceRegressed);
      }
      if e.timestamp != s.startedAt + e.elapsed {
        return Err(TimestampMismatch);
      }
      var missing := if s.last.None? then e.sequence else e.sequence - s.last.value - 1;
      repository.AppendSample(e, s.(last := Some(e.sequence), count := s.count + 1, gaps := s.gaps + missing, updatedAt := now));
      return Ok(());
    }

    method End(e: Finished, now: int) returns (r: Result<()>)
      requires repository.Valid()
      modifies repository
      ensures var spec := LiveTelemetry.End(old(repository.Contents()), e, now);
        && repository.Contents() == (if spec.Ok? then spec.value else old(repository.Contents()))
        && r == if spec.Ok? then Ok(()) else Err(spec.why)
      ensures repository.Valid() && repository.Record() == Step(old(repository.Record()), ShotEnded(e, now))
    {
      StepStaysAccounted(repository.Record(), ShotEnded(e, now));
      var found := RequireOwner(e.shot, e.owner);
      if found.Err? {
        return Err(found.why);
      }
      var s := found.value;
      if !s.status.Active? {
        return if s.endedAt == Some(e.timestamp) && s.endState == Some(e.endState) then Ok(()) else Err(EndConflict);
      }
      if e.timestamp != s.startedAt + e.elapsed {
        return Err(TimestampMismatch);
      }
      if s.last.Some? && e.finalSequence < s.last.value {
        return Err(SequenceRegressed);
      }
      var missing := if s.last.None? then e.finalSequence + 1 else e.finalSequence - s.last.value;
      repository.UpsertSession(e.shot, s.(status := Ended, gaps := s.gaps + missing, endedAt := Some(e.timestamp),
                               endState := Some(e.endState), updatedAt := now));
      repository.finals := repository.finals[e.shot := e.finalSequence];
      return Ok(());
    }

    method ReconcileCompletedShot(id: ShotId, owner: Owner, now: int) returns (owned: bool)
      requires repository.Valid()
      modifies repository
      ensures (repository.Contents(), owned) == Reconcile(old(repository.Contents()), id, owner, now)
      ensures repository.Valid() && repository.Record() == Step(old(repository.Record()), ShotStored(id, owner, now))
    {
      StepStaysAccounted(repository.Record(), ShotStored(id, owner, now));
      if id !in repository.sessions {
        return true;
      }
      var s := repository.sessions[id];
      owned := s.owner == owner;
      if owned {
        repository.ReconcileSession(id, s.(status := Reconciled, reconciledAt := Some(now), updatedAt := now));
      } else {
        repository.ReconcileSession(id, s.(status := Expired, updatedAt := now));
      }
    }
  }
}
