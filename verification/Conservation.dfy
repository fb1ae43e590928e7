/** Every valid shot has one role, answers can be delivered again, and a resumption can be repeated. */
module Conservation {
  import opened Prelude
  import opened RecipeSpace
  import opened Cpbo
  import opened TrustRegions
  import opened TrustRegionLaws
  import opened History
  import opened HistoryLaws
  import opened ReplayLaws
  import opened Ledgers
  import opened Service
  import opened Invariants
  import opened Faithfulness
  import opened Guarantees
  import opened Migrations
  import opened Frames
  import opened Runs
  import Engine

  // ----- roles -----

  predicate ExactlyOne(a: bool, b: bool, c: bool, d: bool)
  {
    (a || b || c || d) && !(a && b) && !(a && c) && !(a && d) && !(b && c) && !(b && d) && !(c && d)
  }

  /** The shot is the baseline, compared, abstained or awaiting its comparison, and only one of these. */
  predicate OneRole(l: Ledger, i: nat)
    requires i < |l.shots|
  {
    ExactlyOne(Baseline(l.shots) == Some(l.shots[i].id), l.shots[i].id in Compared(l.comparisons),
               l.shots[i].abstention.Some?, l.state.pendingShot == Some(l.shots[i].id))
  }

  predicate Conserved(l: Ledger)
  {
    forall i :: 0 <= i < |l.shots| && l.shots[i].status.Valid? ==> OneRole(l, i)
  }

  lemma RolesPersist(l: Ledger, m: Ledger)
    requires Conserved(l) && SameOutline(l.shots, m.shots) && m.comparisons == l.comparisons && m.state.pendingShot == l.state.pendingShot
    requires forall i :: 0 <= i < |l.shots| ==> m.shots[i].abstention == l.shots[i].abstention
    ensures Conserved(m)
  {
    OutlineDecides(l.shots, m.shots);
    forall i | 0 <= i < |m.shots| && m.shots[i].status.Valid?
      ensures OneRole(m, i)
    {
      assert OneRole(l, i);
    }
  }

  lemma ReportConserves(l: Ledger, r: ShotReport, deviate: bool, now: nat)
    requires Inv(l) && Conserved(l) && RecordShot(l, r, deviate, now).Ok?
    ensures Conserved(RecordShot(l, r, deviate, now).value.0)
  {
    RecordedParts(l, r, deviate, now);
    var (m, shot) := RecordShot(l, r, deviate, now).value;
    AppendedConserves(l, m, shot, CanonicalRecipe(l.run, r.controls, now).value, now);
  }

  lemma AppendedConserves(l: Ledger, m: Ledger, shot: Shot, recipe: RecipePoint, now: nat)
    requires Inv(l) && Conserved(l) && ShotAppended(l, m, shot, recipe, now)
    ensures Conserved(m)
  {
    AppendShot(l.shots, shot);
    NewShotIsNotCompared(l, shot);
    forall i | 0 <= i < |m.shots| && m.shots[i].status.Valid?
      ensures OneRole(m, i)
    {
      if i < |l.shots| {
        assert m.shots[i] == l.shots[i];
        assert OneRole(l, i);
        BaselineAt(l.shots);
      } else {
        assert m.shots[i] == shot;
        if Baseline(l.shots).Some? {
          BaselineIsOld(l);
        }
      }
    }
  }

  lemma BaselineIsOld(l: Ledger)
    requires ShotRows(l.shots) && Baseline(l.shots).Some?
    ensures HasShot(l.shots, Baseline(l.shots).value)
  {
    BaselineAt(l.shots);
  }

  lemma NewShotIsNotCompared(l: Ledger, shot: Shot)
    requires Inv(l) && forall i :: 0 <= i < |l.shots| ==> l.shots[i].id != shot.id
    ensures shot.id !in Compared(l.comparisons)
  {
    if Baseline(l.shots).Some? {
      BaselineIsFirst(l.shots);
      ChainIsValid(l.run.id, Ranks(l.shots), Baseline(l.shots).value, l.comparisons);
      ValidShots(l.shots);
    }
  }

  lemma AbstainConserves(l: Ledger, newShot: ShotId, anchor: ShotId, now: nat)
    requires Inv(l) && Conserved(l) && RecordAbstention(l, newShot, anchor, now).Ok?
    ensures Conserved(RecordAbstention(l, newShot, anchor, now).value)
  {
    var i := AbstentionParts(l, newShot, anchor, now);
    var m := RecordAbstention(l, newShot, anchor, now).value;
    if l.shots[i].abstention.None? {
      SubstituteKeepsOutline(l.shots, i, m.shots[i]);
      OneShotAbstained(l, m, i);
    }
  }

  lemma OneShotAbstained(l: Ledger, m: Ledger, i: nat)
    requires Inv(l) && Conserved(l) && i < |l.shots| && SameOutline(l.shots, m.shots) && m.comparisons == l.comparisons
    requires m.shots == l.shots[i := m.shots[i]] && m.shots[i].abstention.Some? && m.state.pendingShot.None?
    requires l.state.pendingShot == Some(l.shots[i].id)
    ensures Conserved(m)
  {
    OutlineDecides(l.shots, m.shots);
    forall j | 0 <= j < |m.shots| && m.shots[j].status.Valid?
      ensures OneRole(m, j)
    {
      assert OneRole(l, j);
    }
  }

  lemma JudgeConserves(s: Settings, l: Ledger, j: Judgement, id: ComparisonId, now: nat)
    requires Inv(l) && Conserved(l) && KeyFollows(l, id, now) && RecordPreference(s, l, j, id, now).Ok?
    ensures Conserved(RecordPreference(s, l, j, id, now).value)
  {
    JudgeFrame(s, l, j, id, now);
    var m := RecordPreference(s, l, j, id, now).value;
    if m != l {
      OneShotCompared(l, m, j.newShot);
    }
  }

  lemma OneShotCompared(l: Ledger, m: Ledger, id: ShotId)
    requires Inv(l) && Conserved(l) && m.shots == l.shots && Compared(m.comparisons) == Compared(l.comparisons) + {id}
    requires l.state.pendingShot == Some(id) && m.state.pendingShot.None?
    ensures Conserved(m)
  {
    forall i | 0 <= i < |m.shots| && m.shots[i].status.Valid?
      ensures OneRole(m, i)
    {
      assert OneRole(l, i);
    }
  }

  /** Without exclusion, every step keeps one role for each valid shot. */
  lemma StepConserves(x: Session, e: Event)
    requires Inv(x.ledger) && Conserved(x.ledger) && Allowed(x, e) && !e.Exclude?
    ensures Conserved(Step(x, e).ledger)
  {
    var s, l := x.settings, x.ledger;
    if Attempt(s, l, e).Ok? {
      var m := Attempt(s, l, e).value;
      match e
      case Suggest(p, now) => SuggestFrame(s, l, p, now); RolesPersist(l, m);
      case Report(r, deviate, now) => ReportConserves(l, r, deviate, now);
      case Abstain(n, a, now) => AbstainConserves(l, n, a, now);
      case Prefer(j, id, now) => JudgeConserves(s, l, j, id, now);
      case Reopen(control, now) => ResumeFrame(s, l, control, now); RolesPersist(l, m);
      case Correct(id, controls, notes, now) => CorrectFrame(s, l, id, controls, notes, now); RolesPersist(l, m);
      case Configure(_) =>
      case Meet(mode, now) => MeetFrame(s, l, mode, now); RolesPersist(l, m);
    }
  }

  /** In runs without exclusion the valid shots are the disjoint union of baseline, compared, abstained and awaiting shots. */
  lemma {:induction false} EveryShotHasOneRole(x: Session, es: seq<Event>)
    requires Inv(x.ledger) && Conserved(x.ledger) && AllAllowed(x, es) && forall i :: 0 <= i < |es| ==> !es[i].Exclude?
    ensures Inv(Play(x, es).ledger) && Conserved(Play(x, es).ledger)
  {
    if es != [] {
      EveryShotHasOneRole(x, es[..|es| - 1]);
      StepKeepsInv(Play(x, es[..|es| - 1]), es[|es| - 1]);
      StepConserves(Play(x, es[..|es| - 1]), es[|es| - 1]);
    }
  }

  // ----- redelivery -----

  /** A shot of the run that no longer awaits an answer. */
  predicate Answered(l: Ledger, id: ShotId) { HasShot(l.shots, id) && l.state.pendingShot != Some(id) }

  /** Shots keep their places and the abstentions they carry. */
  predicate AbstentionsKept(a: seq<Shot>, b: seq<Shot>)
  {
    && |a| <= |b|
    && forall i :: 0 <= i < |a| ==> b[i].id == a[i].id && (a[i].abstention.Some? ==> b[i].abstention == a[i].abstention)
  }

  lemma StepKeepsAbstentions(x: Session, e: Event)
    requires Inv(x.ledger) && Allowed(x, e)
    ensures AbstentionsKept(x.ledger.shots, Step(x, e).ledger.shots)
  {
    var s, l := x.settings, x.ledger;
    if Attempt(s, l, e).Ok? {
      match e
      case Suggest(p, now) => SuggestFrame(s, l, p, now);
      case Report(r, deviate, now) => ReportFrame(l, r, deviate, now);
      case Abstain(n, a, now) => AbstainFrame(l, n, a, now);
      case Prefer(j, cid, now) => JudgeFrame(s, l, j, cid, now);
      case Reopen(control, now) => ResumeFrame(s, l, control, now);
      case Correct(cid, controls, notes, now) => CorrectFrame(s, l, cid, controls, notes, now);
      case Exclude(xid, now) => ExcludeFrame(s, l, xid, now);
      case Configure(_) =>
      case Meet(mode, now) => MeetFrame(s, l, mode, now);
    }
  }

  lemma HasShotByRow(a: seq<Shot>, b: seq<Shot>, id: ShotId)
    requires HasShot(a, id) && AbstentionsKept(a, b)
    ensures HasShot(b, id)
  {
    var i :| 0 <= i < |a| && a[i].id == id;
    assert b[i].id == id;
  }

  /** Only a shot that is recorded now can come to await an answer. */
  lemma StepAwaitsOnlyNew(x: Session, e: Event, id: ShotId)
    requires Inv(x.ledger) && Allowed(x, e) && HasShot(x.ledger.shots, id) && x.ledger.state.pendingShot != Some(id)
    ensures Step(x, e).ledger.state.pendingShot != Some(id)
  {
    var s, l := x.settings, x.ledger;
    if Attempt(s, l, e).Ok? {
      match e
      case Suggest(p, now) => SuggestFrame(s, l, p, now);
      case Report(r, deviate, now) => ReportFrame(l, r, deviate, now);
      case Abstain(n, a, now) => AbstainFrame(l, n, a, now);
      case Prefer(j, cid, now) => JudgeFrame(s, l, j, cid, now);
      case Reopen(control, now) => ResumeFrame(s, l, control, now);
      case Correct(cid, controls, notes, now) => CorrectFrame(s, l, cid, controls, notes, now);
      case Exclude(xid, now) => ExcludeFrame(s, l, xid, now);
      case Configure(_) =>
      case Meet(mode, now) => MeetFrame(s, l, mode, now);
    }
  }

  /** A shot never awaits an answer again. */
  lemma StepStaysAnswered(x: Session, e: Event, id: ShotId)
    requires Inv(x.ledger) && Allowed(x, e) && Answered(x.ledger, id)
    ensures Answered(Step(x, e).ledger, id)
  {
    StepKeepsAbstentions(x, e);
    HasShotByRow(x.ledger.shots, Step(x, e).ledger.shots, id);
    StepAwaitsOnlyNew(x, e, id);
  }

  lemma {:induction false} StaysAnswered(x: Session, es: seq<Event>, id: ShotId)
    requires Inv(x.ledger) && AllAllowed(x, es) && Answered(x.ledger, id)
    ensures Inv(Play(x, es).ledger) && Answered(Play(x, es).ledger, id)
  {
    if es != [] {
      StaysAnswered(x, es[..|es| - 1], id);
      StepKeepsInv(Play(x, es[..|es| - 1]), es[|es| - 1]);
      StepStaysAnswered(Play(x, es[..|es| - 1]), es[|es| - 1], id);
    }
  }

  /** The one stored answer about a new shot and its anchor, if any. */
  predicate Stored(l: Ledger, j: Judgement) { exists i :: 0 <= i < |l.comparisons| && Answers(l.comparisons[i], j) && l.comparisons[i].preference == j.preference }

  lemma OneAnswerPerShot(l: Ledger, i: nat, k: nat)
    requires Inv(l) && i < k < |l.comparisons|
    ensures l.comparisons[i].newShot != l.comparisons[k].newShot
  {
    ChainAt(l.run.id, Ranks(l.shots), Baseline(l.shots).value, l.comparisons, k);
    assert l.comparisons[i] in l.comparisons[..k] by {
      assert l.comparisons[..k][i] == l.comparisons[i];
    }
  }

  /** After an accepted preference exactly one stored comparison answers it, so looking it up never fails. */
  lemma {:induction false} AnswerIsFoundOnce(s: Settings, l: Ledger, j: Judgement, id: ComparisonId, now: nat)
    requires Inv(l) && KeyFollows(l, id, now) && RecordPreference(s, l, j, id, now).Ok?
    ensures var cs := RecordPreference(s, l, j, id, now).value.comparisons;
      exists i :: 0 <= i < |cs| && Answers(cs[i], j) && cs[i].preference == j.preference
                  && forall k :: 0 <= k < |cs| && Answers(cs[k], j) ==> k == i
  {
    var m := RecordPreference(s, l, j, id, now).value;
    PreferenceKeeps(s, l, j, id, now);
    var i: nat := AnswerIsStored(s, l, j, id, now);
    forall k | 0 <= k < |m.comparisons| && Answers(m.comparisons[k], j)
      ensures k == i
    {
      if k < i {
        OneAnswerPerShot(m, k, i);
      } else if i < k {
        OneAnswerPerShot(m, i, k);
      }
    }
  }

  lemma AnswerIsStored(s: Settings, l: Ledger, j: Judgement, id: ComparisonId, now: nat) returns (i: nat)
    requires Inv(l) && KeyFollows(l, id, now) && RecordPreference(s, l, j, id, now).Ok?
    ensures var cs := RecordPreference(s, l, j, id, now).value.comparisons;
      i < |cs| && Answers(cs[i], j) && cs[i].preference == j.preference
  {
    if l.state.pendingShot == Some(j.newShot) {
      var c, k := PreferenceParts(s, l, j, id, now);
      i := |l.comparisons|;
    } else {
      var k :| 0 <= k < |l.comparisons| && Answers(l.comparisons[k], j);
      i := k;
    }
  }

  /** Delivering an answer again at any later point of the run never writes: it returns exactly while the same answer is stored. */
  lemma {:induction false} RedeliveredPreferenceIsHarmless(x: Session, j: Judgement, id: ComparisonId, now: nat, es: seq<Event>, again: Judgement, id': ComparisonId, later: nat)
    requires Inv(x.ledger) && KeyFollows(x.ledger, id, now) && RecordPreference(x.settings, x.ledger, j, id, now).Ok?
    requires again.newShot == j.newShot
    requires var y := Session(x.settings, RecordPreference(x.settings, x.ledger, j, id, now).value); AllAllowed(y, es)
    ensures var z := Play(Session(x.settings, RecordPreference(x.settings, x.ledger, j, id, now).value), es);
      var r := RecordPreference(z.settings, z.ledger, again, id', later);
      (r.Ok? ==> r.value == z.ledger) && (r.Ok? <==> Stored(z.ledger, again))
  {
    var y := Session(x.settings, RecordPreference(x.settings, x.ledger, j, id, now).value);
    PreferenceKeeps(x.settings, x.ledger, j, id, now);
    JudgeFrame(x.settings, x.ledger, j, id, now);
    AcceptedIsAnswered(x.settings, x.ledger, j, id, now);
    StaysAnswered(y, es, j.newShot);
    ReplayIsExact(Play(y, es).ledger, again);
  }

  lemma AcceptedIsAnswered(s: Settings, l: Ledger, j: Judgement, id: ComparisonId, now: nat)
    requires Inv(l) && KeyFollows(l, id, now) && RecordPreference(s, l, j, id, now).Ok?
    ensures Answered(RecordPreference(s, l, j, id, now).value, j.newShot)
  {
    JudgeFrame(s, l, j, id, now);
    if l.state.pendingShot == Some(j.newShot) {
      var c, k := PreferenceParts(s, l, j, id, now);
    } else {
      var i :| 0 <= i < |l.comparisons| && Answers(l.comparisons[i], j);
      ComparedIsKnown(l, i);
    }
  }

  lemma ComparedIsKnown(l: Ledger, i: nat)
    requires Inv(l) && i < |l.comparisons|
    ensures HasShot(l.shots, l.comparisons[i].newShot)
  {
    ChainAt(l.run.id, Ranks(l.shots), Baseline(l.shots).value, l.comparisons, i);
    ValidShots(l.shots);
  }

  lemma ReplayIsExact(l: Ledger, j: Judgement)
    requires Inv(l)
    ensures ReplayPreference(l, j).Ok? <==> Stored(l, j)
    ensures ReplayPreference(l, j).Ok? ==> ReplayPreference(l, j).value == l
  {
    if Stored(l, j) {
      var i :| 0 <= i < |l.comparisons| && Answers(l.comparisons[i], j) && l.comparisons[i].preference == j.preference;
      forall k | 0 <= k < |l.comparisons| && Answers(l.comparisons[k], j)
        ensures k == i
      {
        if k < i {
          OneAnswerPerShot(l, k, i);
        } else if i < k {
          OneAnswerPerShot(l, i, k);
        }
      }
    }
  }

  /** The row of a shot carries an abstention from a given anchor. */
  predicate AbstainedFrom(l: Ledger, id: ShotId, anchor: ShotId)
  {
    exists i :: 0 <= i < |l.shots| && l.shots[i].id == id && l.shots[i].abstention.Some? && l.shots[i].abstention.value.anchor == anchor
  }

  lemma AbstainedByRow(l: Ledger, m: Ledger, id: ShotId, anchor: ShotId)
    requires AbstainedFrom(l, id, anchor) && AbstentionsKept(l.shots, m.shots)
    ensures AbstainedFrom(m, id, anchor)
  {
    var i :| 0 <= i < |l.shots| && l.shots[i].id == id && l.shots[i].abstention.Some? && l.shots[i].abstention.value.anchor == anchor;
    assert m.shots[i].id == id;
  }

  lemma StepStaysAbstained(x: Session, e: Event, id: ShotId, anchor: ShotId)
    requires Inv(x.ledger) && Allowed(x, e) && AbstainedFrom(x.ledger, id, anchor)
    ensures AbstainedFrom(Step(x, e).ledger, id, anchor)
  {
    StepKeepsAbstentions(x, e);
    AbstainedByRow(x.ledger, Step(x, e).ledger, id, anchor);
  }

  lemma {:induction false} StaysAbstained(x: Session, es: seq<Event>, id: ShotId, anchor: ShotId)
    requires Inv(x.ledger) && AllAllowed(x, es) && AbstainedFrom(x.ledger, id, anchor)
    ensures Inv(Play(x, es).ledger) && AbstainedFrom(Play(x, es).ledger, id, anchor)
  {
    if es != [] {
      StaysAbstained(x, es[..|es| - 1], id, anchor);
      StepKeepsInv(Play(x, es[..|es| - 1]), es[|es| - 1]);
      StepStaysAbstained(Play(x, es[..|es| - 1]), es[|es| - 1], id, anchor);
    }
  }

  /** Delivering an abstention again never writes: it returns exactly while the shot is valid and the anchor is the same. */
  lemma {:induction false} RedeliveredAbstentionIsHarmless(x: Session, newShot: ShotId, anchor: ShotId, now: nat, es: seq<Event>, again: ShotId, later: nat)
    requires Inv(x.ledger) && RecordAbstention(x.ledger, newShot, anchor, now).Ok?
    requires AllAllowed(Session(x.settings, RecordAbstention(x.ledger, newShot, anchor, now).value), es)
    ensures var z := Play(Session(x.settings, RecordAbstention(x.ledger, newShot, anchor, now).value), es).ledger;
      var r := RecordAbstention(z, newShot, again, later);
      && (r.Ok? ==> r.value == z)
      && (r.Ok? <==> newShot in Ranks(z.shots) && again == anchor)
  {
    var m := RecordAbstention(x.ledger, newShot, anchor, now).value;
    AbstentionKeeps(x.ledger, newShot, anchor, now);
    AbstentionIsWritten(x.ledger, newShot, anchor, now);
    StaysAbstained(Session(x.settings, m), es, newShot, anchor);
    var z := Play(Session(x.settings, m), es).ledger;
    var i :| 0 <= i < |z.shots| && z.shots[i].id == newShot && z.shots[i].abstention.Some? && z.shots[i].abstention.value.anchor == anchor;
    UniqueShot(z.shots, i);
    ShotInValid(z.shots, i);
  }

  lemma AbstentionIsWritten(l: Ledger, newShot: ShotId, anchor: ShotId, now: nat)
    requires Inv(l) && RecordAbstention(l, newShot, anchor, now).Ok?
    ensures AbstainedFrom(RecordAbstention(l, newShot, anchor, now).value, newShot, anchor)
  {
    var i := AbstentionParts(l, newShot, anchor, now);
    assert RecordAbstention(l, newShot, anchor, now).value.shots[i].id == newShot;
  }

  // ----- repeated resumption -----

  /** The last comparison, if any, is followed by the resume marker of a request. */
  predicate Settled(l: Ledger, control: Option<ControlId>)
  {
    l.comparisons == [] || MarkedBy(MarkersOf(l.state.region.transitions), Some(l.comparisons[|l.comparisons| - 1].id), control)
  }

  predicate MarkedBy(m: Markers, id: Option<ComparisonId>, control: Option<ControlId>) { id in m && m[id].control == control }

  lemma SettledIsNotConverged(s: Settings, l: Ledger, control: Option<ControlId>)
    requires Inv(l) && Faithful(s, l) && Settled(l, control)
    ensures !l.state.region.locallyConverged
  {
    if l.state.region.locallyConverged {
      ConvergedAfterUnmarked(s, l);
    }
  }

  /** A replay whose last comparison is marked ends with the resumption the marker records. */
  lemma SettledEndsResumed(s: Settings, l: Ledger, control: Option<ControlId>)
    requires Inv(l) && Faithful(s, l) && Settled(l, control)
    ensures l.comparisons == [] ==> l.state.region.transitions == []
    ensures l.comparisons != [] ==>
      var ts := l.state.region.transitions; ts != [] && ts[|ts| - 1].action.Resumed? && ts[|ts| - 1].control == control
  {
    if Baseline(l.shots).Some? {
      var base, m, p := Baseline(l.shots).value, MarkersOf(l.state.region.transitions), Centers(l.shots, l.table.rows);
      var start := StartAt(s.schedule, base, p[base].value);
      assert Replay(s.schedule, p, m, start, l.comparisons).value.region == l.state.region;
      if l.comparisons != [] {
        var n := |l.comparisons| - 1;
        var r := Replay(s.schedule, p, m, start, l.comparisons[..n]).value;
        ReplayHead(s.schedule, p, m, base, p[base].value, l.comparisons[..n]);
        MarkedStepResumes(s.schedule, p, m, r, l.comparisons[n]);
      }
    }
  }

  lemma MarkedStepResumes(s: Schedule, p: Places, m: Markers, r: Replayed, c: Comparison)
    requires ReplayStep(s, p, m, r, c).Ok? && Some(c.id) in m
    ensures var ts := ReplayStep(s, p, m, r, c).value.region.transitions;
      ts != [] && ts[|ts| - 1].action.Resumed? && ts[|ts| - 1].control == m[Some(c.id)].control
  {
  }

  lemma ResumedIsSettled(s: Settings, l: Ledger, control: Option<ControlId>, now: nat)
    requires Inv(l) && Live(s, l) && l.state.region.locallyConverged && ResumeLocalExploration(s, l, control, now).Ok?
    ensures Settled(ResumeLocalExploration(s, l, control, now).value, control)
  {
    var base, center := ResumptionParts(s, l, control, now);
    var u := ResumeLocalExploration(s, l, control, now).value.state.region;
    var n := |l.state.region.transitions|;
    assert u.transitions == l.state.region.transitions + [u.transitions[n]];
    MarkersAppend(l.state.region.transitions, u.transitions[n]);
  }

  /** The last comparison survives an exclusion that keeps the markers. */
  lemma LastSurvives(all: seq<Comparison>, kept: seq<Comparison>)
    requires all != [] && Sorted(all) && DistinctIds(all) && Subsequence(kept, all) && Some(all[|all| - 1].id) in Named(kept)
    ensures kept != [] && kept[|kept| - 1].id == all[|all| - 1].id
  {
    SubsequenceInherits(kept, all);
    var last := all[|all| - 1];
    var c :| c in kept && c.id == last.id;
    var i :| 0 <= i < |kept| && kept[i] == c;
    var at := SubsequenceAt(kept, all);
    assert all[at[i]].id == last.id;
    assert at[i] == |all| - 1;
  }

  lemma ExclusionStaysSettled(s: Settings, l: Ledger, id: ShotId, now: nat, control: Option<ControlId>)
    requires Inv(l) && Live(s, l) && Settled(l, control) && ExcludeShot(s, l, id, now).Ok?
    ensures Settled(ExcludeShot(s, l, id, now).value, control)
  {
    if !FindShot(l.shots, id).value.status.Excluded? {
      var i, rows := ExclusionParts(s, l, id, now);
      ExcludedStaysSettled(s, l, ExcludeShot(s, l, id, now).value, i, rows, now, control);
    }
  }

  lemma ExcludedStaysSettled(s: Settings, l: Ledger, m: Ledger, i: nat, rows: RecipeRows, now: nat, control: Option<ControlId>)
    requires Inv(l) && Live(s, l) && Settled(l, control) && ShotExcluded(s, l, m, i, rows, now)
    ensures Settled(m, control)
  {
    ExcludedMarkers(s, l, m, i, rows, now);
    KeptRows(l, m.shots);
    if l.comparisons == [] {
      SubsequenceInherits(m.comparisons, l.comparisons);
    } else if m.comparisons != [] {
      LastSurvives(l.comparisons, m.comparisons);
    }
  }

  /** An exclusion that leaves comparisons leaves every marker, each naming one of them. */
  lemma ExcludedMarkers(s: Settings, l: Ledger, m: Ledger, i: nat, rows: RecipeRows, now: nat)
    requires Inv(l) && Stamped(MarkersOf(l.state.region.transitions)) && ShotExcluded(s, l, m, i, rows, now)
    ensures m.comparisons != [] ==>
      MarkersOf(m.state.region.transitions) == MarkersOf(l.state.region.transitions) && MarkersOf(l.state.region.transitions).Keys <= Named(m.comparisons)
  {
    KeptRows(l, m.shots);
    RebuildIsProjection(s.schedule, l.state.region, m.shots, rows, m.comparisons);
  }

  lemma CorrectionStaysSettled(s: Settings, l: Ledger, id: ShotId, controls: Controls, notes: map<nat, nat>, now: nat, control: Option<ControlId>)
    requires Inv(l) && Live(s, l) && Settled(l, control) && CorrectShot(s, l, id, controls, notes, now).Ok?
    ensures Settled(CorrectShot(s, l, id, controls, notes, now).value.0, control)
  {
    var i, recipe := CorrectionRecord(s, l, id, controls, notes, now);
    CorrectedStaysSettled(s, l, CorrectShot(s, l, id, controls, notes, now).value.0, i, recipe, now, control);
  }

  lemma CorrectedStaysSettled(s: Settings, l: Ledger, m: Ledger, i: nat, recipe: RecipePoint, now: nat, control: Option<ControlId>)
    requires Inv(l) && Live(s, l) && Settled(l, control) && Corrected(s, l, m, i, recipe, now)
    ensures Settled(m, control)
  {
    if recipe.id != l.shots[i].recipe {
      OutlineDecides(l.shots, m.shots);
      RebuiltMarkers(s, l.state.region, m, CollectRecipes(l.table, map[recipe.id := recipe], m.shots, Some(m.shots[i].id)).value);
    }
  }

  lemma MeetingStaysSettled(s: Settings, l: Ledger, mode: Option<Mode>, now: nat, control: Option<ControlId>)
    requires Inv(l) && Live(s, l) && Settled(l, control) && CompatibleRun(s, l, mode, now).Ok? && !FitOf(s, l, mode).Reconfigured?
    ensures Settled(CompatibleRun(s, l, mode, now).value, control)
  {
    MeetFrame(s, l, mode, now);
    if FitOf(s, l, mode).Migrated? {
      var desired := if mode.Some? then mode.value else l.run.mode;
      var space, rebased, state := MigrationParts(s, l, desired, now);
      MovedMarkersStay(s, l, CompatibleRun(s, l, mode, now).value, desired, space, rebased, state, now);
    }
  }

  lemma UnconvergedResumeWritesNothing(s: Settings, l: Ledger, control: Option<ControlId>, now: nat)
    requires !l.state.region.locallyConverged
    ensures ResumeLocalExploration(s, l, control, now).Ok? ==> ResumeLocalExploration(s, l, control, now).value == l
  {
  }

  lemma StepStaysSettled(x: Session, e: Event, control: Option<ControlId>)
    requires Inv(x.ledger) && Live(x.settings, x.ledger) && Settled(x.ledger, control) && Allowed(x, e) && Steady(x, e) && !e.Prefer?
    ensures Settled(Step(x, e).ledger, control)
  {
    var s, l := x.settings, x.ledger;
    SettledIsNotConverged(s, l, control);
    if Attempt(s, l, e).Ok? {
      match e
      case Suggest(p, now) => SuggestFrame(s, l, p, now);
      case Report(r, deviate, now) => ReportFrame(l, r, deviate, now);
      case Abstain(n, a, now) => AbstainFrame(l, n, a, now);
      case Reopen(again, now) => UnconvergedResumeWritesNothing(s, l, again, now);
      case Correct(id, controls, notes, now) => CorrectionStaysSettled(s, l, id, controls, notes, now, control);
      case Exclude(id, now) => ExclusionStaysSettled(s, l, id, now, control);
      case Configure(_) =>
      case Meet(mode, now) => MeetingStaysSettled(s, l, mode, now, control);
    }
  }

  lemma {:induction false} StaysSettled(x: Session, es: seq<Event>, control: Option<ControlId>)
    requires Inv(x.ledger) && Live(x.settings, x.ledger) && Settled(x.ledger, control) && AllAllowed(x, es) && AllSteady(x, es)
    requires forall i :: 0 <= i < |es| ==> !es[i].Prefer?
    ensures Inv(Play(x, es).ledger) && Live(Play(x, es).settings, Play(x, es).ledger) && Settled(Play(x, es).ledger, control)
  {
    if es != [] {
      var y := Play(x, es[..|es| - 1]);
      StaysSettled(x, es[..|es| - 1], control);
      StepKeepsInv(y, es[|es| - 1]);
      StepStaysLive(y, es[|es| - 1]);
      StepStaysSettled(y, es[|es| - 1], control);
    }
  }

  lemma SettledAnswers(s: Settings, l: Ledger, control: Option<ControlId>, again: Option<ControlId>, later: nat)
    requires Inv(l) && Faithful(s, l) && Settled(l, control)
    ensures var r := ResumeLocalExploration(s, l, again, later);
      && (r.Ok? ==> r.value == l)
      && (r.Ok? <==> l.run.active && l.run.mode.BestIncumbent? && l.comparisons != [] && again.Some? && again == control)
  {
    SettledIsNotConverged(s, l, control);
    SettledEndsResumed(s, l, control);
  }

  /** After a resumption no resume request writes anything before the next judgement, whatever else happens in between. The same request
      is answered exactly while the run is active, judges against the incumbent and still holds a comparison; any other is refused. */
  lemma RepeatedResumeIsHarmless(x: Session, control: Option<ControlId>, now: nat, es: seq<Event>, again: Option<ControlId>, later: nat)
    requires Inv(x.ledger) && Live(x.settings, x.ledger) && now > 0 && x.ledger.state.region.locallyConverged
    requires ResumeLocalExploration(x.settings, x.ledger, control, now).Ok?
    requires var y := Session(x.settings, ResumeLocalExploration(x.settings, x.ledger, control, now).value); AllAllowed(y, es) && AllSteady(y, es)
    requires forall i :: 0 <= i < |es| ==> !es[i].Prefer?
    ensures var z := Play(Session(x.settings, ResumeLocalExploration(x.settings, x.ledger, control, now).value), es);
      var r := ResumeLocalExploration(z.settings, z.ledger, again, later);
      && (r.Ok? ==> r.value == z.ledger)
      && (r.Ok? <==> z.ledger.run.active && z.ledger.run.mode.BestIncumbent? && z.ledger.comparisons != [] && again.Some? && again == control)
  {
    var m := ResumeLocalExploration(x.settings, x.ledger, control, now).value;
    ResumeKeeps(x.settings, x.ledger, control, now);
    ResumptionStaysLive(x.settings, x.ledger, control, now);
    ResumedIsSettled(x.settings, x.ledger, control, now);
    SettledRunAnswers(Session(x.settings, m), es, control, again, later);
  }

  lemma SettledRunAnswers(y: Session, es: seq<Event>, control: Option<ControlId>, again: Option<ControlId>, later: nat)
    requires Inv(y.ledger) && Live(y.settings, y.ledger) && Settled(y.ledger, control) && AllAllowed(y, es) && AllSteady(y, es)
    requires forall i :: 0 <= i < |es| ==> !es[i].Prefer?
    ensures var z := Play(y, es);
      var r := ResumeLocalExploration(z.settings, z.ledger, again, later);
      && (r.Ok? ==> r.value == z.ledger)
      && (r.Ok? <==> z.ledger.run.active && z.ledger.run.mode.BestIncumbent? && z.ledger.comparisons != [] && again.Some? && again == control)
  {
    StaysSettled(y, es, control);
    SettledAnswers(Play(y, es).settings, Play(y, es).ledger, control, again, later);
  }

  /** The same request delivered twice in a row returns the resumed state. */
  lemma ResumeTwiceReturns(s: Settings, l: Ledger, control: ControlId, now: nat, later: nat)
    requires l.state.region.locallyConverged && ResumeLocalExploration(s, l, Some(control), now).Ok?
    ensures var m := ResumeLocalExploration(s, l, Some(control), now).value; ResumeLocalExploration(s, m, Some(control), later) == Ok(m)
  {
    var u := ResumeLocalExploration(s, l, Some(control), now).value.state.region;
    assert u.transitions[|u.transitions| - 1].control == Some(control);
  }
}
