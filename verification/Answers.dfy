/** What the runtime bridge answers, decided by the rows it leaves: a suggestion, a wait for the user, or the reason for neither. */
module Answers {
  import opened Prelude
  import opened RecipeSpace
  import opened Cpbo
  import opened History
  import opened HistoryLaws
  import opened Ledgers
  import opened Service
  import opened Invariants
  import opened Guarantees
  import opened Frames
  import opened Bridge
  import opened Visits
  import Engine

  /** The open suggestion is recommended. */
  predicate Recommends(m: Ledger, o: Outcome)
  {
    o.recommendation.Some? && o.recommendation == PendingSuggestion(m.suggestions) && m.state.pendingShot.None? && !o.awaiting && o.reason.None?
  }

  /** Nothing is recommended and no judgement is asked for. */
  predicate Declines(o: Outcome, reason: Reason) { o == Outcome(None, false, Some(reason)) }

  lemma SuggestedIsOpen(s: Settings, l: Ledger, p: Option<Engine.Proposal>, now: nat)
    requires Inv(l) && SuggestNext(s, l, p, now).Ok?
    ensures var (m, x) := SuggestNext(s, l, p, now).value;
      PendingSuggestion(m.suggestions) == Some(x) && m.state.pendingShot.None? && m.shots == l.shots && m.state.region == l.state.region
  {
    SuggestKeeps(s, l, p, now);
    SuggestionParts(s, l, p, now);
    SuggestFrame(s, l, p, now);
    var m := SuggestNext(s, l, p, now).value.0;
    var k := OpenRow(m);
    if l.state.pendingRecipe.None? {
      assert IsOpen(m, |l.suggestions|);
    }
  }

  // ----- shots -----

  /** The answer to a shot that was taken up: the first valid shot and every later invalid one get the next suggestion, every later valid
      one awaits its judgement, and without any valid shot there is nothing to suggest. */
  predicate AnswersShot(m: Ledger, r: ShotRecord, o: Outcome)
  {
    if r.endState in {Finished, ManualFinished} && Baseline(m.shots) != Some(r.id) then
      o == Outcome(None, true, None) && m.state.pendingShot == Some(r.id)
    else if Baseline(m.shots).Some? then Recommends(m, o)
    else Declines(o, InvalidAttempt)
  }

  lemma StoringAnswers(s: Settings, l: Ledger, r: ShotRecord, hasBaseline: bool, aid: Aid, now: nat)
    requires Inv(l) && KnownRecipe(r).Some? && hasBaseline == Baseline(l.shots).Some? && !HasShot(l.shots, r.id)
    requires Processed(StoreShot(s, l, r, hasBaseline, aid, now).result)
    ensures var reply := StoreShot(s, l, r, hasBaseline, aid, now);
      reply.book.Some? && AnswersShot(reply.book.value, r, reply.result.value)
  {
    var report := ShotReport(r.id, KnownRecipe(r).value, PhysicalStatus(r), r.notes);
    var stored := RecordShot(l, report, hasBaseline, now).value.0;
    ShotKeeps(l, report, hasBaseline, now);
    StoredShot(l, report, hasBaseline, now);
    StoredBaseline(l, report, hasBaseline, now);
    if !(PhysicalStatus(r).Valid? && hasBaseline) && (PhysicalStatus(r).Valid? || hasBaseline) {
      SuggestedIsOpen(s, stored, aid.after, now);
    }
  }

  lemma StoredBaseline(l: Ledger, r: ShotReport, hasBaseline: bool, now: nat)
    requires ShotRows(l.shots) && RecordShot(l, r, hasBaseline, now).Ok? && hasBaseline == Baseline(l.shots).Some?
    ensures var m := RecordShot(l, r, hasBaseline, now).value.0;
      && Baseline(m.shots) == (if hasBaseline then Baseline(l.shots) else if r.status.Valid? then Some(r.id) else None)
      && Baseline(l.shots) != Some(r.id)
  {
    RecordedParts(l, r, hasBaseline, now);
    AppendShot(l.shots, RecordShot(l, r, hasBaseline, now).value.1);
    BaselineAt(l.shots);
  }

  /** The answer to a shot that was not taken up by a run that could have. */
  predicate TurnsShotAway(m: Ledger, o: Outcome)
  {
    && Baseline(m.shots).Some?
    && if m.state.region.locallyConverged then Declines(o, Reason.Converged)
       else m.state.pendingShot.Some? && o == Outcome(None, true, Some(FeedbackPending))
  }

  /** A shot that arrives without a suggestion is stored after the suggestion it needs. */
  lemma SuggestingAnswers(s: Settings, l: Ledger, r: ShotRecord, aid: Aid, now: nat)
    requires Inv(l) && KnownRecipe(r).Some? && !HasShot(l.shots, r.id) && Baseline(l.shots).Some? && SuggestNext(s, l, aid.before, now).Ok?
    requires Processed(StoreShot(s, SuggestNext(s, l, aid.before, now).value.0, r, true, aid, now).result)
    ensures var reply := StoreShot(s, SuggestNext(s, l, aid.before, now).value.0, r, true, aid, now);
      reply.book.Some? && AnswersShot(reply.book.value, r, reply.result.value)
  {
    SuggestKeeps(s, l, aid.before, now);
    SuggestFrame(s, l, aid.before, now);
    StoringAnswers(s, SuggestNext(s, l, aid.before, now).value.0, r, true, aid, now);
  }

  lemma ProcessingAnswers(s: Settings, l: Ledger, r: ShotRecord, aid: Aid, now: nat)
    requires Inv(l) && KnownRecipe(r).Some? && !HasShot(l.shots, r.id) && ProcessShot(s, l, r, aid, now).result.Ok?
    ensures var reply := ProcessShot(s, l, r, aid, now);
      && reply.book.Some?
      && if Processed(reply.result) then AnswersShot(reply.book.value, r, reply.result.value)
         else reply.book.value == l && TurnsShotAway(l, reply.result.value)
  {
    BaselineIsRecorded(l);
    if l.state.previous.Some? && (l.state.region.locallyConverged || l.state.pendingShot.Some?) {
    } else if l.state.previous.Some? && l.state.pendingRecipe.None? {
      SuggestingAnswers(s, l, r, aid, now);
    } else {
      StoringAnswers(s, l, r, l.state.previous.Some?, aid, now);
    }
  }

  /** What the bridge says about a shot follows from the record and the rows it leaves, in every case. */
  lemma WhatAShotIsAnswered(s: Settings, mode: Mode, book: Option<Ledger>, r: ShotRecord, aid: Aid, now: nat)
    requires (book.Some? ==> Inv(book.value)) && HandleShot(s, mode, book, r, aid, now).result.Ok?
    ensures var reply := HandleShot(s, mode, book, r, aid, now);
      var o := reply.result.value;
      if !r.espresso || r.excluded then reply.book == book && Declines(o, NotOptimizable)
      else if book.Some? && HasShot(book.value.shots, r.id) then
        reply.book == book && o == Outcome(None, book.value.state.pendingShot == Some(r.id), Some(AlreadyProcessed))
      else if !(r.grindObserved && r.relativeGrind.Some? && (r.doseObserved || r.doseTargetConfirmed) && r.doseTarget.Some? && r.targetYieldObserved) then
        reply.book == book && Declines(o, ControlsUnknown)
      else if !r.hasContext then reply.book == book && Declines(o, NoContext)
      else reply.book.Some? && if Processed(reply.result) then AnswersShot(reply.book.value, r, o) else TurnsShotAway(reply.book.value, o)
  {
    if r.espresso && !r.excluded && !(book.Some? && HasShot(book.value.shots, r.id)) && KnownRecipe(r).Some? && r.hasContext {
      var active := ActiveRun(s, mode, book, now).value;
      if active.Some? {
        CompatibleKeeps(s, book.value, Some(mode), now);
        MetShots(s, mode, book.value, now, r.id);
        ProcessingAnswers(s, active.value, r, aid, now);
      } else {
        CreationAnswers(s, mode, r, aid, now);
      }
    }
  }

  lemma CreationAnswers(s: Settings, mode: Mode, r: ShotRecord, aid: Aid, now: nat)
    requires KnownRecipe(r).Some? && EnterShot(s, mode, None, r, aid, now).result.Ok?
    ensures var reply := EnterShot(s, mode, None, r, aid, now);
      reply.book.Some? && if Processed(reply.result) then AnswersShot(reply.book.value, r, reply.result.value)
                          else TurnsShotAway(reply.book.value, reply.result.value)
  {
    var l := Initialize(s, aid.run, mode, KnownRecipe(r).value, aid.steps, now).value;
    InitializeEstablishes(s, aid.run, mode, KnownRecipe(r).value, aid.steps, now);
    ProcessingAnswers(s, l, r, aid, now);
  }

  lemma MetShots(s: Settings, mode: Mode, l: Ledger, now: nat, id: ShotId)
    requires Inv(l) && CompatibleRun(s, l, Some(mode), now).Ok? && !HasShot(l.shots, id)
    ensures !HasShot(CompatibleRun(s, l, Some(mode), now).value.shots, id)
  {
    MeetFrame(s, l, Some(mode), now);
  }

  // ----- answers of the user -----

  /** After an accepted answer the next suggestion is returned, unless the run has converged or still awaits an answer. */
  lemma WhatAnAnswerIsAnswered(s: Settings, l: Ledger, a: Answer, id: ComparisonId, p: Option<Engine.Proposal>, now: nat)
    requires Inv(l) && (a.Preferred? ==> KeyFollows(l, id, now)) && HandleAnswer(s, l, a, id, p, now).1.Ok?
    ensures var (m, r) := HandleAnswer(s, l, a, id, p, now);
      if m.state.region.locallyConverged || m.state.pendingShot.Some? then r.value.None?
      else r.value.Some? && r.value == PendingSuggestion(m.suggestions)
  {
    RecordedContinues(s, l, a, id, now);
    var m := RecordAnswer(s, l, a, id, now).value;
    if !m.state.region.locallyConverged && m.state.pendingShot.None? {
      SuggestedIsOpen(s, m, p, now);
    }
  }

  // ----- edits and resume requests -----

  /** The answer after the state was rebuilt. */
  predicate AnswersRebuild(m: Ledger, o: Outcome)
  {
    if m.state.pendingShot.Some? then o == Outcome(None, true, Some(FeedbackPending))
    else if Baseline(m.shots).None? then Declines(o, NoValidShotLeft)
    else if m.state.region.locallyConverged then Declines(o, Reason.Converged)
    else Recommends(m, o)
  }

  lemma FollowUpAnswers(s: Settings, l: Ledger, p: Option<Engine.Proposal>, now: nat)
    requires Inv(l) && l.state.pendingShot.None? && Baseline(l.shots).Some? && FollowUp(s, l, p, now).result.Ok?
    ensures AnswersRebuild(FollowUp(s, l, p, now).ledger, FollowUp(s, l, p, now).result.value)
  {
    if !l.state.region.locallyConverged {
      SuggestedIsOpen(s, l, p, now);
    }
  }

  lemma ExclusionAnswers(s: Settings, l: Ledger, id: ShotId, p: Option<Engine.Proposal>, now: nat)
    requires Inv(l) && HasShot(l.shots, id) && !FindShot(l.shots, id).value.status.Excluded? && HandleExclusion(s, l, id, p, now).result.Ok?
    ensures AnswersRebuild(HandleExclusion(s, l, id, p, now).ledger, HandleExclusion(s, l, id, p, now).result.value)
  {
    var m := ExcludeShot(s, l, id, now).value;
    ExclusionKeeps(s, l, id, now);
    ExcludedIsClear(s, l, id, now);
    BaselineIsRecorded(m);
    if Baseline(m.shots).Some? {
      FollowUpAnswers(s, m, p, now);
    }
  }

  lemma CorrectionAnswers(s: Settings, l: Ledger, id: ShotId, controls: Controls, notes: map<nat, nat>, p: Option<Engine.Proposal>, now: nat)
    requires Inv(l) && HandleCorrection(s, l, id, controls, notes, p, now).result.Ok?
    ensures var h := HandleCorrection(s, l, id, controls, notes, p, now);
      if CorrectShot(s, l, id, controls, notes, now).value.1.recipeChanged then AnswersRebuild(h.ledger, h.result.value)
      else h.result.value == Outcome(None, h.ledger.state.pendingShot.Some?, Some(RecipeUnchanged))
  {
    var (m, done) := CorrectShot(s, l, id, controls, notes, now).value;
    CorrectionKeeps(s, l, id, controls, notes, now);
    CorrectedAwaits(s, l, id, controls, notes, now);
    CorrectedAnswers(s, m, done, p, now);
  }

  lemma CorrectedAnswers(s: Settings, m: Ledger, done: Correction, p: Option<Engine.Proposal>, now: nat)
    requires Inv(m) && (done.awaitingPreference <==> m.state.pendingShot.Some?) && AfterCorrection(s, m, done, p, now).result.Ok?
    ensures var h := AfterCorrection(s, m, done, p, now);
      if done.recipeChanged then AnswersRebuild(h.ledger, h.result.value)
      else h.result.value == Outcome(None, h.ledger.state.pendingShot.Some?, Some(RecipeUnchanged))
  {
    BaselineIsRecorded(m);
    if done.recipeChanged && m.state.pendingShot.None? && Baseline(m.shots).Some? {
      FollowUpAnswers(s, m, p, now);
    }
  }

  /** What the bridge says about an edit follows from the edit and the rows it leaves, in every case. */
  lemma WhatAnEditIsAnswered(s: Settings, l: Ledger, e: Edit, p: Option<Engine.Proposal>, now: nat)
    requires Inv(l) && HandleEdit(s, l, e, p, now).result.Ok?
    ensures var h := HandleEdit(s, l, e, p, now);
      var o := h.result.value;
      if !HasShot(l.shots, e.id) then h.ledger == l && Declines(o, NotProcessed)
      else if e.excluded && FindShot(l.shots, e.id).value.status.Excluded? then h.ledger == l && Declines(o, AlreadyProcessed)
      else if e.excluded then AnswersRebuild(h.ledger, o)
      else if e.controls.None? then h.ledger == l && Declines(o, ControlsUnknown)
      else if FindShot(l.shots, e.id).value.recipe != RecipeId(l.run.space.version, QuantizeObserved(l.run.space, e.controls.value.recipe)) then
        AnswersRebuild(h.ledger, o)
      else o == Outcome(None, h.ledger.state.pendingShot.Some?, Some(RecipeUnchanged))
  {
    if HasShot(l.shots, e.id) {
      if e.excluded {
        if !FindShot(l.shots, e.id).value.status.Excluded? {
          ExclusionAnswers(s, l, e.id, p, now);
        }
      } else if e.controls.Some? {
        CorrectionAnswers(s, l, e.id, e.controls.value, e.notes, p, now);
        ChangedRecipe(s, l, e.id, e.controls.value, e.notes, now);
      }
    }
  }

  lemma ChangedRecipe(s: Settings, l: Ledger, id: ShotId, controls: Controls, notes: map<nat, nat>, now: nat)
    requires ShotRows(l.shots) && CorrectShot(s, l, id, controls, notes, now).Ok?
    ensures CorrectShot(s, l, id, controls, notes, now).value.1.recipeChanged <==>
      FindShot(l.shots, id).value.recipe != RecipeId(l.run.space.version, QuantizeObserved(l.run.space, controls.recipe))
  {
    var i, recipe := CorrectionParts(s, l, id, controls, notes, now);
  }

  /** A resume request that is accepted is answered with the open suggestion, even when it repeats an earlier one and that suggestion was
      pulled meanwhile. */
  lemma WhatAResumeIsAnswered(s: Settings, l: Ledger, control: ControlId, p: Option<Engine.Proposal>, now: nat)
    requires Inv(l) && HandleControl(s, l, control, p, now).result.Ok?
    ensures var h := HandleControl(s, l, control, p, now);
      PendingSuggestion(h.ledger.suggestions).Some? && h.result.value == Outcome(PendingSuggestion(h.ledger.suggestions), false, None)
  {
    var m := ResumeLocalExploration(s, l, Some(control), now).value;
    ResumeKeeps(s, l, Some(control), now);
    if PendingSuggestion(m.suggestions).None? {
      SuggestedIsOpen(s, m, p, now);
    }
  }

  // ----- how a run meets the settings -----

  /** A run that awaits a judgement is left alone, one that is in line with the settings too; a run without shots in other limits is
      retired; every other is brought in line, and nothing else ever retires a run. */
  lemma WhatMeetingDoes(s: Settings, mode: Mode, l: Ledger, now: nat)
    requires Inv(l) && l.run.active && CompatibleRun(s, l, Some(mode), now).Ok?
    ensures var m := CompatibleRun(s, l, Some(mode), now).value;
      if l.state.pendingShot.Some? || InLine(s, mode, l) then m == l
      else if l.run.space.version != s.domain && l.shots == [] then m == l.(run := l.run.(active := false))
      else InLine(s, mode, m) && m.run.mode == mode && m.run.id == l.run.id && NoPending(m.state)
  {
    var m := CompatibleRun(s, l, Some(mode), now).value;
    if FitOf(s, l, Some(mode)).Migrated? {
      MetByMigration(s, mode, l, now, m);
    }
  }

  lemma MetByMigration(s: Settings, mode: Mode, l: Ledger, now: nat, m: Ledger)
    requires ShotRows(l.shots) && MigrateRun(s, l, mode, now) == Ok(m)
    ensures InLine(s, mode, m) && m.run.mode == mode && m.run.id == l.run.id && NoPending(m.state)
  {
    var space, rebased, state := MigrationParts(s, l, mode, now);
  }
}
