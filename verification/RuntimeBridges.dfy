/** The runtime bridge as an object: it holds the optimizer's settings and drives the service over the run of a shot's context.
    The service keeps nothing but its settings between calls, so each handler makes one for the rows at hand. */
module RuntimeBridges {
  import opened Prelude
  import opened RecipeSpace
  import opened Cpbo
  import opened Ledgers
  import opened Repositories
  import opened PreferenceServices
  import Bridge
  import Engine
  import Invariants
  import Service

  /** The reasons for which a shot is answered without being processed. */
  const UNPROCESSED := {Some(Bridge.NotOptimizable), Some(Bridge.AlreadyProcessed), Some(Bridge.ControlsUnknown), Some(Bridge.NoContext)}

  class RuntimeBridge {
    var rows: Repository?
    var settings: Service.Settings
    var mode: Mode

    /** The rows of the run of the context at hand, if one was created and not retired. */
    function Book(): Option<Ledger>
      reads this, rows
    {
      if rows == null then None else Some(rows.Contents())
    }

    /** The rows, if any, satisfy the invariants of every run. */
    ghost predicate Valid()
      reads this, rows
    {
      rows != null ==> Invariants.Inv(rows.Contents())
    }

    constructor (initial: Service.Settings, initialMode: Mode)
      ensures Valid() && Book() == None && settings == initial && mode == initialMode
    {
      rows, settings, mode := null, initial, initialMode;
    }

    method ConfigureOptimizer(replacement: Service.Settings, replacementMode: Mode)
      requires Valid()
      modifies `settings, `mode
      ensures settings == replacement && mode == replacementMode
      ensures Valid() && Book() == old(Book())
    {
      settings, mode := replacement, replacementMode;
    }

    /** Never meets a misuse; a shot that was processed leaves a run at rest. */
    method HandleShot(r: Bridge.ShotRecord, aid: Bridge.Aid, now: nat) returns (result: Result<Bridge.Outcome>)
      requires Valid()
      modifies `rows, rows
      ensures Bridge.Reply(Book(), result) == Bridge.HandleShot(settings, mode, old(Book()), r, aid, now)
      ensures Valid() && (result.Err? ==> !Bridge.Misuse(result.why))
      ensures result.Ok? && result.value.reason !in UNPROCESSED ==> rows != null && Bridge.AtRest(rows.Contents())
    {
      Bridge.HandleShotIsSafe(settings, mode, Book(), r, aid, now);
      if !r.espresso || r.excluded {
        return Ok(Bridge.Outcome(None, false, Some(Bridge.NotOptimizable)));
      }
      if rows != null && HasShot(rows.shots, r.id) {
        return Ok(Bridge.Outcome(None, rows.state.pendingShot == Some(r.id), Some(Bridge.AlreadyProcessed)));
      }
      if Bridge.KnownRecipe(r).None? {
        return Ok(Bridge.Outcome(None, false, Some(Bridge.ControlsUnknown)));
      }
      if !r.hasContext {
        return Ok(Bridge.Outcome(None, false, Some(Bridge.NoContext)));
      }
      var active := FindActiveRun(now);
      if active.Err? {
        return Err(active.why);
      }
      result := EnterShot(r, aid, now);
    }

    /** Processes a shot in the active run, creating one around the shot's recipe when there is none. */
    method EnterShot(r: Bridge.ShotRecord, aid: Bridge.Aid, now: nat) returns (result: Result<Bridge.Outcome>)
      requires Bridge.KnownRecipe(r).Some?
      requires Valid()
      modifies `rows, rows
      ensures Valid()
      ensures Bridge.Reply(Book(), result) == Bridge.EnterShot(settings, mode, old(Book()), r, aid, now)
    {
      if rows == null {
        var created := Service.Initialize(settings, aid.run, mode, Bridge.KnownRecipe(r).value, aid.steps, now);
        if created.Err? {
          return Err(created.why);
        }
        var l := created.value;
        Invariants.InitializeEstablishes(settings, aid.run, mode, Bridge.KnownRecipe(r).value, aid.steps, now);
        rows := new Repository(l.run, l.table.rows[l.table.first], l.state);
      }
      result := ProcessShot(r, aid, now);
    }

    /** Brings the active run in line with the settings; forgets it when it was retired. */
    method FindActiveRun(now: nat) returns (r: Result<()>)
      requires Valid()
      modifies `rows, rows
      ensures Valid()
      ensures match Bridge.ActiveRun(settings, mode, old(Book()), now)
              case Err(e) => r == Err(e) && Book() == old(Book())
              case Ok(book) => r == Ok(()) && Book() == book
      ensures rows == old(rows) || rows == null
    {
      if rows == null {
        return Ok(());
      }
      if rows.run.active {
        var service := new PreferenceService(rows, settings);
        r := service.MeetActiveRun(Some(mode), now);
        if r.Err? {
          return;
        }
      }
      if !rows.run.active {
        rows := null;
      }
      return Ok(());
    }

    method ProcessShot(r: Bridge.ShotRecord, aid: Bridge.Aid, now: nat) returns (result: Result<Bridge.Outcome>)
      requires rows != null && Bridge.KnownRecipe(r).Some?
      requires Valid()
      modifies rows
      ensures Valid()
      ensures Bridge.Reply(Book(), result) == Bridge.ProcessShot(settings, old(rows.Contents()), r, aid, now)
    {
      var state := rows.state;
      var hasBaseline := state.previous.Some?;
      if hasBaseline && state.region.locallyConverged {
        return Ok(Bridge.Outcome(None, false, Some(Bridge.Reason.Converged)));
      }
      if hasBaseline && state.pendingShot.Some? {
        return Ok(Bridge.Outcome(None, true, Some(Bridge.FeedbackPending)));
      }
      if hasBaseline && state.pendingRecipe.None? {
        var service := new PreferenceService(rows, settings);
        var suggested := service.SuggestNext(aid.before, now);
        if suggested.Err? {
          return Err(suggested.why);
        }
      }
      result := StoreShot(r, hasBaseline, aid, now);
    }

    method StoreShot(r: Bridge.ShotRecord, hasBaseline: bool, aid: Bridge.Aid, now: nat) returns (result: Result<Bridge.Outcome>)
      requires rows != null && Bridge.KnownRecipe(r).Some?
      requires Valid()
      modifies rows
      ensures Valid()
      ensures Bridge.Reply(Book(), result) == Bridge.StoreShot(settings, old(rows.Contents()), r, hasBaseline, aid, now)
    {
      var service := new PreferenceService(rows, settings);
      var status := Bridge.PhysicalStatus(r);
      var recorded := service.RecordShot(Service.ShotReport(r.id, Bridge.KnownRecipe(r).value, status, r.notes), hasBaseline, now);
      if recorded.Err? {
        return Err(recorded.why);
      }
      if status.Valid? && hasBaseline {
        return Ok(Bridge.Outcome(None, true, None));
      }
      if !status.Valid? && !hasBaseline {
        return Ok(Bridge.Outcome(None, false, Some(Bridge.InvalidAttempt)));
      }
      var suggested := service.SuggestNext(aid.after, now);
      return if suggested.Err? then Err(suggested.why) else Ok(Bridge.Outcome(Some(suggested.value), false, None));
    }

    /** While comparison keys grow: never meets a misuse, and an accepted answer leaves the run at rest. */
    method HandleAnswer(a: Bridge.Answer, id: ComparisonId, p: Option<Engine.Proposal>, now: nat) returns (result: Result<Option<Suggestion>>)
      requires rows != null && Valid()
      modifies rows
      ensures (rows.Contents(), result) == Bridge.HandleAnswer(settings, old(rows.Contents()), a, id, p, now)
      ensures old(Invariants.KeyFollows(rows.Contents(), id, now)) ==>
        Valid() && (if result.Ok? then Bridge.AtRest(rows.Contents()) else !Bridge.Misuse(result.why))
    {
      if Invariants.KeyFollows(rows.Contents(), id, now) {
        Bridge.HandleAnswerIsSafe(settings, rows.Contents(), a, id, p, now);
      }
      var recorded := RecordAnswer(a, id, now);
      if recorded.Err? {
        return Err(recorded.why);
      }
      result := SuggestAfterAnswer(p, now);
    }

    method SuggestAfterAnswer(p: Option<Engine.Proposal>, now: nat) returns (result: Result<Option<Suggestion>>)
      requires rows != null
      modifies rows
      ensures (rows.Contents(), result) == Bridge.AfterAnswering(settings, old(rows.Contents()), p, now)
    {
      if rows.state.region.locallyConverged || rows.state.pendingShot.Some? {
        return Ok(None);
      }
      var service := new PreferenceService(rows, settings);
      var suggested := service.SuggestNext(p, now);
      return if suggested.Err? then Err(suggested.why) else Ok(Some(suggested.value));
    }

    method RecordAnswer(a: Bridge.Answer, id: ComparisonId, now: nat) returns (r: Result<()>)
      requires rows != null
      modifies rows
      ensures Applied(old(rows.Contents()), Bridge.RecordAnswer(settings, old(rows.Contents()), a, id, now), rows.Contents(), r)
    {
      var service := new PreferenceService(rows, settings);
      match a {
        case Preferred(j) => r := service.RecordPreference(j, id, now);
        case Abstained(newShot, anchor) => r := service.RecordAbstention(newShot, anchor, now);
      }
    }

    /** Never meets a misuse, never drops an awaited comparison silently, and leaves the run at rest unless nothing was to be done. */
    method HandleEdit(e: Bridge.Edit, p: Option<Engine.Proposal>, now: nat) returns (result: Result<Bridge.Outcome>)
      requires rows != null && Valid()
      modifies rows
      ensures Bridge.Handled(rows.Contents(), result) == Bridge.HandleEdit(settings, old(rows.Contents()), e, p, now)
      ensures Valid() && Bridge.EditSafe(old(rows.Contents()), Bridge.Handled(rows.Contents(), result))
    {
      Bridge.HandleEditIsSafe(settings, rows.Contents(), e, p, now);
      if !HasShot(rows.shots, e.id) {
        return Ok(Bridge.Outcome(None, false, Some(Bridge.NotProcessed)));
      }
      if e.excluded {
        result := HandleExclusion(e.id, p, now);
        return;
      }
      if e.controls.None? {
        return Ok(Bridge.Outcome(None, false, Some(Bridge.ControlsUnknown)));
      }
      result := HandleCorrection(e.id, e.controls.value, e.notes, p, now);
    }

    method HandleExclusion(id: ShotId, p: Option<Engine.Proposal>, now: nat) returns (result: Result<Bridge.Outcome>)
      requires rows != null && HasShot(rows.shots, id)
      requires Valid()
      modifies rows
      ensures Valid()
      ensures Bridge.Handled(rows.Contents(), result) == Bridge.HandleExclusion(settings, old(rows.Contents()), id, p, now)
    {
      if FindShot(rows.shots, id).value.status.Excluded? {
        return Ok(Bridge.Outcome(None, false, Some(Bridge.AlreadyProcessed)));
      }
      var service := new PreferenceService(rows, settings);
      var excluded := service.ExcludeShot(id, now);
      if excluded.Err? {
        return Err(excluded.why);
      }
      if rows.state.previous.None? {
        return Ok(Bridge.Outcome(None, false, Some(Bridge.NoValidShotLeft)));
      }
      result := FollowUp(p, now);
    }

    method HandleCorrection(id: ShotId, controls: Controls, notes: map<nat, nat>, p: Option<Engine.Proposal>, now: nat) returns (result: Result<Bridge.Outcome>)
      requires rows != null
      requires Valid()
      modifies rows
      ensures Valid()
      ensures Bridge.Handled(rows.Contents(), result) == Bridge.HandleCorrection(settings, old(rows.Contents()), id, controls, notes, p, now)
    {
      var service := new PreferenceService(rows, settings);
      var corrected := service.CorrectShot(id, controls, notes, now);
      if corrected.Err? {
        return Err(corrected.why);
      }
      var done := corrected.value;
      if !done.recipeChanged {
        return Ok(Bridge.Outcome(None, done.awaitingPreference, Some(Bridge.RecipeUnchanged)));
      }
      if done.awaitingPreference {
        return Ok(Bridge.Outcome(None, true, Some(Bridge.FeedbackPending)));
      }
      if rows.state.previous.None? {
        return Err(UnknownShot);
      }
      result := FollowUp(p, now);
    }

    method FollowUp(p: Option<Engine.Proposal>, now: nat) returns (result: Result<Bridge.Outcome>)
      requires rows != null
      requires Valid()
      modifies rows
      ensures Valid()
      ensures Bridge.Handled(rows.Contents(), result) == Bridge.FollowUp(settings, old(rows.Contents()), p, now)
    {
      if rows.state.region.locallyConverged {
        return Ok(Bridge.Outcome(None, false, Some(Bridge.Reason.Converged)));
      }
      var service := new PreferenceService(rows, settings);
      var suggested := service.SuggestNext(p, now);
      return if suggested.Err? then Err(suggested.why) else Ok(Bridge.Outcome(Some(suggested.value), false, None));
    }

    /** Never meets a misuse, and an accepted request leaves exactly one open suggestion, the one it returns. */
    method HandleControl(control: ControlId, p: Option<Engine.Proposal>, now: nat) returns (result: Result<Bridge.Outcome>)
      requires rows != null && Valid()
      modifies rows
      ensures Bridge.Handled(rows.Contents(), result) == Bridge.HandleControl(settings, old(rows.Contents()), control, p, now)
      ensures Valid() && (result.Err? ==> !Bridge.Misuse(result.why))
      ensures result.Ok? ==>
        && Bridge.OneOpen(rows.Contents()) && result.value.recommendation.Some?
        && rows.state.pendingRecipe == Some(result.value.recommendation.value.recipe.id)
    {
      Bridge.HandleControlIsSafe(settings, rows.Contents(), control, p, now);
      var service := new PreferenceService(rows, settings);
      var resumed := service.ResumeLocalExploration(Some(control), now);
      if resumed.Err? {
        return Err(resumed.why);
      }
      if rows.state.previous.None? {
        return Err(UnknownShot);
      }
      var pending := PendingSuggestion(rows.suggestions);
      if pending.Some? {
        return Ok(Bridge.Outcome(pending, false, None));
      }
      var suggested := service.SuggestNext(p, now);
      return if suggested.Err? then Err(suggested.why) else Ok(Bridge.Outcome(Some(suggested.value), false, None));
    }
  }
}
