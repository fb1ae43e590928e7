/** The service object: reads the run's rows, walks its history step by step and commits one transaction per use case. */
module PreferenceServices {
  import opened Prelude
  import opened RecipeSpace
  import opened Cpbo
  import opened TrustRegions
  import opened History
  import opened Ledgers
  import opened Repositories
  import Engine
  import HistoryLaws
  import Invariants
  import Service

  /** A use case that answers: the specified rows and value, or the specified refusal and the old rows. */
  predicate Delivered<T(==)>(before: Ledger, spec: Result<(Ledger, T)>, after: Ledger, r: Result<T>)
  {
    match spec
    case Ok((m, v)) => r == Ok(v) && after == m
    case Err(e) => r == Err(e) && after == before
  }

  class PreferenceService {
    const repository: Repository
    var settings: Service.Settings

    /** The rows satisfy the invariants of every run. */
    ghost predicate Valid()
      reads repository
    {
      Invariants.Inv(repository.Contents())
    }

    constructor (rows: Repository, initial: Service.Settings)
      ensures repository == rows && settings == initial
    {
      repository, settings := rows, initial;
    }

    method ConfigureRecipeDomain(d: RecipeDomain)
      modifies this
      ensures settings == old(settings).(domain := d)
    {
      settings := settings.(domain := d);
    }

    // ----- use cases -----

    method SuggestNext(proposal: Option<Engine.Proposal>, now: nat) returns (r: Result<Suggestion>)
      modifies repository
      ensures Delivered(old(repository.Contents()), Service.SuggestNext(settings, old(repository.Contents()), proposal, now), repository.Contents(), r)
      ensures old(Valid()) ==> Valid()
    {
      if Valid() && Service.SuggestNext(settings, repository.Contents(), proposal, now).Ok? {
        Invariants.SuggestKeeps(settings, repository.Contents(), proposal, now);
      }
      var state := repository.state;
      var pending := PendingSuggestion(repository.suggestions);
      if state.pendingRecipe.Some? {
        if state.pendingShot.Some? {
          return Err(PreferenceDue);
        }
        return if pending.None? then Err(Refusal.SuggestionMissing) else Ok(pending.value);
      }
      if repository.run.mode.BestIncumbent? && state.region.locallyConverged {
        return Err(LocallyConverged);
      }
      var made := Engine.Suggest(settings.configuration, repository.Contents(), proposal, now);
      if made.Err? {
        return Err(made.why);
      }
      var saved := repository.SaveSuggestion(made.value.suggestion, Service.StateWithSuggestion(state, made.value, now));
      return if saved.Err? then Err(saved.why) else Ok(made.value.suggestion);
    }

    method RecordShot(report: Service.ShotReport, allowDeviation: bool, now: nat) returns (r: Result<Shot>)
      modifies repository
      ensures Delivered(old(repository.Contents()), Service.RecordShot(old(repository.Contents()), report, allowDeviation, now), repository.Contents(), r)
      ensures old(Valid()) ==> Valid()
    {
      if Valid() && Service.RecordShot(repository.Contents(), report, allowDeviation, now).Ok? {
        Invariants.ShotKeeps(repository.Contents(), report, allowDeviation, now);
      }
      var state := repository.state;
      var created := Service.CanonicalRecipe(repository.run, report.controls, now);
      if created.Err? {
        return Err(created.why);
      }
      var recipe := created.value;
      var hasBaseline := Baseline(repository.shots).Some?;
      if hasBaseline {
        if state.pendingRecipe.None? {
          return Err(NoPendingSuggestion);
        }
        if state.pendingShot.Some? {
          return Err(PreferenceDue);
        }
        if recipe.id != state.pendingRecipe.value && !allowDeviation {
          return Err(RecipeMismatch);
        }
      } else if recipe.id != repository.table.first {
        return Err(NotBaseline);
      }
      if !InEnvelope(recipe.controls) {
        return Err(OutsideEnvelope);
      }
      var shot := Shot(report.id, recipe.id, |repository.shots| + 1, report.status, Some(recipe.controls), None, report.notes);
      if !hasBaseline && shot.status.Valid? {
        state := state.(previous := Some(shot.id), incumbent := Some(shot.id), region := state.region.(center := recipe.position), updatedAt := now);
      } else if shot.status.Valid? {
        state := state.(pendingShot := Some(shot.id), updatedAt := now);
      } else {
        state := Service.ClearPending(state).(updatedAt := now);
      }
      var saved := repository.SaveShot(recipe, shot, state);
      return if saved.Err? then Err(saved.why) else Ok(shot);
    }

    method RecordAbstention(newShot: ShotId, anchor: ShotId, now: nat) returns (r: Result<()>)
      modifies repository
      ensures Applied(old(repository.Contents()), Service.RecordAbstention(old(repository.Contents()), newShot, anchor, now), repository.Contents(), r)
      ensures old(Valid()) ==> Valid()
    {
      if Valid() && Service.RecordAbstention(repository.Contents(), newShot, anchor, now).Ok? {
        Invariants.AbstentionKeeps(repository.Contents(), newShot, anchor, now);
      }
      var state := repository.state;
      var found := FindShot(repository.shots, newShot);
      if found.None? {
        return Err(UnknownShot);
      }
      var shot := found.value;
      if !shot.status.Valid? {
        return Err(NotValidShot);
      }
      if shot.abstention.Some? {
        return if shot.abstention.value.anchor != anchor then Err(AnchorChanged) else Ok(());
      }
      if state.pendingShot != Some(newShot) || state.pendingAnchor != Some(anchor) {
        return Err(NotPendingShot);
      }
      var anchorShot := FindShot(repository.shots, anchor);
      if anchorShot.None? {
        return Err(UnknownShot);
      }
      if !anchorShot.value.status.Valid? {
        return Err(NotValidShot);
      }
      if shot.recipe !in repository.table.rows {
        return Err(MissingRecipe);
      }
      r := repository.ReplaceShot(repository.table.rows[shot.recipe], shot.(abstention := Some(Abstention(anchor, now))),
                                  Service.ClearPending(state).(updatedAt := now), true);
    }

    method RecordPreference(j: Service.Judgement, id: ComparisonId, now: nat) returns (r: Result<()>)
      modifies repository
      ensures Applied(old(repository.Contents()), Service.RecordPreference(settings, old(repository.Contents()), j, id, now), repository.Contents(), r)
      ensures old(Valid() && Invariants.KeyFollows(repository.Contents(), id, now)) ==> Valid()
    {
      if Valid() && Invariants.KeyFollows(repository.Contents(), id, now) && Service.RecordPreference(settings, repository.Contents(), j, id, now).Ok? {
        Invariants.PreferenceKeeps(settings, repository.Contents(), j, id, now);
      }
      var state := repository.state;
      if state.pendingShot != Some(j.newShot) {
        r := RepeatPreference(j);
        return;
      }
      if state.pendingAnchor != Some(j.anchor) {
        return Err(AnchorChanged);
      }
      var newShot, anchor := FindShot(repository.shots, j.newShot), FindShot(repository.shots, j.anchor);
      if newShot.None? || anchor.None? {
        return Err(UnknownShot);
      }
      if !newShot.value.status.Valid? || !anchor.value.status.Valid? {
        return Err(NotValidShot);
      }
      if newShot.value.sequence <= anchor.value.sequence {
        return Err(NotNewer);
      }
      if newShot.value.recipe !in repository.table.rows {
        return Err(MissingRecipe);
      }
      var pending := PendingSuggestion(repository.suggestions);
      if pending.None? {
        return Err(Refusal.SuggestionMissing);
      }
      if j.newShot == j.anchor {
        return Err(NotNewer);
      }
      var c := Comparison(id, repository.run.id, j.newShot, j.anchor, j.preference, pending.value.mode, now);
      var judged := ApplyComparison(state, c, repository.table.rows[newShot.value.recipe].position, now);
      if judged.Err? {
        return Err(judged.why);
      }
      r := repository.SaveComparison(c, judged.value);
    }

    /** A repeated delivery writes nothing. */
    method RepeatPreference(j: Service.Judgement) returns (r: Result<()>)
      ensures Applied(repository.Contents(), Service.ReplayPreference(repository.Contents(), j), repository.Contents(), r)
    {
      var found, conflict, i := false, false, 0;
      while i < |repository.comparisons|
        invariant 0 <= i <= |repository.comparisons|
        invariant found <==> exists k :: 0 <= k < i && Service.Answers(repository.comparisons[k], j)
        invariant conflict <==>
          exists k :: 0 <= k < i && Service.Answers(repository.comparisons[k], j) && repository.comparisons[k].preference != j.preference
      {
        if Service.Answers(repository.comparisons[i], j) {
          found, conflict := true, conflict || repository.comparisons[i].preference != j.preference;
        }
        i := i + 1;
      }
      return if !found then Err(NotPendingShot) else if conflict then Err(LabelConflict) else Ok(());
    }

    /** The incremental update: moves the region, then the incumbent, then writes the audit identities. */
    method ApplyComparison(state: OptimizerState, c: Comparison, position: Point, now: nat) returns (r: Result<OptimizerState>)
      ensures r == Service.StateWithComparison(settings, state, c, position, now)
    {
      var incumbent, region := state.incumbent, state.region;
      if c.mode.BestIncumbent? {
        var updated := Update(settings.schedule, region, c.preference, ClampPoint(position));
        if updated.Err? {
          return Err(updated.why);
        }
        region := updated.value;
      }
      if c.preference.NewBetter? && Some(c.anchor) == incumbent {
        incumbent := Some(c.newShot);
      }
      if c.mode.BestIncumbent? {
        var annotated := Annotate(region, c, incumbent);
        if annotated.Err? {
          return Err(annotated.why);
        }
        region := annotated.value;
      }
      return Ok(Service.ClearPending(state).(previous := Some(c.newShot), incumbent := incumbent, region := region, updatedAt := now));
    }

    method ResumeLocalExploration(control: Option<ControlId>, now: nat) returns (r: Result<()>)
      modifies repository
      ensures Applied(old(repository.Contents()), Service.ResumeLocalExploration(settings, old(repository.Contents()), control, now), repository.Contents(), r)
      ensures old(Valid()) ==> Valid()
    {
      if Valid() && Service.ResumeLocalExploration(settings, repository.Contents(), control, now).Ok? {
        Invariants.ResumeKeeps(settings, repository.Contents(), control, now);
      }
      var state := repository.state;
      if !repository.run.active {
        return Err(NotActive);
      }
      if !repository.run.mode.BestIncumbent? {
        return Err(WrongMode);
      }
      if !state.region.locallyConverged {
        var ts := state.region.transitions;
        var repeated := control.Some? && ts != [] && ts[|ts| - 1].action.Resumed? && ts[|ts| - 1].control == control;
        return if repeated then Ok(()) else Err(NotConverged);
      }
      if state.pendingRecipe.Some? || state.pendingShot.Some? || PendingSuggestion(repository.suggestions).Some? {
        return Err(WorkPending);
      }
      if state.incumbent.None? {
        return Err(NoIncumbent);
      }
      var shot := FindShot(repository.shots, state.incumbent.value);
      if shot.None? {
        return Err(UnknownShot);
      }
      if shot.value.recipe !in repository.table.rows {
        return Err(MissingRecipe);
      }
      var cs := repository.comparisons;
      var resumed := Resume(settings.schedule, state.region, ClampPoint(repository.table.rows[shot.value.recipe].position),
                            if cs == [] then None else Some(cs[|cs| - 1].id), state.incumbent.value, now, control);
      if resumed.Err? {
        return Err(resumed.why);
      }
      r := repository.SaveState(state.(region := resumed.value, updatedAt := now), state.updatedAt);
    }

    method CorrectShot(id: ShotId, controls: Controls, notes: map<nat, nat>, now: nat) returns (r: Result<Service.Correction>)
      modifies repository
      ensures Delivered(old(repository.Contents()), Service.CorrectShot(settings, old(repository.Contents()), id, controls, notes, now), repository.Contents(), r)
      ensures old(Valid()) ==> Valid()
    {
      if Valid() && Service.CorrectShot(settings, repository.Contents(), id, controls, notes, now).Ok? {
        Invariants.CorrectionKeeps(settings, repository.Contents(), id, controls, notes, now);
      }
      var state := repository.state;
      var stored := FindShot(repository.shots, id);
      if stored.None? {
        return Err(UnknownShot);
      }
      if stored.value.recipe !in repository.table.rows {
        return Err(MissingRecipe);
      }
      if !InEnvelope(controls.recipe) {
        return Err(OutsideEnvelope);
      }
      var observed := Service.ObservationRecipe(repository.run, controls, repository.table.rows[stored.value.recipe].createdAt);
      if observed.Err? {
        return Err(observed.why);
      }
      var recipe := observed.value;
      var shot := stored.value.(recipe := recipe.id, observed := Some(controls.recipe), notes := stored.value.notes + notes);
      if recipe.id == stored.value.recipe {
        var same := repository.ReplaceShot(recipe, shot, state, false);
        return if same.Err? then Err(same.why) else Ok(Service.Correction(shot, false, state.pendingShot.Some?, false));
      }
      var shots := Substitute(repository.shots, shot);
      var rows := CollectRecipes(map[recipe.id := recipe], shots, Some(id));
      if rows.Err? {
        return Err(rows.why);
      }
      var rebuilt := RebuildState(state, shots, rows.value, repository.comparisons, true, now);
      if rebuilt.Err? {
        return Err(rebuilt.why);
      }
      var invalidate := state.pendingRecipe.Some? && rebuilt.value.pendingRecipe.None?;
      var saved := repository.ReplaceShot(recipe, shot, rebuilt.value, invalidate);
      return if saved.Err? then Err(saved.why) else Ok(Service.Correction(shot, true, rebuilt.value.pendingShot.Some?, invalidate));
    }

    method ExcludeShot(id: ShotId, now: nat) returns (r: Result<()>)
      modifies repository
      ensures Applied(old(repository.Contents()), Service.ExcludeShot(settings, old(repository.Contents()), id, now), repository.Contents(), r)
      ensures old(Valid()) ==> Valid()
    {
      if Valid() && Service.ExcludeShot(settings, repository.Contents(), id, now).Ok? {
        Invariants.ExclusionKeeps(settings, repository.Contents(), id, now);
      }
      var stored := FindShot(repository.shots, id);
      if stored.None? {
        return Err(UnknownShot);
      }
      if stored.value.status.Excluded? {
        return Ok(());
      }
      var shot := stored.value.(status := Excluded);
      var shots := Substitute(repository.shots, shot);
      var rows := CollectRecipes(map[], shots, None);
      if rows.Err? {
        return Err(rows.why);
      }
      var kept := RetainComparisons(repository.run.id, shots, repository.comparisons);
      var rebuilt := RebuildState(repository.state, shots, rows.value, kept, false, now);
      if rebuilt.Err? {
        return Err(rebuilt.why);
      }
      r := repository.ReplaceHistory(shot, kept, rebuilt.value);
    }

    /** The run to continue under the current settings. */
    method MeetActiveRun(mode: Option<Mode>, now: nat) returns (r: Result<()>)
      modifies repository
      ensures Applied(old(repository.Contents()), Service.CompatibleRun(settings, old(repository.Contents()), mode, now), repository.Contents(), r)
      ensures old(Valid()) ==> Valid()
    {
      if Valid() && Service.CompatibleRun(settings, repository.Contents(), mode, now).Ok? {
        Invariants.CompatibleKeeps(settings, repository.Contents(), mode, now);
      }
      var state := repository.state;
      var desired := if mode.Some? then mode.value else repository.run.mode;
      if repository.run.space.version != settings.domain {
        if state.pendingShot.Some? {
          return Ok(());
        }
        if repository.shots == [] {
          repository.Deactivate();
          return Ok(());
        }
        r := MigrateRun(desired, now);
        return;
      }
      if Service.MatchesConfiguration(settings, repository.run, mode) || state.pendingShot.Some? {
        return Ok(());
      }
      r := ReconfigureRun(desired, now);
    }

    method ReconfigureRun(mode: Mode, now: nat) returns (r: Result<()>)
      modifies repository
      ensures Applied(old(repository.Contents()), Service.ReconfigureRun(settings, old(repository.Contents()), mode, now), repository.Contents(), r)
    {
      var state := repository.state;
      var anchor := if mode.GlobalPrevious? then state.previous else state.incumbent;
      var recipe := repository.table.first;
      if anchor.Some? {
        var shot := FindShot(repository.shots, anchor.value);
        if shot.None? {
          return Err(UnknownShot);
        }
        recipe := shot.value.recipe;
      }
      if recipe !in repository.table.rows {
        return Err(MissingRecipe);
      }
      var center := ClampPoint(repository.table.rows[recipe].position);
      var updated := Service.ClearPending(state).(
        region := Fresh(settings.schedule, center), model := None, trace := None,
        seed := settings.seed, configuration := settings.configuration, updatedAt := now);
      r := repository.UpdateConfiguration(repository.run.(mode := mode, configuration := settings.configuration), updated);
    }

    method MigrateRun(mode: Mode, now: nat) returns (r: Result<()>)
      modifies repository
      ensures Applied(old(repository.Contents()), Service.MigrateRun(settings, old(repository.Contents()), mode, now), repository.Contents(), r)
    {
      var space := WithDomain(repository.run.space, settings.domain);
      if space.Err? {
        return Err(space.why);
      }
      var run := repository.run.(mode := mode, space := space.value, configuration := settings.configuration);
      var rebased := RebaseShots(space.value);
      if rebased.Err? {
        return Err(rebased.why);
      }
      var rebuilt := RebuildState(repository.state, rebased.value.shots, Service.RowsOf(rebased.value.recipes), repository.comparisons, false, now);
      if rebuilt.Err? {
        return Err(rebuilt.why);
      }
      var state := Service.ClearPending(rebuilt.value).(seed := settings.seed, configuration := settings.configuration, updatedAt := now);
      r := repository.Migrate(run, rebased.value.recipes, rebased.value.shots, state);
    }

    // ----- walking the history -----

    /** Replays the comparisons of a history in order, applying each resume marker where it was recorded. */
    method RebuildState(state: OptimizerState, shots: seq<Shot>, rows: RecipeRows, cs: seq<Comparison>, preservePending: bool, now: nat)
      returns (r: Result<OptimizerState>)
      ensures r == Service.RebuildState(settings, state, shots, rows, cs, preservePending, now)
    {
      var markers := MarkersOf(state.region.transitions);
      if !DistinctMarkers(state.region.transitions) {
        return Err(DuplicateMarker);
      }
      var valid := ValidById(shots);
      var base := Baseline(shots);
      var previous: Option<ShotId>, incumbent: Option<ShotId>, region := None, None, Fresh(settings.schedule, state.region.center);
      if base.Some? {
        var replayed := ReplayComparisons(base.value, Centers(shots, rows), markers, cs);
        if replayed.Err? {
          return Err(replayed.why);
        }
        previous, incumbent, region := Some(replayed.value.head.previous), Some(replayed.value.head.incumbent), replayed.value.region;
        if MarkersOf(region.transitions).Keys != markers.Keys {
          return Err(MarkerWithoutHistory);
        }
      }
      var awaiting := preservePending && state.pendingShot.Some? && state.pendingShot.value in valid
      && state.pendingAnchor.Some? && state.pendingAnchor.value in valid;
      var kept := if awaiting then state else Service.ClearPending(state);
      return Ok(kept.(previous := previous, incumbent := incumbent, region := region, model := None, trace := None, updatedAt := now));
    }

    method ReplayComparisons(base: ShotId, centers: map<ShotId, Option<Point>>, markers: Markers, cs: seq<Comparison>) returns (r: Result<Replayed>)
      ensures r == if base in centers && centers[base].Some?
                   then Replay(settings.schedule, centers, markers, StartAt(settings.schedule, base, centers[base].value), cs)
                   else Err(MissingRecipe)
    {
      if base !in centers || centers[base].None? {
        return Err(MissingRecipe);
      }
      var s := settings.schedule;
      ghost var start := StartAt(s, base, centers[base].value);
      var current := Replayed(Head(base, base), Fresh(s, ClampPoint(centers[base].value)));
      var i := 0;
      while i < |cs|
        invariant 0 <= i <= |cs|
        invariant Replay(s, centers, markers, start, cs[..i]) == Ok(current)
      {
        assert cs[..i + 1][..i] == cs[..i];
        ReplayFails(s, centers, markers, start, cs, i + 1);
        var next := ReplayComparison(centers, markers, current, cs[i]);
        if next.Err? {
          return next;
        }
        current := next.value;
        i := i + 1;
      }
      assert cs[..i] == cs;
      return Ok(current);
    }

    /** The body of the loop: region, incumbent, audit identities, previous shot, then the resume marker. */
    method ReplayComparison(centers: map<ShotId, Option<Point>>, markers: Markers, current: Replayed, c: Comparison) returns (r: Result<Replayed>)
      ensures r == ReplayStep(settings.schedule, centers, markers, current, c)
    {
      var incumbent, region := current.head.incumbent, current.region;
      if c.newShot !in centers || c.anchor !in centers {
        return Err(MissingValidShot);
      }
      if c.mode.BestIncumbent? {
        if centers[c.newShot].None? {
          return Err(MissingRecipe);
        }
        var updated := Update(settings.schedule, region, c.preference, ClampPoint(centers[c.newShot].value));
        if updated.Err? {
          return Err(updated.why);
        }
        region := updated.value;
      }
      if c.preference.NewBetter? && c.anchor == incumbent {
        incumbent := c.newShot;
      }
      if c.mode.BestIncumbent? {
        var annotated := Annotate(region, c, Some(incumbent));
        if annotated.Err? {
          return Err(annotated.why);
        }
        region := annotated.value;
      }
      if Some(c.id) in markers {
        if !region.locallyConverged {
          return Err(MarkerWithoutConvergence);
        }
        if incumbent !in centers || centers[incumbent].None? {
          return Err(MissingRecipe);
        }
        var marker := markers[Some(c.id)];
        var createdAt := if marker.createdAt.Some? && marker.createdAt.value != 0 then marker.createdAt.value else c.createdAt;
        var resumed := Resume(settings.schedule, region, ClampPoint(centers[incumbent].value), Some(c.id), incumbent, createdAt, marker.control);
        if resumed.Err? {
          return Err(resumed.why);
        }
        region := resumed.value;
      }
      return Ok(Replayed(Head(c.newShot, incumbent), region));
    }

    /** Drops every comparison that is no longer legal after the ones kept before it. */
    method RetainComparisons(run: RunId, shots: seq<Shot>, cs: seq<Comparison>) returns (retained: seq<Comparison>)
      ensures retained == RetainedHistory(run, shots, cs)
    {
      var base := Baseline(shots);
      if base.None? {
        return [];
      }
      var ranks := Ranks(shots);
      var incumbent, previous, seen := base.value, base.value, {};
      retained := [];
      var i := 0;
      while i < |cs|
        invariant 0 <= i <= |cs|
        invariant retained == Retained(run, ranks, base.value, cs[..i])
        invariant HeadAfter(base.value, retained) == Head(previous, incumbent)
        invariant seen == Compared(retained)
      {
        var c := cs[i];
        assert cs[..i + 1][..i] == cs[..i];
        var expected := if c.mode.GlobalPrevious? then previous else incumbent;
        if c.newShot in ranks && c.anchor in ranks && c.run == run && c.newShot !in seen && c.anchor == expected && ranks[c.newShot] > ranks[c.anchor] {
          HistoryLaws.HeadAppend(base.value, retained, c);
          retained, seen, previous := retained + [c], seen + {c.newShot}, c.newShot;
          if c.anchor == incumbent && c.preference.NewBetter? {
            incumbent := c.newShot;
          }
        }
        i := i + 1;
      }
      assert cs[..i] == cs;
    }

    /** Looks up the recipe of every listed shot except one. */
    method CollectRecipes(start: RecipeRows, shots: seq<Shot>, except: Option<ShotId>) returns (r: Result<RecipeRows>)
      ensures r == Service.CollectRecipes(repository.table, start, shots, except)
    {
      var rows, i := start, 0;
      while i < |shots|
        invariant 0 <= i <= |shots|
        invariant Service.CollectRecipes(repository.table, start, shots[..i], except) == Ok(rows)
      {
        var shot := shots[i];
        assert shots[..i + 1][..i] == shots[..i];
        if except != Some(shot.id) {
          if shot.recipe !in repository.table.rows {
            CollectionFails(repository.table, start, shots, except, i + 1);
            return Err(MissingRecipe);
          }
          rows := rows[shot.recipe := repository.table.rows[shot.recipe]];
        }
        i := i + 1;
      }
      assert shots[..i] == shots;
      return Ok(rows);
    }

    /** Re-observes every stored shot in another recipe space. */
    method RebaseShots(space: Space) returns (r: Result<Service.Rebased>)
      ensures r == Service.RebaseShots(space, repository.table, repository.shots)
    {
      var stored, rows := repository.shots, repository.table.rows;
      var recipes: seq<RecipePoint>, shots: seq<Shot>, i := [], [], 0;
      while i < |stored|
        invariant 0 <= i <= |stored|
        invariant Service.RebaseShots(space, repository.table, stored[..i]) == Ok(Service.Rebased(recipes, shots))
      {
        var shot := stored[i];
        RebasingGrows(space, repository.table, stored, i);
        RebasingFails(space, repository.table, stored, i + 1);
        if shot.recipe !in rows {
          return Err(MissingRecipe);
        }
        var observed := if shot.observed.Some? then shot.observed.value else rows[shot.recipe].controls;
        var recipe := Observe(space, observed, rows[shot.recipe].createdAt);
        if recipe.Err? {
          return Err(recipe.why);
        }
        recipes := Service.Put(recipes, recipe.value);
        shots := shots + [shot.(recipe := recipe.value.id, observed := Some(observed))];
        i := i + 1;
      }
      assert stored[..i] == stored;
      return Ok(Service.Rebased(recipes, shots));
    }
  }

  // ----- a walk that fails on a prefix fails as a whole -----

  lemma {:induction false} ReplayFails(s: Schedule, centers: map<ShotId, Option<Point>>, markers: Markers, start: Replayed, cs: seq<Comparison>, n: nat)
    requires n <= |cs|
    ensures Replay(s, centers, markers, start, cs[..n]).Err? ==>
      Replay(s, centers, markers, start, cs) == Replay(s, centers, markers, start, cs[..n])
    decreases |cs| - n
  {
    if n == |cs| {
      assert cs[..n] == cs;
    } else {
      assert cs[..n + 1][..n] == cs[..n];
      ReplayFails(s, centers, markers, start, cs, n + 1);
    }
  }

  lemma {:induction false} CollectionFails(t: RecipeTable, start: RecipeRows, shots: seq<Shot>, except: Option<ShotId>, n: nat)
    requires n <= |shots| && Service.CollectRecipes(t, start, shots[..n], except).Err?
    ensures Service.CollectRecipes(t, start, shots, except) == Service.CollectRecipes(t, start, shots[..n], except)
    decreases |shots| - n
  {
    if n == |shots| {
      assert shots[..n] == shots;
    } else {
      assert shots[..n + 1][..n] == shots[..n];
      CollectionFails(t, start, shots, except, n + 1);
    }
  }

  lemma {:induction false} RebasingFails(space: Space, t: RecipeTable, shots: seq<Shot>, n: nat)
    requires n <= |shots|
    ensures Service.RebaseShots(space, t, shots[..n]).Err? ==>
      Service.RebaseShots(space, t, shots) == Service.RebaseShots(space, t, shots[..n])
    decreases |shots| - n
  {
    if n == |shots| {
      assert shots[..n] == shots;
    } else {
      assert shots[..n + 1][..n] == shots[..n];
      RebasingFails(space, t, shots, n + 1);
    }
  }

  lemma RebasingGrows(space: Space, t: RecipeTable, shots: seq<Shot>, i: nat)
    requires i < |shots|
    ensures Service.RebaseShots(space, t, shots[..i + 1]) ==
      var earlier := Service.RebaseShots(space, t, shots[..i]);
      if earlier.Err? then Err(earlier.why)
      else if shots[i].recipe !in t.rows then Err(MissingRecipe)
      else
        var recipe := Observe(space, Service.ObservedOf(t, shots[i]), t.rows[shots[i].recipe].createdAt);
        if recipe.Err? then Err(recipe.why)
        else
          var rebased := shots[i].(recipe := recipe.value.id, observed := Some(Service.ObservedOf(t, shots[i])));
          Ok(Service.Rebased(Service.Put(earlier.value.recipes, recipe.value), earlier.value.shots + [rebased]))
  {
    assert shots[..i + 1][..i] == shots[..i];
  }
}
