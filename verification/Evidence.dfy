/** The optimizer accepts the evidence of every reachable run: stored recipes are canonical and histories legal. */
module Evidence {
  import opened Prelude
  import opened RecipeSpace
  import opened RecipeLaws
  import opened Cpbo
  import opened TrustRegions
  import opened History
  import opened HistoryLaws
  import opened ReplayLaws
  import opened Ledgers
  import opened Service
  import opened Invariants
  import opened Engine

  /** A stored recipe holds what its identifier says, at the place its space version gives it. */
  predicate CanonicalRow(space: Space, r: RecipePoint)
  {
    && r.controls == r.id.controls
    && WithDomain(space, r.id.version).Ok?
    && r.position == NormalizeObservation(WithDomain(space, r.id.version).value, r.controls)
  }

  /** The space is the one around its own limits, and every stored recipe is canonical. */
  predicate Canonical(l: Ledger)
  {
    && WithDomain(l.run.space, l.run.space.version) == Ok(l.run.space)
    && forall k :: k in l.table.rows ==> l.table.rows[k].id == k && CanonicalRow(l.run.space, l.table.rows[k])
  }

  lemma CreatedIsCanonical(space: Space, t: Triple, now: nat)
    requires WithDomain(space, space.version) == Ok(space) && Create(space, t, now).Ok?
    ensures CanonicalRow(space, Create(space, t, now).value)
  {
    CreateIsCanonical(space, t, now);
  }

  lemma ObservedIsCanonical(space: Space, t: Triple, createdAt: nat)
    requires WithDomain(space, space.version) == Ok(space) && Observe(space, t, createdAt).Ok?
    ensures CanonicalRow(space, Observe(space, t, createdAt).value)
  {
  }

  /** The collision error of the recipe table is unreachable: equal identifiers mean equal recipes. */
  lemma CanonicalNeverCollides(space: Space, t: RecipeTable, r: RecipePoint)
    requires forall k :: k in t.rows ==> t.rows[k].id == k && CanonicalRow(space, t.rows[k])
    requires CanonicalRow(space, r)
    ensures InsertRecipe(t, r).Ok?
    ensures var u := InsertRecipe(t, r).value; forall k :: k in u.rows ==> u.rows[k].id == k && CanonicalRow(space, u.rows[k])
  {
    if r.id in t.rows {
      assert t.rows[r.id].(createdAt := r.createdAt) == r;
    }
  }

  lemma {:induction false} CanonicalInserts(space: Space, t: RecipeTable, rs: seq<RecipePoint>)
    requires forall k :: k in t.rows ==> t.rows[k].id == k && CanonicalRow(space, t.rows[k])
    requires forall i :: 0 <= i < |rs| ==> CanonicalRow(space, rs[i])
    ensures InsertRecipes(t, rs).Ok?
    ensures var u := InsertRecipes(t, rs).value; forall k :: k in u.rows ==> u.rows[k].id == k && CanonicalRow(space, u.rows[k])
  {
    if rs != [] {
      CanonicalInserts(space, t, rs[..|rs| - 1]);
      CanonicalNeverCollides(space, InsertRecipes(t, rs[..|rs| - 1]).value, rs[|rs| - 1]);
    }
  }

  /** Rebasing the space keeps every stored recipe canonical. */
  lemma RebasedStaysCanonical(space: Space, d: RecipeDomain, r: RecipePoint)
    requires WithDomain(space, d).Ok? && CanonicalRow(space, r)
    ensures CanonicalRow(WithDomain(space, d).value, r)
    ensures WithDomain(WithDomain(space, d).value, d) == WithDomain(space, d)
  {
    RebaseTwice(space, d, r.id.version);
    RebaseTwice(space, d, d);
  }

  lemma InitializeIsCanonical(s: Settings, id: RunId, mode: Mode, baseline: Controls, steps: Resolutions, now: nat)
    requires Initialize(s, id, mode, baseline, steps, now).Ok?
    ensures Canonical(Initialize(s, id, mode, baseline, steps, now).value)
  {
    RebaseHome(baseline.recipe.grind, steps.grind, steps.dose, steps.output, baseline.higherIsFiner, s.domain);
    var space := SpaceAround(baseline.recipe.grind, steps.grind, steps.dose, steps.output, baseline.higherIsFiner, s.domain).value;
    CreatedIsCanonical(space, baseline.recipe, now);
  }

  lemma SuggestionStaysCanonical(s: Settings, l: Ledger, p: Option<Proposal>, now: nat)
    requires Inv(l) && Canonical(l) && SuggestNext(s, l, p, now).Ok?
    ensures Canonical(SuggestNext(s, l, p, now).value.0)
  {
    SuggestionParts(s, l, p, now);
    if l.state.pendingRecipe.None? {
      CreatedIsCanonical(l.run.space, p.value.controls, now);
      CanonicalNeverCollides(l.run.space, l.table, SuggestNext(s, l, p, now).value.1.recipe);
    }
  }

  lemma ShotStaysCanonical(l: Ledger, r: ShotReport, deviate: bool, now: nat)
    requires Canonical(l) && RecordShot(l, r, deviate, now).Ok?
    ensures Canonical(RecordShot(l, r, deviate, now).value.0)
  {
    RecordedParts(l, r, deviate, now);
    CreatedIsCanonical(l.run.space, r.controls.recipe, now);
    CanonicalNeverCollides(l.run.space, l.table, CanonicalRecipe(l.run, r.controls, now).value);
  }

  lemma CorrectionStaysCanonical(s: Settings, l: Ledger, id: ShotId, controls: Controls, notes: map<nat, nat>, now: nat)
    requires Inv(l) && Canonical(l) && CorrectShot(s, l, id, controls, notes, now).Ok?
    ensures Canonical(CorrectShot(s, l, id, controls, notes, now).value.0)
  {
    var i, recipe := CorrectionRecord(s, l, id, controls, notes, now);
    ObservedIsCanonical(l.run.space, controls.recipe, l.table.rows[l.shots[i].recipe].createdAt);
    InsertedStaysCanonical(l, CorrectShot(s, l, id, controls, notes, now).value.0, recipe);
  }

  lemma InsertedStaysCanonical(l: Ledger, m: Ledger, r: RecipePoint)
    requires Canonical(l) && CanonicalRow(l.run.space, r) && InsertRecipe(l.table, r) == Ok(m.table) && m.run == l.run
    ensures Canonical(m)
  {
    CanonicalNeverCollides(l.run.space, l.table, r);
  }

  lemma {:induction false} RebasedRecipesCanonical(space: Space, t: RecipeTable, shots: seq<Shot>)
    requires WithDomain(space, space.version) == Ok(space) && RebaseShots(space, t, shots).Ok?
    ensures forall i :: 0 <= i < |RebaseShots(space, t, shots).value.recipes| ==> CanonicalRow(space, RebaseShots(space, t, shots).value.recipes[i])
  {
    if shots != [] {
      RebasedRecipesCanonical(space, t, shots[..|shots| - 1]);
      RebasedShots(space, t, shots[..|shots| - 1]);
      var last := shots[|shots| - 1];
      ObservedIsCanonical(space, ObservedOf(t, last), t.rows[last.recipe].createdAt);
      var recipe := Observe(space, ObservedOf(t, last), t.rows[last.recipe].createdAt).value;
      PutHolds(RebaseShots(space, t, shots[..|shots| - 1]).value.recipes, recipe);
    }
  }

  lemma {:induction false} PutHolds(rs: seq<RecipePoint>, r: RecipePoint)
    ensures forall i :: 0 <= i < |Put(rs, r)| ==> Put(rs, r)[i] == r || Put(rs, r)[i] in rs
  {
    if rs != [] {
      PutHolds(rs[..|rs| - 1], r);
    }
  }

  lemma MovedStaysCanonical(s: Settings, l: Ledger, m: Ledger, mode: Mode, space: Space, rebased: Rebased, state: OptimizerState, now: nat)
    requires Canonical(l) && Moved(s, l, m, mode, space, rebased, state, now)
    ensures Canonical(m)
  {
    RebaseTwice(l.run.space, s.domain, s.domain);
    forall k | k in l.table.rows
      ensures CanonicalRow(space, l.table.rows[k])
    {
      RebasedStaysCanonical(l.run.space, s.domain, l.table.rows[k]);
    }
    RebasedRecipesCanonical(space, l.table, l.shots);
    CanonicalInserts(space, l.table, rebased.recipes);
  }

  // ----- the optimizer's validation -----

  /** Every shot's stored recipe is the one its observation stands for. */
  predicate ObservationsMatch(l: Ledger)
  {
    forall i :: 0 <= i < |l.shots| ==> l.shots[i].recipe in l.table.rows && ValidateObservation(l.run.space, l.table.rows, l.shots[i]).Ok?
  }

  lemma {:induction false} ShotsById(shots: seq<Shot>)
    requires ShotRows(shots)
    ensures forall i :: 0 <= i < |shots| ==> shots[i].id in ShotById(shots) && ShotById(shots)[shots[i].id] == shots[i]
    ensures forall k :: k in ShotById(shots) ==> ShotById(shots)[k] in shots && ShotById(shots)[k].id == k
  {
    if shots != [] {
      var init := shots[..|shots| - 1];
      ShotsById(init);
      assert forall i :: 0 <= i < |init| ==> init[i] == shots[i];
    }
  }

  lemma RanksById(shots: seq<Shot>, k: ShotId)
    requires ShotRows(shots)
    ensures k in Ranks(shots) <==> k in ShotById(shots) && ShotById(shots)[k].status.Valid?
    ensures k in Ranks(shots) ==> Ranks(shots)[k] == ShotById(shots)[k].sequence
  {
    ShotsById(shots);
    ValidShots(shots);
    if k in ShotById(shots) {
      var i :| 0 <= i < |shots| && shots[i] == ShotById(shots)[k];
      ShotInValid(shots, i);
    }
  }

  /** The optimizer's forward check of a history agrees with the service's notion of a legal chain. */
  lemma {:induction false} ValidationIsLegality(run: RunId, shots: seq<Shot>, base: ShotId, cs: seq<Comparison>, i: nat)
    requires ShotRows(shots) && i <= |cs| && LegalChain(run, Ranks(shots), base, cs[..i])
    ensures var h := HeadAfter(base, cs[..i]);
      ValidateHistory(run, ShotById(shots), cs, i, h.previous, h.incumbent, Compared(cs[..i])).Ok? <==> LegalChain(run, Ranks(shots), base, cs)
    decreases |cs| - i
  {
    if i == |cs| {
      assert cs[..i] == cs;
    } else {
      var c := cs[i];
      RanksById(shots, c.newShot);
      RanksById(shots, c.anchor);
      assert cs[..i + 1] == cs[..i] + [c];
      HeadAppend(base, cs[..i], c);
      ChainAppend(run, Ranks(shots), base, cs[..i], c);
      if Legal(run, Ranks(shots), base, cs[..i], c) {
        ValidationIsLegality(run, shots, base, cs, i + 1);
      } else if LegalChain(run, Ranks(shots), base, cs) {
        ChainAt(run, Ranks(shots), base, cs, i);
      }
    }
  }

  lemma StoredHistoryAccepted(l: Ledger, base: ShotId)
    requires ShotRows(l.shots) && Chained(l) && Baseline(l.shots) == Some(base)
    ensures ValidateHistory(l.run.id, ShotById(l.shots), l.comparisons, 0, base, base, {}).Ok?
    ensures RefersToValid(ShotById(l.shots), l.state.previous) && RefersToValid(ShotById(l.shots), l.state.incumbent)
  {
    assert l.comparisons[..0] == [] && Compared([]) == {};
    ValidationIsLegality(l.run.id, l.shots, base, l.comparisons, 0);
    BaselineIsFirst(l.shots);
    ChainIsValid(l.run.id, Ranks(l.shots), base, l.comparisons);
    RanksById(l.shots, l.state.previous.value);
    RanksById(l.shots, l.state.incumbent.value);
  }

  /** On the rows of any run the optimizer's validation can only fail for want of a valid shot or for a mismatched observation. */
  lemma ValidationAccepts(l: Ledger)
    requires Inv(l)
    ensures ValidateRunData(l).Ok? <==> Baseline(l.shots).Some? && ObservationsMatch(l)
  {
    if Baseline(l.shots).Some? {
      StoredHistoryAccepted(l, Baseline(l.shots).value);
    }
  }

  /** Filtering a history repairs it for the optimizer, and only illegal histories are changed by the filter. */
  lemma FilterRepairsForValidation(run: RunId, shots: seq<Shot>, base: ShotId, cs: seq<Comparison>)
    requires ShotRows(shots)
    ensures var kept := Retained(run, Ranks(shots), base, cs);
      && ValidateHistory(run, ShotById(shots), kept, 0, base, base, {}).Ok?
      && (ValidateHistory(run, ShotById(shots), cs, 0, base, base, {}).Ok? <==> kept == cs)
  {
    var kept := Retained(run, Ranks(shots), base, cs);
    assert kept[..0] == [] && cs[..0] == [] && Compared([]) == {};
    RetainedIsLegal(run, Ranks(shots), base, cs);
    RetainedIsIdentity(run, Ranks(shots), base, cs);
    ValidationIsLegality(run, shots, base, kept, 0);
    ValidationIsLegality(run, shots, base, cs, 0);
  }

  /** A recorded shot stands for its own observation exactly when observing its recipe gives that recipe back. */
  lemma RecordedObservation(l: Ledger, r: ShotReport, deviate: bool, now: nat)
    requires Inv(l) && Canonical(l) && ObservationsMatch(l) && RecordShot(l, r, deviate, now).Ok?
    ensures var m := RecordShot(l, r, deviate, now).value.0;
      var recipe := CanonicalRecipe(l.run, r.controls, now).value;
      ObservationsMatch(m) <==> QuantizeObserved(l.run.space, recipe.controls) == recipe.controls
    ensures Aligned(l.run.space) ==> ObservationsMatch(RecordShot(l, r, deviate, now).value.0)
  {
    RecordedParts(l, r, deviate, now);
    var (m, shot) := RecordShot(l, r, deviate, now).value;
    var recipe := CanonicalRecipe(l.run, r.controls, now).value;
    InsertedRecipe(l.table, recipe);
    CreateIsCanonical(l.run.space, r.controls.recipe, now);
    AppendedObservations(l, m, shot, recipe);
    assert InEnvelope(recipe.controls);
    if Aligned(l.run.space) {
      ObservedAsCreated(l.run.space, r.controls.recipe, now, now);
    }
  }

  lemma AppendedObservations(l: Ledger, m: Ledger, shot: Shot, recipe: RecipePoint)
    requires ObservationsMatch(l) && m.shots == l.shots + [shot] && m.run == l.run
    requires forall k :: k in l.table.rows ==> k in m.table.rows && m.table.rows[k] == l.table.rows[k]
    requires shot.recipe == recipe.id && recipe.id in m.table.rows && shot.observed == Some(recipe.controls)
    requires InEnvelope(recipe.controls) && recipe.id == RecipeId(l.run.space.version, recipe.controls)
    requires recipe.controls.dose > 0.0 && recipe.controls.output > 0.0
    ensures ObservationsMatch(m) <==> QuantizeObserved(l.run.space, recipe.controls) == recipe.controls
  {
    var q := QuantizeObserved(l.run.space, recipe.controls);
    var n := |l.shots|;
    assert m.shots[n] == shot;
    assert ValidateObservation(m.run.space, m.table.rows, m.shots[n]).Ok? <==> q == recipe.controls;
    forall i | 0 <= i < n
      ensures m.shots[i].recipe in m.table.rows && ValidateObservation(m.run.space, m.table.rows, m.shots[i]).Ok?
    {
      assert m.shots[i] == l.shots[i];
    }
  }

  /** A mismatched observation blocks every later suggestion, whatever the optimizer proposes. */
  lemma MismatchBlocksSuggestions(s: Settings, l: Ledger, p: Option<Proposal>, now: nat)
    requires Inv(l) && !ObservationsMatch(l) && l.state.pendingRecipe.None?
    ensures SuggestNext(s, l, p, now).Err?
  {
    ValidationAccepts(l);
  }

  /** When the optimizer produces a suggestion for a run with nothing pending, and that it then suggests its selection in the run's mode
      against the previous shot or the incumbent. */
  lemma {:induction false} EngineCondition(configuration: nat, l: Ledger, p: Option<Proposal>, now: nat)
    requires Inv(l) && l.state.pendingRecipe.None? && p.Some? && Create(l.run.space, p.value.controls, now).Ok?
    ensures Suggest(configuration, l, p, now).Ok? <==>
      && Baseline(l.shots).Some? && ObservationsMatch(l) && l.run.configuration == configuration
      && !(l.run.mode.BestIncumbent? && l.state.region.locallyConverged)
    ensures Suggest(configuration, l, p, now).Ok? ==>
      var made := Suggest(configuration, l, p, now).value.suggestion;
      && made.id == p.value.id && made.recipe == Create(l.run.space, p.value.controls, now).value
      && made.mode == l.run.mode && made.iteration == l.state.iteration + 1 && made.createdAt == now
      && Baseline(l.shots).Some?
      && made.anchor == Expected(HeadAfter(Baseline(l.shots).value, l.comparisons), l.run.mode)
  {
    ValidationAccepts(l);
  }

  /** A new suggestion is produced exactly outside local convergence, once there is a valid shot and matching evidence. */
  lemma SuggestionCondition(s: Settings, l: Ledger, p: Option<Proposal>, now: nat)
    requires Inv(l) && Canonical(l) && l.state.pendingRecipe.None?
    requires p.Some? && Create(l.run.space, p.value.controls, now).Ok?
    requires forall i :: 0 <= i < |l.suggestions| ==> l.suggestions[i].suggestion.id != p.value.id
    ensures SuggestNext(s, l, p, now).Ok? <==>
      && Baseline(l.shots).Some? && ObservationsMatch(l) && l.run.configuration == s.configuration
      && !(l.run.mode.BestIncumbent? && l.state.region.locallyConverged)
  {
    EngineCondition(s.configuration, l, p, now);
    NoOpenRow(l);
    CreatedIsCanonical(l.run.space, p.value.controls, now);
    CanonicalNeverCollides(l.run.space, l.table, Create(l.run.space, p.value.controls, now).value);
    var made := Suggest(s.configuration, l, p, now);
    if made.Ok? {
      SaveAccepted(l, made.value, now);
    }
  }

  lemma SaveAccepted(l: Ledger, made: Computation, now: nat)
    requires PendingSuggestion(l.suggestions).None? && InsertRecipe(l.table, made.suggestion.recipe).Ok?
    requires forall i :: 0 <= i < |l.suggestions| ==> l.suggestions[i].suggestion.id != made.suggestion.id
    ensures SaveSuggestion(l, made.suggestion, StateWithSuggestion(l.state, made, now)).Ok?
  {
  }
}
