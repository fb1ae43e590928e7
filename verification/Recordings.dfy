/** When a shot can be recorded, and why a migrated run may have no baseline again. */
module Recordings {
  import opened Prelude
  import opened RecipeSpace
  import opened RecipeLaws
  import opened Cpbo
  import opened TrustRegions
  import opened History
  import opened HistoryLaws
  import opened ReplayLaws
  import opened Ledgers
  import opened Service
  import opened Invariants
  import opened Evidence
  import opened Frames
  import opened Runs
  import Engine

  // ----- recording -----

  /** Every control lies within its limits, up to the round-off tolerance. */
  predicate Proposable(s: Space, t: Triple)
  {
    Accepts(s.grind, t.grind) && Accepts(s.dose, t.dose) && Accepts(s.output, t.output)
  }

  /** In a space around its own limits a recipe can be created exactly from controls within the limits. */
  lemma CreateCondition(s: Space, t: Triple, now: nat)
    requires WithDomain(s, s.version) == Ok(s)
    ensures Create(s, t, now).Ok? <==> Proposable(s, t)
    ensures Create(s, t, now).Ok? ==>
      var r := Create(s, t, now).value;
      && QuantizeRecipe(s, t) == Ok(r.controls) && r.id == RecipeId(s.version, r.controls) && r.createdAt == now
      && DOSE_MIN <= r.controls.dose <= DOSE_MAX && OUTPUT_MIN <= r.controls.output <= OUTPUT_MAX
  {
    if Proposable(s, t) {
      QuantizeProjects(s.grind, t.grind);
      QuantizeProjects(s.dose, t.dose);
      QuantizeProjects(s.output, t.output);
      InverseUndoesNormalize(s, t);
    }
  }

  /** The grinder setting is within the physical envelope; dose and output within the limits always are. */
  predicate GrindInEnvelope(t: Triple) { -GRIND_RADIUS_MAX <= t.grind <= GRIND_RADIUS_MAX }

  /** The recipe a report stands for may be recorded now: as the baseline of the run or, later, as the answer to the open suggestion. */
  predicate IsDue(l: Ledger, id: RecipeId, deviate: bool)
  {
    if Baseline(l.shots).None? then id == l.table.first
    else l.state.pendingRecipe.Some? && l.state.pendingShot.None? && (deviate || l.state.pendingRecipe.value == id)
  }

  /** A shot is recorded exactly when it is new, its grinder direction and controls fit the space, and its recipe is the expected one. */
  lemma RecordCondition(l: Ledger, r: ShotReport, deviate: bool, now: nat)
    requires Inv(l) && Canonical(l)
    ensures RecordShot(l, r, deviate, now).Ok? <==>
      && r.controls.higherIsFiner == l.run.space.higherIsFiner && Proposable(l.run.space, r.controls.recipe)
      && var q := QuantizeRecipe(l.run.space, r.controls.recipe).value;
      GrindInEnvelope(q) && !HasShot(l.shots, r.id) && IsDue(l, RecipeId(l.run.space.version, q), deviate)
  {
    CreateCondition(l.run.space, r.controls.recipe, now);
    if r.controls.higherIsFiner == l.run.space.higherIsFiner && Proposable(l.run.space, r.controls.recipe) {
      var recipe := Create(l.run.space, r.controls.recipe, now).value;
      CreatedIsCanonical(l.run.space, r.controls.recipe, now);
      InsertsCanonical(l, recipe);
      var shot := Shot(r.id, recipe.id, |l.shots| + 1, r.status, Some(recipe.controls), None, r.notes);
      if IsDue(l, recipe.id, deviate) {
        ShotStored(l, recipe, shot, now);
      }
      RecordSteps(l, r, deviate, now, recipe, shot);
    }
  }

  lemma InsertsCanonical(l: Ledger, r: RecipePoint)
    requires Canonical(l) && CanonicalRow(l.run.space, r)
    ensures InsertRecipe(l.table, r).Ok?
  {
    CanonicalNeverCollides(l.run.space, l.table, r);
  }

  lemma RecordSteps(l: Ledger, r: ShotReport, deviate: bool, now: nat, recipe: RecipePoint, shot: Shot)
    requires CanonicalRecipe(l.run, r.controls, now) == Ok(recipe)
    requires shot == Shot(r.id, recipe.id, |l.shots| + 1, r.status, Some(recipe.controls), None, r.notes)
    ensures RecordShot(l, r, deviate, now).Ok? <==>
      && IsDue(l, recipe.id, deviate) && InEnvelope(recipe.controls)
      && SaveShot(l, recipe, shot, StateWithShot(l.state, Baseline(l.shots).Some?, shot, recipe, now)).Ok?
  {
  }

  lemma ShotStored(l: Ledger, recipe: RecipePoint, shot: Shot, now: nat)
    requires Inv(l) && recipe.id == shot.recipe && InsertRecipe(l.table, recipe).Ok? && shot.sequence == |l.shots| + 1
    requires Baseline(l.shots).Some? ==> l.state.pendingRecipe.Some? && l.state.pendingShot.None?
    ensures SaveShot(l, recipe, shot, StateWithShot(l.state, Baseline(l.shots).Some?, shot, recipe, now)).Ok? <==> !HasShot(l.shots, shot.id)
  {
    if Baseline(l.shots).Some? {
      var k := OpenRow(l);
    }
  }

  // ----- the recipe listed first -----

  /** No recipe is listed before the first one. */
  predicate EarliestFirst(t: RecipeTable)
  {
    t.first in t.rows && forall k :: k in t.rows ==> !ListedBefore(t.order, t.rows[k], t.rows[t.first])
  }

  /** An inserted recipe becomes the first exactly when it is new and listed before the first. */
  lemma InsertKeepsEarliest(t: RecipeTable, r: RecipePoint)
    requires EarliestFirst(t) && InsertRecipe(t, r).Ok?
    ensures var u := InsertRecipe(t, r).value;
      && EarliestFirst(u) && u.order == t.order
      && u.first == if r.id !in t.rows && ListedBefore(t.order, r, t.rows[t.first]) then r.id else t.first
  {
    InsertedRecipe(t, r);
  }

  /** A listed recipe is new and comes before the first one. */
  predicate Overtakes(t: RecipeTable, rs: seq<RecipePoint>, i: nat)
    requires t.first in t.rows
  {
    i < |rs| && rs[i].id !in t.rows && ListedBefore(t.order, rs[i], t.rows[t.first])
  }

  function RecipeIds(rs: seq<RecipePoint>): set<RecipeId> { set r | r in rs :: r.id }

  lemma RecipeIdsAppend(rs: seq<RecipePoint>, r: RecipePoint)
    ensures RecipeIds(rs + [r]) == RecipeIds(rs) + {r.id}
  {
    assert forall x :: x in rs + [r] <==> x in rs || x == r;
  }

  ghost predicate SomeOvertakes(t: RecipeTable, rs: seq<RecipePoint>)
    requires t.first in t.rows
  {
    exists i: nat :: Overtakes(t, rs, i)
  }

  /** The list was inserted, and the first recipe moved exactly when one of the list overtakes it. */
  ghost predicate Listed(t: RecipeTable, rs: seq<RecipePoint>, u: RecipeTable)
  {
    && EarliestFirst(t) && EarliestFirst(u) && u.order == t.order && u.rows.Keys == t.rows.Keys + RecipeIds(rs)
    && u.rows[t.first] == t.rows[t.first]
    && (u.first != t.first <==> SomeOvertakes(t, rs)) && (u.first != t.first ==> u.first in RecipeIds(rs))
  }

  /** Inserting a list moves the first recipe exactly when one of the list overtakes it. */
  lemma {:induction false} InsertAllMovesFirst(t: RecipeTable, rs: seq<RecipePoint>)
    requires EarliestFirst(t) && InsertRecipes(t, rs).Ok? && DistinctRecipes(rs)
    ensures Listed(t, rs, InsertRecipes(t, rs).value)
  {
    if rs == [] {
      assert forall i: nat :: !Overtakes(t, rs, i);
    } else {
      var n := |rs| - 1;
      InsertAllMovesFirst(t, rs[..n]);
      assert rs == rs[..n] + [rs[n]];
      OneMoreListed(t, rs[..n], rs[n], InsertRecipes(t, rs[..n]).value);
    }
  }

  lemma OneMoreListed(t: RecipeTable, rs: seq<RecipePoint>, r: RecipePoint, u: RecipeTable)
    requires Listed(t, rs, u) && InsertRecipe(u, r).Ok? && forall i :: 0 <= i < |rs| ==> rs[i].id != r.id
    ensures Listed(t, rs + [r], InsertRecipe(u, r).value)
  {
    RecipeIdsAppend(rs, r);
    assert r.id !in RecipeIds(rs);
    InsertKeepsEarliest(u, r);
    OneMoreOvertakes(t, rs, r);
  }

  lemma OneMoreOvertakes(t: RecipeTable, rs: seq<RecipePoint>, r: RecipePoint)
    requires t.first in t.rows
    ensures SomeOvertakes(t, rs + [r]) <==> SomeOvertakes(t, rs) || Overtakes(t, rs + [r], |rs|)
  {
    if i: nat :| Overtakes(t, rs + [r], i) {
      if i < |rs| {
        assert Overtakes(t, rs, i);
      }
    }
    if i: nat :| Overtakes(t, rs, i) {
      assert Overtakes(t, rs + [r], i);
    }
  }

  // ----- what a migration does to it -----

  /** The identity an observation gets in another space. */
  function NewId(space: Space, t: RecipeTable, shot: Shot): RecipeId
    requires shot.recipe in t.rows
  {
    RecipeId(space.version, QuantizeObserved(space, ObservedOf(t, shot)))
  }

  /** Shot i is the last one that a migration gives its new identity: its recipe's creation time is the one that is kept. */
  predicate Decides(space: Space, t: RecipeTable, shots: seq<Shot>, i: nat)
  {
    && i < |shots| && shots[i].recipe in t.rows
    && forall j :: i < j < |shots| ==> shots[j].recipe in t.rows && NewId(space, t, shots[j]) != NewId(space, t, shots[i])
  }

  /** The recipe a migration makes of shot i. */
  function Remade(space: Space, t: RecipeTable, shot: Shot): Result<RecipePoint>
    requires shot.recipe in t.rows
  {
    Observe(space, ObservedOf(t, shot), t.rows[shot.recipe].createdAt)
  }

  lemma {:induction false} PutReplaces(rs: seq<RecipePoint>, r: RecipePoint)
    requires DistinctRecipes(rs)
    ensures forall x :: x in Put(rs, r) <==> x == r || (x in rs && x.id != r.id)
  {
    if rs != [] {
      var init, last := rs[..|rs| - 1], rs[|rs| - 1];
      assert forall x :: x in rs <==> x in init || x == last;
      assert forall x :: x in init ==> x.id != last.id;
      PutReplaces(init, r);
      assert forall x :: x in init + [r] <==> x in init || x == r;
      assert forall x :: x in Put(init, r) + [last] <==> x in Put(init, r) || x == last;
    }
  }

  /** A migration lists exactly the recipes of the deciding shots. */
  lemma {:induction false} RebasedListed(space: Space, t: RecipeTable, shots: seq<Shot>, x: RecipePoint)
    requires RebaseShots(space, t, shots).Ok?
    ensures x in RebaseShots(space, t, shots).value.recipes <==>
      exists i: nat :: Decides(space, t, shots, i) && Remade(space, t, shots[i]) == Ok(x)
  {
    if shots == [] {
      assert forall i: nat :: !Decides(space, t, shots, i);
    } else {
      var n := |shots| - 1;
      var init := shots[..n];
      RebasedListed(space, t, init, x);
      RebasedShots(space, t, init);
      var r := Remade(space, t, shots[n]).value;
      PutReplaces(RebaseShots(space, t, init).value.recipes, r);
      DecidesLast(space, t, shots, n, x);
    }
  }

  lemma DecidesLast(space: Space, t: RecipeTable, shots: seq<Shot>, n: nat, x: RecipePoint)
    requires |shots| == n + 1 && shots[n].recipe in t.rows && Remade(space, t, shots[n]).Ok?
    ensures (exists i: nat :: Decides(space, t, shots, i) && Remade(space, t, shots[i]) == Ok(x)) <==>
      || x == Remade(space, t, shots[n]).value
      || (x.id != Remade(space, t, shots[n]).value.id
          && exists i: nat :: Decides(space, t, shots[..n], i) && Remade(space, t, shots[..n][i]) == Ok(x))
  {
    var r := Remade(space, t, shots[n]).value;
    if i: nat :| Decides(space, t, shots, i) && Remade(space, t, shots[i]) == Ok(x) {
      if i < n {
        assert Decides(space, t, shots[..n], i) && shots[..n][i] == shots[i];
        assert NewId(space, t, shots[n]) != NewId(space, t, shots[i]);
      }
    }
    if x == r {
      assert Decides(space, t, shots, n);
    } else if i: nat :| x.id != r.id && Decides(space, t, shots[..n], i) && Remade(space, t, shots[..n][i]) == Ok(x) {
      assert shots[..n][i] == shots[i];
      assert Decides(space, t, shots, i) by {
        forall j | i < j < |shots|
          ensures shots[j].recipe in t.rows && NewId(space, t, shots[j]) != NewId(space, t, shots[i])
        {
          if j < n {
            assert shots[..n][j] == shots[j];
          }
        }
      }
    }
  }

  /** What a migration makes of shot i is new, as old as the recipe listed first, and sorts before it. */
  predicate Usurps(l: Ledger, space: Space, i: nat)
    requires l.table.first in l.table.rows
  {
    && Decides(space, l.table, l.shots, i)
    && l.table.rows[l.shots[i].recipe].createdAt == l.table.rows[l.table.first].createdAt
    && NewId(space, l.table, l.shots[i]) !in l.table.rows
    && Precedes(l.table.order, NewId(space, l.table, l.shots[i]), l.table.first)
  }

  ghost predicate SomeUsurps(l: Ledger, space: Space)
    requires l.table.first in l.table.rows
  {
    exists i: nat :: Usurps(l, space, i)
  }

  lemma RemadeRow(space: Space, t: RecipeTable, shot: Shot, x: RecipePoint)
    requires shot.recipe in t.rows && Remade(space, t, shot) == Ok(x)
    ensures x.id == NewId(space, t, shot) && x.createdAt == t.rows[shot.recipe].createdAt
  {
  }

  lemma OvertakersUsurp(l: Ledger, space: Space)
    requires EarliestFirst(l.table) && RecipesStored(l) && RebaseShots(space, l.table, l.shots).Ok?
    requires SomeOvertakes(l.table, RebaseShots(space, l.table, l.shots).value.recipes)
    ensures SomeUsurps(l, space)
  {
    var rs := RebaseShots(space, l.table, l.shots).value.recipes;
    var j: nat :| Overtakes(l.table, rs, j);
    assert rs[j] in rs;
    RebasedListed(space, l.table, l.shots, rs[j]);
    var i: nat :| Decides(space, l.table, l.shots, i) && Remade(space, l.table, l.shots[i]) == Ok(rs[j]);
    RemadeRow(space, l.table, l.shots[i], rs[j]);
    assert Usurps(l, space, i);
  }

  lemma UsurpersOvertake(l: Ledger, space: Space)
    requires EarliestFirst(l.table) && RecipesStored(l) && RebaseShots(space, l.table, l.shots).Ok? && SomeUsurps(l, space)
    ensures SomeOvertakes(l.table, RebaseShots(space, l.table, l.shots).value.recipes)
  {
    var rs := RebaseShots(space, l.table, l.shots).value.recipes;
    var i: nat :| Usurps(l, space, i);
    RebasingRemakes(space, l.table, l.shots, i);
    var x := Remade(space, l.table, l.shots[i]).value;
    RemadeRow(space, l.table, l.shots[i], x);
    RebasedListed(space, l.table, l.shots, x);
    var j: nat :| j < |rs| && rs[j] == x;
    assert Overtakes(l.table, rs, j);
  }

  lemma RebasingRemakes(space: Space, t: RecipeTable, shots: seq<Shot>, i: nat)
    requires RebaseShots(space, t, shots).Ok? && i < |shots|
    ensures shots[i].recipe in t.rows && Remade(space, t, shots[i]).Ok?
  {
    RebasedAt(space, t, shots, i);
  }

  /** A migration changes which recipe is listed first exactly when a copy it makes usurps the place: a new recipe that is as old as the
      first one and whose identifier sorts before it. The new first recipe then is the new identity of some shot. */
  lemma MigrationMovesFirst(s: Settings, l: Ledger, mode: Mode, now: nat)
    requires Inv(l) && EarliestFirst(l.table) && MigrateRun(s, l, mode, now).Ok?
    ensures WithDomain(l.run.space, s.domain).Ok?
    ensures var m := MigrateRun(s, l, mode, now).value;
      && EarliestFirst(m.table) && m.table.order == l.table.order && m.run.space.version == s.domain
      && (m.table.first != l.table.first <==> SomeUsurps(l, WithDomain(l.run.space, s.domain).value))
      && (m.table.first != l.table.first ==> m.table.first.version == s.domain)
      && (m.table.first != l.table.first ==> SomeRenews(WithDomain(l.run.space, s.domain).value, l.table, l.shots, m.table.first))
  {
    var space, rebased, state := MigrationParts(s, l, mode, now);
    RebasedShots(space, l.table, l.shots);
    InsertAllMovesFirst(l.table, rebased.recipes);
    if SomeUsurps(l, space) {
      UsurpersOvertake(l, space);
    }
    if SomeOvertakes(l.table, rebased.recipes) {
      OvertakersUsurp(l, space);
    }
    var first := MigrateRun(s, l, mode, now).value.table.first;
    if first != l.table.first {
      RebasedId(space, l.table, l.shots, first);
    }
  }

  /** An identity that a migration gives shot i. */
  predicate Renews(space: Space, t: RecipeTable, shots: seq<Shot>, id: RecipeId, i: nat)
  {
    i < |shots| && shots[i].recipe in t.rows && id == NewId(space, t, shots[i])
  }

  ghost predicate SomeRenews(space: Space, t: RecipeTable, shots: seq<Shot>, id: RecipeId)
  {
    exists i: nat :: Renews(space, t, shots, id, i)
  }

  lemma RebasedId(space: Space, t: RecipeTable, shots: seq<Shot>, id: RecipeId)
    requires RebaseShots(space, t, shots).Ok? && id in RecipeIds(RebaseShots(space, t, shots).value.recipes)
    ensures SomeRenews(space, t, shots, id) && id.version == space.version
  {
    var x :| x in RebaseShots(space, t, shots).value.recipes && x.id == id;
    RebasedListed(space, t, shots, x);
    var i: nat :| Decides(space, t, shots, i) && Remade(space, t, shots[i]) == Ok(x);
    assert Renews(space, t, shots, id, i);
  }

  // ----- what a correction does to it -----

  /** The recipe of the corrected observation is new, as old as the recipe listed first, and sorts before it. */
  predicate CorrectionUsurps(l: Ledger, id: ShotId, observed: Triple)
    requires RecipesStored(l)
  {
    && HasShot(l.shots, id)
    && var recipe := FindShot(l.shots, id).value.recipe;
      var renewed := RecipeId(l.run.space.version, QuantizeObserved(l.run.space, observed));
      && recipe in l.table.rows && renewed !in l.table.rows
      && l.table.rows[recipe].createdAt == l.table.rows[l.table.first].createdAt && Precedes(l.table.order, renewed, l.table.first)
  }

  lemma CorrectionMovesFirst(s: Settings, l: Ledger, id: ShotId, controls: Controls, notes: map<nat, nat>, now: nat)
    requires Inv(l) && EarliestFirst(l.table) && CorrectShot(s, l, id, controls, notes, now).Ok?
    ensures var m := CorrectShot(s, l, id, controls, notes, now).value.0;
      && EarliestFirst(m.table) && m.table.order == l.table.order && m.run == l.run
      && (m.table.first != l.table.first <==> CorrectionUsurps(l, id, controls.recipe))
      && (m.table.first != l.table.first ==> m.table.first.version == l.run.space.version)
  {
    CorrectFrame(s, l, id, controls, notes, now);
    var i, recipe := CorrectionParts(s, l, id, controls, notes, now);
    InsertKeepsEarliest(l.table, recipe);
  }

  lemma MeetingStaysEarliest(s: Settings, l: Ledger, mode: Option<Mode>, now: nat)
    requires Inv(l) && EarliestFirst(l.table) && CompatibleRun(s, l, mode, now).Ok?
    ensures EarliestFirst(CompatibleRun(s, l, mode, now).value.table)
  {
    MeetFrame(s, l, mode, now);
    if FitOf(s, l, mode).Migrated? {
      MigrationMovesFirst(s, l, if mode.Some? then mode.value else l.run.mode, now);
    }
  }

  lemma StepStaysEarliest(x: Session, e: Event)
    requires Inv(x.ledger) && Allowed(x, e) && EarliestFirst(x.ledger.table)
    ensures EarliestFirst(Step(x, e).ledger.table)
  {
    var s, l := x.settings, x.ledger;
    if Attempt(s, l, e).Ok? {
      match e
      case Suggest(p, now) =>
        SuggestionParts(s, l, p, now);
        if l.state.pendingRecipe.None? {
          InsertKeepsEarliest(l.table, SuggestNext(s, l, p, now).value.1.recipe);
        }
      case Report(r, deviate, now) =>
        RecordedParts(l, r, deviate, now);
        InsertKeepsEarliest(l.table, CanonicalRecipe(l.run, r.controls, now).value);
      case Abstain(n, a, now) => AbstainFrame(l, n, a, now);
      case Prefer(j, id, now) => JudgeFrame(s, l, j, id, now);
      case Reopen(control, now) => ResumeFrame(s, l, control, now);
      case Correct(id, controls, notes, now) => CorrectionMovesFirst(s, l, id, controls, notes, now);
      case Exclude(id, now) => ExcludeFrame(s, l, id, now);
      case Configure(_) =>
      case Meet(mode, now) => MeetingStaysEarliest(s, l, mode, now);
    }
  }

  // ----- when a run can have a baseline -----

  predicate Unfounded(l: Ledger) { Baseline(l.shots).None? }

  /** The run lies in other limits than the recipe listed first. */
  predicate Away(l: Ledger) { l.table.first.version != l.run.space.version }

  lemma {:induction false} UnusedShotId(shots: seq<Shot>) returns (id: ShotId)
    ensures forall k :: k in shots ==> k.id < id
  {
    id := 0;
    if shots != [] {
      var n := |shots| - 1;
      var before := UnusedShotId(shots[..n]);
      id := before + shots[n].id + 1;
      assert forall k :: k in shots ==> k in shots[..n] || k == shots[n];
    }
  }

  /** Some shot could be recorded now. */
  ghost predicate TakesShots(l: Ledger)
  {
    exists r: ShotReport, deviate, now :: RecordShot(l, r, deviate, now).Ok?
  }

  /** A run without a valid shot can get one exactly when the recipe listed first belongs to its limits and is one it could propose
      itself, on the grid and within the physical envelope. */
  lemma BaselineCondition(l: Ledger)
    requires Inv(l) && Canonical(l) && Unfounded(l)
    ensures TakesShots(l) <==>
      !Away(l) && QuantizeRecipe(l.run.space, l.table.first.controls) == Ok(l.table.first.controls) && GrindInEnvelope(l.table.first.controls)
  {
    if r: ShotReport, deviate, now :| RecordShot(l, r, deviate, now).Ok? {
      RecordCondition(l, r, deviate, now);
      QuantizeRecipeProjects(l.run.space, r.controls.recipe);
    }
    var q := l.table.first.controls;
    if !Away(l) && QuantizeRecipe(l.run.space, q) == Ok(q) && GrindInEnvelope(q) {
      var id := UnusedShotId(l.shots);
      var r := ShotReport(id, Controls(q, l.run.space.higherIsFiner), Valid, map[]);
      assert !HasShot(l.shots, id);
      RecordCondition(l, r, false, 0);
      assert RecordShot(l, r, false, 0).Ok?;
    }
  }

  lemma NothingToSuggest(s: Settings, l: Ledger, p: Option<Engine.Proposal>, now: nat)
    requires Inv(l) && Unfounded(l)
    ensures SuggestNext(s, l, p, now).Err?
  {
    ValidationAccepts(l);
  }

  /** Without a valid shot, a run in other limits than its first recipe refuses every shot. */
  lemma AwayRefusesShots(l: Ledger, r: ShotReport, deviate: bool, now: nat)
    requires Unfounded(l) && Away(l)
    ensures RecordShot(l, r, deviate, now).Err?
  {
    if RecordShot(l, r, deviate, now).Ok? {
      CreateIsCanonical(l.run.space, r.controls.recipe, now);
    }
  }

  lemma StillUnfounded(l: Ledger, m: Ledger)
    requires Unfounded(l) && |m.shots| == |l.shots|
    requires forall i :: 0 <= i < |l.shots| && m.shots[i].status.Valid? ==> l.shots[i].status.Valid?
    ensures Unfounded(m)
  {
    BaselineAt(l.shots);
    BaselineAt(m.shots);
  }

  /** The limits change, and are then those of the first recipe: they already were its limits, or a copy usurps the first place. */
  ghost predicate MeetsHome(s: Settings, l: Ledger, mode: Option<Mode>)
    requires RecipesStored(l)
  {
    && FitOf(s, l, mode).Migrated? && WithDomain(l.run.space, s.domain).Ok?
    && (l.table.first.version == s.domain || SomeUsurps(l, WithDomain(l.run.space, s.domain).value))
  }

  /** The use cases that bring the limits of a run and its first recipe together: a correction or a migration whose recipe usurps the first
      place, and a migration to the limits of the first recipe. */
  ghost predicate ComesHome(s: Settings, l: Ledger, e: Event)
    requires RecipesStored(l)
  {
    && Attempt(s, l, e).Ok?
    && match e
       case Correct(id, controls, _, _) => CorrectionUsurps(l, id, controls.recipe)
       case Meet(mode, _) => MeetsHome(s, l, mode)
       case _ => false
  }

  lemma MigrationComesHome(s: Settings, l: Ledger, mode: Mode, now: nat)
    requires Inv(l) && EarliestFirst(l.table) && Away(l) && MigrateRun(s, l, mode, now).Ok?
    ensures WithDomain(l.run.space, s.domain).Ok?
    ensures Away(MigrateRun(s, l, mode, now).value) <==>
      l.table.first.version != s.domain && !SomeUsurps(l, WithDomain(l.run.space, s.domain).value)
  {
    MigrationMovesFirst(s, l, mode, now);
  }

  lemma MeetingComesHome(s: Settings, l: Ledger, mode: Option<Mode>, now: nat)
    requires Inv(l) && EarliestFirst(l.table) && Unfounded(l) && Away(l) && CompatibleRun(s, l, mode, now).Ok?
    ensures var m := CompatibleRun(s, l, mode, now).value; Unfounded(m) && (Away(m) <==> !MeetsHome(s, l, mode))
  {
    var m := CompatibleRun(s, l, mode, now).value;
    MeetFrame(s, l, mode, now);
    StillUnfounded(l, m);
    if FitOf(s, l, mode).Migrated? {
      var desired := if mode.Some? then mode.value else l.run.mode;
      assert MigrateRun(s, l, desired, now) == Ok(m);
      MigrationComesHome(s, l, desired, now);
    }
  }

  lemma CorrectionComesHome(s: Settings, l: Ledger, id: ShotId, controls: Controls, notes: map<nat, nat>, now: nat)
    requires Inv(l) && EarliestFirst(l.table) && Unfounded(l) && Away(l) && CorrectShot(s, l, id, controls, notes, now).Ok?
    ensures var m := CorrectShot(s, l, id, controls, notes, now).value.0; Unfounded(m) && (Away(m) <==> !CorrectionUsurps(l, id, controls.recipe))
  {
    CorrectFrame(s, l, id, controls, notes, now);
    CorrectionMovesFirst(s, l, id, controls, notes, now);
    StillUnfounded(l, CorrectShot(s, l, id, controls, notes, now).value.0);
  }

  lemma ExclusionStaysAway(s: Settings, l: Ledger, id: ShotId, now: nat)
    requires Inv(l) && Unfounded(l) && Away(l) && ExcludeShot(s, l, id, now).Ok?
    ensures Unfounded(ExcludeShot(s, l, id, now).value) && Away(ExcludeShot(s, l, id, now).value)
  {
    ExcludeFrame(s, l, id, now);
    if !FindShot(l.shots, id).value.status.Excluded? {
      var i, rows := ExclusionParts(s, l, id, now);
      StillUnfounded(l, ExcludeShot(s, l, id, now).value);
    }
  }

  lemma AbstentionStaysAway(l: Ledger, n: ShotId, anchor: ShotId, now: nat)
    requires Inv(l) && Unfounded(l) && Away(l) && RecordAbstention(l, n, anchor, now).Ok?
    ensures Unfounded(RecordAbstention(l, n, anchor, now).value) && Away(RecordAbstention(l, n, anchor, now).value)
  {
    AbstainFrame(l, n, anchor, now);
    StillUnfounded(l, RecordAbstention(l, n, anchor, now).value);
  }

  /** Such a run stays without a valid shot, and away exactly until a step brings it home. */
  lemma StepStaysAway(x: Session, e: Event)
    requires Inv(x.ledger) && Allowed(x, e) && EarliestFirst(x.ledger.table) && Unfounded(x.ledger) && Away(x.ledger)
    ensures Unfounded(Step(x, e).ledger) && (Away(Step(x, e).ledger) <==> !ComesHome(x.settings, x.ledger, e))
  {
    var s, l := x.settings, x.ledger;
    if Attempt(s, l, e).Ok? {
      match e
      case Suggest(p, now) => NothingToSuggest(s, l, p, now);
      case Report(r, deviate, now) => AwayRefusesShots(l, r, deviate, now);
      case Abstain(n, a, now) => AbstentionStaysAway(l, n, a, now);
      case Prefer(j, id, now) => JudgeFrame(s, l, j, id, now);
      case Reopen(control, now) => ResumeFrame(s, l, control, now);
      case Correct(id, controls, notes, now) => CorrectionComesHome(s, l, id, controls, notes, now);
      case Exclude(id, now) => ExclusionStaysAway(s, l, id, now);
      case Configure(_) =>
      case Meet(mode, now) => MeetingComesHome(s, l, mode, now);
    }
  }

  /** No event of the sequence brings the run home. */
  ghost predicate NeverHome(x: Session, es: seq<Event>)
  {
    es != [] ==>
      && NeverHome(x, es[..|es| - 1])
      && var y := Play(x, es[..|es| - 1]);
      RecipesStored(y.ledger) && !ComesHome(y.settings, y.ledger, es[|es| - 1])
  }

  /** A run that lost its last valid shot in other limits than those of its first recipe never gets another one, whatever happens,
      before it comes home. */
  lemma {:induction false} NoBaselineAwayFromHome(x: Session, es: seq<Event>)
    requires Inv(x.ledger) && EarliestFirst(x.ledger.table) && Unfounded(x.ledger) && Away(x.ledger) && AllAllowed(x, es) && NeverHome(x, es)
    ensures var l := Play(x, es).ledger; Inv(l) && EarliestFirst(l.table) && Unfounded(l) && Away(l) && !TakesShots(l)
  {
    if es != [] {
      var y := Play(x, es[..|es| - 1]);
      NoBaselineAwayFromHome(x, es[..|es| - 1]);
      StepKeepsInv(y, es[|es| - 1]);
      StepStaysEarliest(y, es[|es| - 1]);
      StepStaysAway(y, es[|es| - 1]);
    }
    forall r: ShotReport, deviate, now
      ensures RecordShot(Play(x, es).ledger, r, deviate, now).Err?
    {
      AwayRefusesShots(Play(x, es).ledger, r, deviate, now);
    }
  }
}
