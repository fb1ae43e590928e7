/** The repository object: rows of one run, changed by transactions that commit completely or not at all. */
module Repositories {
  import opened Prelude
  import opened RecipeSpace
  import opened Cpbo
  import opened History
  import opened Ledgers

  /** The outcome of a transaction: the rows the specification names, or a refusal and the old rows. */
  predicate Applied(before: Ledger, spec: Result<Ledger>, after: Ledger, r: Result<()>)
  {
    match spec
    case Ok(m) => r == Ok(()) && after == m
    case Err(e) => r == Err(e) && after == before
  }

  class Repository {
    var run: Run
    var table: RecipeTable
    var shots: seq<Shot>
    var comparisons: seq<Comparison>
    var suggestions: seq<SuggestionRow>
    var state: OptimizerState

    /** All rows as one value. */
    function Contents(): Ledger
      reads this
    {
      Ledger(run, table, shots, comparisons, suggestions, state)
    }

    constructor (newRun: Run, baseline: RecipePoint, newState: OptimizerState)
      ensures Contents() == Ledgers.CreateRun(newRun, baseline, newState)
    {
      run := newRun;
      table := RecipeTable(map[baseline.id := baseline], baseline.id, newRun.id.order);
      shots, comparisons, suggestions := [], [], [];
      state := newState;
    }

    method Deactivate()
      modifies this
      ensures Contents() == Ledgers.Deactivate(old(Contents()))
    {
      run := run.(active := false);
    }

    method SaveState(newState: OptimizerState, expected: nat) returns (r: Result<()>)
      modifies this
      ensures Applied(old(Contents()), Ledgers.SaveState(old(Contents()), newState, expected), Contents(), r)
    {
      if !run.active || state.updatedAt != expected {
        return Err(Stale);
      }
      state := newState;
      return Ok(());
    }

    method SaveSuggestion(s: Suggestion, newState: OptimizerState) returns (r: Result<()>)
      modifies this
      ensures Applied(old(Contents()), Ledgers.SaveSuggestion(old(Contents()), s, newState), Contents(), r)
    {
      if newState.pendingRecipe != Some(s.recipe.id) || newState.pendingAnchor != Some(s.anchor) {
        return Err(SuggestionMismatch);
      }
      if PendingSuggestion(suggestions).Some? {
        return Err(SuggestionOpen);
      }
      var inserted := InsertRecipe(table, s.recipe);
      if inserted.Err? {
        return Err(inserted.why);
      }
      if exists i :: 0 <= i < |suggestions| && suggestions[i].suggestion.id == s.id {
        return Err(DuplicateRow);
      }
      table := inserted.value;
      suggestions := suggestions + [SuggestionRow(s, Pending)];
      state := newState;
      return Ok(());
    }

    method SaveShot(recipe: RecipePoint, shot: Shot, newState: OptimizerState) returns (r: Result<()>)
      modifies this
      ensures Applied(old(Contents()), Ledgers.SaveShot(old(Contents()), recipe, shot, newState), Contents(), r)
    {
      if recipe.id != shot.recipe {
        return Err(RecipeMismatch);
      }
      var inserted := InsertRecipe(table, recipe);
      if inserted.Err? {
        return Err(inserted.why);
      }
      if exists i :: 0 <= i < |shots| && (shots[i].id == shot.id || shots[i].sequence == shot.sequence) {
        return Err(DuplicateRow);
      }
      var pending := Latest(suggestions, {Pending});
      if pending.Some? {
        var status := if shot.status.Valid? then AwaitingPreference else InvalidShot;
        suggestions := suggestions[pending.value := suggestions[pending.value].(status := status)];
      } else if newState.pendingShot.Some? {
        return Err(Refusal.SuggestionMissing);
      }
      table := inserted.value;
      shots := shots + [shot];
      state := newState;
      return Ok(());
    }

    method SaveComparison(c: Comparison, newState: OptimizerState) returns (r: Result<()>)
      modifies this
      ensures Applied(old(Contents()), Ledgers.SaveComparison(old(Contents()), c, newState), Contents(), r)
    {
      if exists i :: 0 <= i < |comparisons| && (comparisons[i].id == c.id || comparisons[i].newShot == c.newShot) {
        return Err(DuplicateRow);
      }
      if !HasShot(shots, c.newShot) {
        return Err(UnknownShot);
      }
      var awaiting := Latest(suggestions, {AwaitingPreference});
      if awaiting.None? {
        return Err(Refusal.SuggestionMissing);
      }
      comparisons := InsertByKey(comparisons, c);
      suggestions := suggestions[awaiting.value := suggestions[awaiting.value].(status := Resolved)];
      state := newState;
      return Ok(());
    }

    method ReplaceShot(recipe: RecipePoint, shot: Shot, newState: OptimizerState, invalidate: bool) returns (r: Result<()>)
      modifies this
      ensures Applied(old(Contents()), Ledgers.ReplaceShot(old(Contents()), recipe, shot, newState, invalidate), Contents(), r)
    {
      if recipe.id != shot.recipe {
        return Err(RecipeMismatch);
      }
      if invalidate && newState.pendingRecipe.Some? {
        return Err(WorkPending);
      }
      if !HasShot(shots, shot.id) {
        return Err(UnknownShot);
      }
      var inserted := InsertRecipe(table, recipe);
      if inserted.Err? {
        return Err(inserted.why);
      }
      table := inserted.value;
      shots := Substitute(shots, shot);
      if invalidate {
        suggestions := Supersede(suggestions);
      }
      state := newState;
      return Ok(());
    }

    method ReplaceHistory(shot: Shot, cs: seq<Comparison>, newState: OptimizerState) returns (r: Result<()>)
      modifies this
      ensures Applied(old(Contents()), Ledgers.ReplaceHistory(old(Contents()), shot, cs, newState), Contents(), r)
    {
      if !shot.status.Excluded? || exists i :: 0 <= i < |cs| && cs[i].run != run.id {
        return Err(SpansRuns);
      }
      if !HasShot(shots, shot.id) {
        return Err(UnknownShot);
      }
      if !DistinctRows(cs) {
        return Err(DuplicateRow);
      }
      shots := Substitute(shots, shot);
      comparisons := [];
      var i := 0;
      while i < |cs|
        invariant 0 <= i <= |cs|
        invariant Contents() == old(Contents()).(shots := Substitute(old(shots), shot), comparisons := InsertAllByKey(cs[..i]))
      {
        comparisons := InsertByKey(comparisons, cs[i]);
        assert cs[..i + 1][..i] == cs[..i];
        i := i + 1;
      }
      assert cs[..i] == cs;
      suggestions := Supersede(suggestions);
      state := newState;
      return Ok(());
    }

    method UpdateConfiguration(newRun: Run, newState: OptimizerState) returns (r: Result<()>)
      modifies this
      ensures Applied(old(Contents()), Ledgers.UpdateConfiguration(old(Contents()), newRun, newState), Contents(), r)
    {
      if !newRun.active || !run.active {
        return Err(NotActive);
      }
      if newState.pendingRecipe.Some? || newState.pendingShot.Some? {
        return Err(WorkPending);
      }
      run := newRun;
      suggestions := Supersede(suggestions);
      state := newState;
      return Ok(());
    }

    /** Inserts recipes one by one without committing them. */
    method InsertAll(recipes: seq<RecipePoint>) returns (r: Result<RecipeTable>)
      ensures r == InsertRecipes(table, recipes)
    {
      var t := table;
      var i := 0;
      while i < |recipes|
        invariant 0 <= i <= |recipes|
        invariant InsertRecipes(table, recipes[..i]) == Ok(t)
      {
        var inserted := InsertRecipe(t, recipes[i]);
        assert recipes[..i + 1][..i] == recipes[..i];
        if inserted.Err? {
          InsertFails(table, recipes, i + 1);
          return inserted;
        }
        t := inserted.value;
        i := i + 1;
      }
      assert recipes[..i] == recipes;
      return Ok(t);
    }

    /** Replaces shots one by one without committing them. */
    method ReplaceAll(replacements: seq<Shot>) returns (rows: seq<Shot>)
      ensures rows == SubstituteAll(shots, replacements)
    {
      rows := shots;
      var i := 0;
      while i < |replacements|
        invariant 0 <= i <= |replacements|
        invariant rows == SubstituteAll(shots, replacements[..i])
      {
        rows := Substitute(rows, replacements[i]);
        assert replacements[..i + 1][..i] == replacements[..i];
        i := i + 1;
      }
      assert replacements[..i] == replacements;
    }

    /** The checks before a migration writes anything. */
    method CheckMigration(newRun: Run, recipes: seq<RecipePoint>, replacements: seq<Shot>, newState: OptimizerState) returns (r: Result<()>)
      ensures r == Ledgers.CheckMigration(Contents(), newRun, recipes, replacements, newState)
    {
      if !newRun.active || !run.active {
        return Err(NotActive);
      }
      if newState.pendingRecipe.Some? || newState.pendingShot.Some? {
        return Err(WorkPending);
      }
      if exists i, j :: 0 <= i < j < |recipes| && recipes[i].id == recipes[j].id {
        return Err(DuplicateRow);
      }
      if exists i, j :: 0 <= i < j < |replacements| && replacements[i].id == replacements[j].id {
        return Err(DuplicateRow);
      }
      if replacements == [] {
        return Err(NoShots);
      }
      if exists i :: 0 <= i < |replacements| && forall j :: 0 <= j < |recipes| ==> recipes[j].id != replacements[i].recipe {
        return Err(MissingRecipe);
      }
      if |replacements| != |shots| || exists i :: 0 <= i < |shots| && !HasShot(replacements, shots[i].id) {
        return Err(UnknownShot);
      }
      return Ok(());
    }

    method Migrate(newRun: Run, recipes: seq<RecipePoint>, replacements: seq<Shot>, newState: OptimizerState) returns (r: Result<()>)
      modifies this
      ensures Applied(old(Contents()), Ledgers.Migrate(old(Contents()), newRun, recipes, replacements, newState), Contents(), r)
    {
      r := CheckMigration(newRun, recipes, replacements, newState);
      if r.Err? {
        return;
      }
      var inserted := InsertAll(recipes);
      if inserted.Err? {
        return Err(inserted.why);
      }
      var rows := ReplaceAll(replacements);
      run := newRun;
      table := inserted.value;
      shots := rows;
      suggestions := Supersede(suggestions);
      state := newState;
      return Ok(());
    }
  }

  /** A failed insertion makes the whole list fail in the same way. */
  lemma {:induction false} InsertFails(t: RecipeTable, rs: seq<RecipePoint>, n: nat)
    requires n <= |rs| && InsertRecipes(t, rs[..n]).Err?
    ensures InsertRecipes(t, rs) == InsertRecipes(t, rs[..n])
    decreases |rs| - n
  {
    if n == |rs| {
      assert rs[..n] == rs;
    } else {
      assert rs[..n + 1][..n] == rs[..n];
      InsertFails(t, rs, n + 1);
    }
  }
}
