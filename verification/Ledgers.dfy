/** The rows the repository keeps for one run, and the effect of each transaction on them.
    A transaction that raises leaves every row as it was, so each effect is a result. */
module Ledgers {
  import opened Prelude
  import opened RecipeSpace
  import opened Cpbo
  import opened History

  /** Recipe rows, the one that is listed first, and how their identifiers sort. */
  datatype RecipeTable = RecipeTable(rows: RecipeRows, first: RecipeId, order: Order)

  /** Recipes are listed by creation time, then identifier. */
  predicate ListedBefore(order: Order, a: RecipePoint, b: RecipePoint)
  {
    a.createdAt < b.createdAt || (a.createdAt == b.createdAt && Precedes(order, a.id, b.id))
  }

  datatype SuggestionRow = SuggestionRow(suggestion: Suggestion, status: SuggestionStatus)

  datatype Ledger = Ledger(
    run: Run, table: RecipeTable, shots: seq<Shot>, comparisons: seq<Comparison>,
    suggestions: seq<SuggestionRow>, state: OptimizerState)

  predicate Open(s: SuggestionStatus) { s.Pending? || s.AwaitingPreference? }

  function InsertRecipe(t: RecipeTable, r: RecipePoint): Result<RecipeTable>
  {
    if r.id in t.rows then
      if t.rows[r.id].(createdAt := r.createdAt) == r then Ok(t) else Err(RecipeCollision)
    else
      var first := if t.first !in t.rows || ListedBefore(t.order, r, t.rows[t.first]) then r.id else t.first;
      Ok(RecipeTable(t.rows[r.id := r], first, t.order))
  }

  function InsertRecipes(t: RecipeTable, rs: seq<RecipePoint>): Result<RecipeTable>
  {
    if rs == [] then Ok(t)
    else
      var u :- InsertRecipes(t, rs[..|rs| - 1]);
      InsertRecipe(u, rs[|rs| - 1])
  }

  predicate Newer(a: Suggestion, b: Suggestion)
  {
    a.createdAt > b.createdAt || (a.createdAt == b.createdAt && a.id > b.id)
  }

  /** Index of the newest row with one of the wanted statuses. */
  function Latest(rows: seq<SuggestionRow>, wanted: set<SuggestionStatus>): (r: Option<nat>)
    ensures r.Some? ==> r.value < |rows| && rows[r.value].status in wanted
    ensures r.None? ==> forall i :: 0 <= i < |rows| ==> rows[i].status !in wanted
  {
    if rows == [] then None
    else
      var n := |rows| - 1;
      var earlier := Latest(rows[..n], wanted);
      if rows[n].status !in wanted then earlier
      else if earlier.Some? && Newer(rows[earlier.value].suggestion, rows[n].suggestion) then earlier
      else Some(n)
  }

  const UNRESOLVED := {Pending, AwaitingPreference}

  function PendingSuggestion(rows: seq<SuggestionRow>): Option<Suggestion>
  {
    var i := Latest(rows, UNRESOLVED);
    if i.Some? then Some(rows[i.value].suggestion) else None
  }

  function Supersede(rows: seq<SuggestionRow>): seq<SuggestionRow>
  {
    seq(|rows|, i requires 0 <= i < |rows| => if Open(rows[i].status) then rows[i].(status := Superseded) else rows[i])
  }

  /** UPDATE of the row with the identifier of s. */
  function Substitute(shots: seq<Shot>, s: Shot): seq<Shot>
  {
    seq(|shots|, i requires 0 <= i < |shots| => if shots[i].id == s.id then s else shots[i])
  }

  predicate HasShot(shots: seq<Shot>, id: ShotId) { exists i :: 0 <= i < |shots| && shots[i].id == id }

  function FindShot(shots: seq<Shot>, id: ShotId): (r: Option<Shot>)
    ensures r.Some? <==> HasShot(shots, id)
    ensures r.Some? ==> r.value in shots && r.value.id == id
  {
    if shots == [] then None
    else if shots[|shots| - 1].id == id then Some(shots[|shots| - 1])
    else FindShot(shots[..|shots| - 1], id)
  }

  /** Comparison rows are listed by key, whatever the order of insertion. */
  function InsertByKey(cs: seq<Comparison>, c: Comparison): seq<Comparison>
  {
    if cs == [] || Before(cs[|cs| - 1], c) then cs + [c]
    else InsertByKey(cs[..|cs| - 1], c) + [cs[|cs| - 1]]
  }

  function InsertAllByKey(cs: seq<Comparison>): seq<Comparison>
  {
    if cs == [] then [] else InsertByKey(InsertAllByKey(cs[..|cs| - 1]), cs[|cs| - 1])
  }

  predicate DistinctRows(cs: seq<Comparison>)
  {
    forall i, j :: 0 <= i < j < |cs| ==> cs[i].id != cs[j].id && cs[i].newShot != cs[j].newShot
  }

  predicate NoPending(s: OptimizerState) { s.pendingRecipe.None? && s.pendingAnchor.None? && s.pendingShot.None? }

  // ----- transactions -----

  function CreateRun(run: Run, baseline: RecipePoint, state: OptimizerState): Ledger
  {
    Ledger(run, RecipeTable(map[baseline.id := baseline], baseline.id, run.id.order), [], [], [], state)
  }

  function Deactivate(l: Ledger): Ledger { l.(run := l.run.(active := false)) }

  function SaveSuggestion(l: Ledger, s: Suggestion, state: OptimizerState): Result<Ledger>
  {
    var _ :- Need(state.pendingRecipe == Some(s.recipe.id) && state.pendingAnchor == Some(s.anchor), SuggestionMismatch);
    var _ :- Need(PendingSuggestion(l.suggestions).None?, SuggestionOpen);
    var table :- InsertRecipe(l.table, s.recipe);
    var _ :- Need(forall i :: 0 <= i < |l.suggestions| ==> l.suggestions[i].suggestion.id != s.id, DuplicateRow);
    Ok(l.(table := table, suggestions := l.suggestions + [SuggestionRow(s, Pending)], state := state))
  }

  function SaveShot(l: Ledger, recipe: RecipePoint, shot: Shot, state: OptimizerState): Result<Ledger>
  {
    var _ :- Need(recipe.id == shot.recipe, RecipeMismatch);
    var table :- InsertRecipe(l.table, recipe);
    var _ :- Need(forall i :: 0 <= i < |l.shots| ==> l.shots[i].id != shot.id && l.shots[i].sequence != shot.sequence, DuplicateRow);
    var i := Latest(l.suggestions, {Pending});
    var _ :- Need(i.Some? || state.pendingShot.None?, SuggestionMissing);
    var rows := if i.None? then l.suggestions
                else l.suggestions[i.value := l.suggestions[i.value].(status := if shot.status.Valid? then AwaitingPreference else InvalidShot)];
    Ok(l.(table := table, shots := l.shots + [shot], suggestions := rows, state := state))
  }

  function SaveComparison(l: Ledger, c: Comparison, state: OptimizerState): Result<Ledger>
  {
    var _ :- Need(forall i :: 0 <= i < |l.comparisons| ==> l.comparisons[i].id != c.id && l.comparisons[i].newShot != c.newShot, DuplicateRow);
    var _ :- Need(HasShot(l.shots, c.newShot), UnknownShot);
    var i := Latest(l.suggestions, {AwaitingPreference});
    var _ :- Need(i.Some?, SuggestionMissing);
    Ok(l.(comparisons := InsertByKey(l.comparisons, c),
          suggestions := l.suggestions[i.value := l.suggestions[i.value].(status := Resolved)], state := state))
  }

  function ReplaceShot(l: Ledger, recipe: RecipePoint, shot: Shot, state: OptimizerState, invalidate: bool): Result<Ledger>
  {
    var _ :- Need(recipe.id == shot.recipe, RecipeMismatch);
    var _ :- Need(invalidate ==> state.pendingRecipe.None?, WorkPending);
    var _ :- Need(HasShot(l.shots, shot.id), UnknownShot);
    var table :- InsertRecipe(l.table, recipe);
    Ok(l.(table := table, shots := Substitute(l.shots, shot),
          suggestions := if invalidate then Supersede(l.suggestions) else l.suggestions, state := state))
  }

  function ReplaceHistory(l: Ledger, shot: Shot, cs: seq<Comparison>, state: OptimizerState): Result<Ledger>
  {
    var _ :- Need(shot.status.Excluded? && forall i :: 0 <= i < |cs| ==> cs[i].run == l.run.id, SpansRuns);
    var _ :- Need(HasShot(l.shots, shot.id), UnknownShot);
    var _ :- Need(DistinctRows(cs), DuplicateRow);
    Ok(l.(shots := Substitute(l.shots, shot), comparisons := InsertAllByKey(cs), suggestions := Supersede(l.suggestions), state := state))
  }

  function UpdateConfiguration(l: Ledger, run: Run, state: OptimizerState): Result<Ledger>
  {
    var _ :- Need(run.active && l.run.active, NotActive);
    var _ :- Need(state.pendingRecipe.None? && state.pendingShot.None?, WorkPending);
    Ok(l.(run := run, suggestions := Supersede(l.suggestions), state := state))
  }

  predicate DistinctRecipes(rs: seq<RecipePoint>) { forall i, j :: 0 <= i < j < |rs| ==> rs[i].id != rs[j].id }

  predicate DistinctShots(shots: seq<Shot>) { forall i, j :: 0 <= i < j < |shots| ==> shots[i].id != shots[j].id }

  /** Every shot's recipe is among the listed ones. */
  predicate RecipesListed(shots: seq<Shot>, rs: seq<RecipePoint>)
  {
    forall i :: 0 <= i < |shots| ==> exists j :: 0 <= j < |rs| && rs[j].id == shots[i].recipe
  }

  predicate Covers(replacements: seq<Shot>, shots: seq<Shot>)
  {
    |replacements| == |shots| && forall i :: 0 <= i < |shots| ==> HasShot(replacements, shots[i].id)
  }

  /** What the repository demands of a migration before it writes anything. */
  function CheckMigration(l: Ledger, run: Run, recipes: seq<RecipePoint>, shots: seq<Shot>, state: OptimizerState): Result<()>
  {
    var _ :- Need(run.active && l.run.active, NotActive);
    var _ :- Need(state.pendingRecipe.None? && state.pendingShot.None?, WorkPending);
    var _ :- Need(DistinctRecipes(recipes) && DistinctShots(shots), DuplicateRow);
    var _ :- Need(shots != [], NoShots);
    var _ :- Need(RecipesListed(shots, recipes), MissingRecipe);
    Need(Covers(shots, l.shots), UnknownShot)
  }

  function Migrate(l: Ledger, run: Run, recipes: seq<RecipePoint>, shots: seq<Shot>, state: OptimizerState): Result<Ledger>
  {
    var _ :- CheckMigration(l, run, recipes, shots, state);
    var table :- InsertRecipes(l.table, recipes);
    Ok(l.(run := run, table := table, suggestions := Supersede(l.suggestions), state := state,
          shots := SubstituteAll(l.shots, shots)))
  }

  function SubstituteAll(shots: seq<Shot>, replacements: seq<Shot>): seq<Shot>
  {
    if replacements == [] then shots
    else Substitute(SubstituteAll(shots, replacements[..|replacements| - 1]), replacements[|replacements| - 1])
  }

  function SaveState(l: Ledger, state: OptimizerState, expected: nat): Result<Ledger>
  {
    var _ :- Need(l.run.active && l.state.updatedAt == expected, Stale);
    Ok(l.(state := state))
  }
}
