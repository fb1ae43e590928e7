/** What the repository keeps on its own, whatever it is asked to write: its guards alone, without the service above it. */
module Integrity {
  import opened Prelude
  import opened RecipeSpace
  import opened Cpbo
  import opened History
  import opened Ledgers
  import opened Invariants

  /** The transactions of the repository, with any arguments. */
  datatype Write =
    | Suggesting(suggestion: Suggestion, state: OptimizerState)
    | Shooting(recipe: RecipePoint, shot: Shot, state: OptimizerState)
    | Comparing(comparison: Comparison, state: OptimizerState)
    | Replacing(recipe: RecipePoint, shot: Shot, state: OptimizerState, invalidate: bool)
    | Excluding(shot: Shot, comparisons: seq<Comparison>, state: OptimizerState)
    | Reconfiguring(run: Run, state: OptimizerState)
    | Migrating(run: Run, recipes: seq<RecipePoint>, shots: seq<Shot>, state: OptimizerState)
    | Saving(state: OptimizerState, expected: nat)
    | Deactivating

  function Commit(l: Ledger, w: Write): Result<Ledger>
  {
    match w
    case Suggesting(s, state) => SaveSuggestion(l, s, state)
    case Shooting(recipe, shot, state) => SaveShot(l, recipe, shot, state)
    case Comparing(c, state) => SaveComparison(l, c, state)
    case Replacing(recipe, shot, state, invalidate) => ReplaceShot(l, recipe, shot, state, invalidate)
    case Excluding(shot, cs, state) => ReplaceHistory(l, shot, cs, state)
    case Reconfiguring(run, state) => UpdateConfiguration(l, run, state)
    case Migrating(run, recipes, shots, state) => Migrate(l, run, recipes, shots, state)
    case Saving(state, expected) => SaveState(l, state, expected)
    case Deactivating => Ok(Deactivate(l))
  }

  predicate DistinctSuggestions(rows: seq<SuggestionRow>) { forall i, j :: 0 <= i < j < |rows| ==> rows[i].suggestion.id != rows[j].suggestion.id }

  predicate OneOpenAtMost(rows: seq<SuggestionRow>) { forall i, j :: 0 <= i < j < |rows| ==> !(Open(rows[i].status) && Open(rows[j].status)) }

  /** Rows refer to stored rows, nothing is stored twice, and one suggestion at most is open. */
  predicate Intact(l: Ledger)
  {
    && RecipesStored(l) && DistinctShots(l.shots) && DistinctRows(l.comparisons)
    && DistinctSuggestions(l.suggestions) && OneOpenAtMost(l.suggestions)
  }

  /** Recipes and shots are never lost, and a run that was retired stays so; only retiring it does that. */
  predicate Builds(l: Ledger, w: Write, m: Ledger)
  {
    && (forall k :: k in l.table.rows ==> k in m.table.rows && m.table.rows[k] == l.table.rows[k])
    && |l.shots| <= |m.shots| && (forall i :: 0 <= i < |l.shots| ==> m.shots[i].id == l.shots[i].id)
    && m.run.active == (l.run.active && !w.Deactivating?)
  }

  /** An exclusion keeps the shot's recipe, which the repository does not look at. */
  predicate Fits(l: Ledger, w: Write) { w.Excluding? ==> w.shot.recipe in l.table.rows }

  lemma SupersededStays(rows: seq<SuggestionRow>)
    requires DistinctSuggestions(rows) && OneOpenAtMost(rows)
    ensures DistinctSuggestions(Supersede(rows)) && OneOpenAtMost(Supersede(rows))
  {
  }

  lemma SuggestingStays(l: Ledger, s: Suggestion, state: OptimizerState)
    requires Intact(l) && SaveSuggestion(l, s, state).Ok?
    ensures Intact(SaveSuggestion(l, s, state).value) && Builds(l, Suggesting(s, state), SaveSuggestion(l, s, state).value)
  {
    InsertedRecipe(l.table, s.recipe);
    forall i | 0 <= i < |l.suggestions|
      ensures !Open(l.suggestions[i].status)
    {
      assert l.suggestions[i].status !in UNRESOLVED;
    }
  }

  lemma ShootingStays(l: Ledger, recipe: RecipePoint, shot: Shot, state: OptimizerState)
    requires Intact(l) && SaveShot(l, recipe, shot, state).Ok?
    ensures var m := SaveShot(l, recipe, shot, state).value;
      && Intact(m) && Builds(l, Shooting(recipe, shot, state), m)
      && forall i :: 0 <= i < |l.shots| ==> m.shots[i].sequence != shot.sequence
  {
    InsertedRecipe(l.table, recipe);
  }

  lemma {:induction false} InsertDistinct(cs: seq<Comparison>, c: Comparison)
    requires DistinctRows(cs) && forall i :: 0 <= i < |cs| ==> cs[i].id != c.id && cs[i].newShot != c.newShot
    ensures DistinctRows(InsertByKey(cs, c))
    ensures forall x :: x in InsertByKey(cs, c) <==> x in cs || x == c
  {
    if cs != [] && !Before(cs[|cs| - 1], c) {
      var init, last := cs[..|cs| - 1], cs[|cs| - 1];
      InsertDistinct(init, c);
      assert forall x :: x in cs <==> x in init || x == last;
      LastDistinct(InsertByKey(init, c), last);
    }
  }

  lemma LastDistinct(cs: seq<Comparison>, c: Comparison)
    requires DistinctRows(cs) && forall x :: x in cs ==> x.id != c.id && x.newShot != c.newShot
    ensures DistinctRows(cs + [c])
  {
    forall i | 0 <= i < |cs|
      ensures cs[i].id != c.id && cs[i].newShot != c.newShot
    {
      assert cs[i] in cs;
    }
  }

  lemma ComparingStays(l: Ledger, c: Comparison, state: OptimizerState)
    requires Intact(l) && SaveComparison(l, c, state).Ok?
    ensures Intact(SaveComparison(l, c, state).value) && Builds(l, Comparing(c, state), SaveComparison(l, c, state).value)
    ensures HasShot(l.shots, c.newShot)
  {
    InsertDistinct(l.comparisons, c);
  }

  lemma ReplacingStays(l: Ledger, recipe: RecipePoint, shot: Shot, state: OptimizerState, invalidate: bool)
    requires Intact(l) && ReplaceShot(l, recipe, shot, state, invalidate).Ok?
    ensures var m := ReplaceShot(l, recipe, shot, state, invalidate).value;
      Intact(m) && Builds(l, Replacing(recipe, shot, state, invalidate), m) && (invalidate ==> m.state.pendingRecipe.None?)
  {
    InsertedRecipe(l.table, recipe);
    SupersededStays(l.suggestions);
  }

  lemma {:induction false} InsertAllDistinct(cs: seq<Comparison>)
    requires DistinctRows(cs)
    ensures DistinctRows(InsertAllByKey(cs))
    ensures forall x :: x in InsertAllByKey(cs) <==> x in cs
  {
    if cs != [] {
      var init, last := cs[..|cs| - 1], cs[|cs| - 1];
      InsertAllDistinct(init);
      assert forall x :: x in cs <==> x in init || x == last;
      var all := InsertAllByKey(init);
      forall i | 0 <= i < |all|
        ensures all[i].id != last.id && all[i].newShot != last.newShot
      {
        assert all[i] in init;
        var j :| 0 <= j < |init| && init[j] == all[i];
        assert cs[j] == all[i];
      }
      InsertDistinct(all, last);
    }
  }

  lemma ExcludingStays(l: Ledger, shot: Shot, cs: seq<Comparison>, state: OptimizerState)
    requires Intact(l) && shot.recipe in l.table.rows && ReplaceHistory(l, shot, cs, state).Ok?
    ensures var m := ReplaceHistory(l, shot, cs, state).value;
      && Intact(m) && Builds(l, Excluding(shot, cs, state), m)
      && (forall x :: x in m.comparisons ==> x.run == l.run.id) && FindShot(m.shots, shot.id) == Some(shot) && shot.status == Excluded
  {
    InsertAllDistinct(cs);
    SupersededStays(l.suggestions);
    forall x | x in InsertAllByKey(cs)
      ensures x.run == l.run.id
    {
      var i :| 0 <= i < |cs| && cs[i] == x;
    }
    SubstituteFinds(l.shots, shot);
  }

  lemma SubstituteFinds(shots: seq<Shot>, shot: Shot)
    requires HasShot(shots, shot.id)
    ensures FindShot(Substitute(shots, shot), shot.id) == Some(shot)
  {
    var i :| 0 <= i < |shots| && shots[i].id == shot.id;
    assert Substitute(shots, shot)[i].id == shot.id;
    var k := FoundShot(Substitute(shots, shot), shot.id);
  }

  /** Every stored shot has become one of its replacements. */
  lemma {:induction false} AllSubstituted(shots: seq<Shot>, rs: seq<Shot>)
    ensures var all := SubstituteAll(shots, rs);
      && |all| == |shots|
      && forall i :: 0 <= i < |shots| ==> all[i].id == shots[i].id && (HasShot(rs, shots[i].id) ==> all[i] in rs)
  {
    if rs != [] {
      var init, last := rs[..|rs| - 1], rs[|rs| - 1];
      AllSubstituted(shots, init);
      var before := SubstituteAll(shots, init);
      forall i | 0 <= i < |shots| && HasShot(rs, shots[i].id)
        ensures SubstituteAll(shots, rs)[i] in rs
      {
        if before[i].id != last.id {
          var j :| 0 <= j < |rs| && rs[j].id == shots[i].id;
          assert j < |init| && init[j].id == shots[i].id;
          assert before[i] in init;
        }
      }
    }
  }

  lemma MigratingStays(l: Ledger, run: Run, recipes: seq<RecipePoint>, shots: seq<Shot>, state: OptimizerState)
    requires Intact(l) && Migrate(l, run, recipes, shots, state).Ok?
    ensures var m := Migrate(l, run, recipes, shots, state).value;
      Intact(m) && Builds(l, Migrating(run, recipes, shots, state), m) && m.state.pendingRecipe.None? && m.state.pendingShot.None?
  {
    var m := Migrate(l, run, recipes, shots, state).value;
    InsertedRecipes(l.table, recipes);
    AllSubstituted(l.shots, shots);
    SupersededStays(l.suggestions);
    forall i | 0 <= i < |m.shots|
      ensures m.shots[i].recipe in m.table.rows
    {
      assert m.shots[i] in shots;
      var k :| 0 <= k < |shots| && shots[k] == m.shots[i];
      var j :| 0 <= j < |recipes| && recipes[j].id == shots[k].recipe;
    }
  }

  lemma ReconfiguringStays(l: Ledger, run: Run, state: OptimizerState)
    requires Intact(l) && UpdateConfiguration(l, run, state).Ok?
    ensures Intact(UpdateConfiguration(l, run, state).value) && Builds(l, Reconfiguring(run, state), UpdateConfiguration(l, run, state).value)
  {
    SupersededStays(l.suggestions);
  }

  /** A transaction that commits keeps the rows intact, whatever its arguments. */
  lemma CommitStaysIntact(l: Ledger, w: Write)
    requires Intact(l) && Fits(l, w) && Commit(l, w).Ok?
    ensures Intact(Commit(l, w).value) && Builds(l, w, Commit(l, w).value)
  {
    match w
    case Suggesting(s, state) => SuggestingStays(l, s, state);
    case Shooting(recipe, shot, state) => ShootingStays(l, recipe, shot, state);
    case Comparing(c, state) => ComparingStays(l, c, state);
    case Replacing(recipe, shot, state, invalidate) => ReplacingStays(l, recipe, shot, state, invalidate);
    case Excluding(shot, cs, state) => ExcludingStays(l, shot, cs, state);
    case Reconfiguring(run, state) => ReconfiguringStays(l, run, state);
    case Migrating(run, recipes, shots, state) => MigratingStays(l, run, recipes, shots, state);
    case Saving(_, _) =>
    case Deactivating =>
  }

  /** Of two writers that read the same state, the second is refused once the first has saved at another time. */
  lemma SecondWriterIsRefused(l: Ledger, first: OptimizerState, second: OptimizerState)
    requires l.run.active && first.updatedAt != l.state.updatedAt
    ensures SaveState(l, first, l.state.updatedAt) == Ok(l.(state := first))
    ensures SaveState(l.(state := first), second, l.state.updatedAt) == Err(Stale)
  {
  }

  // ----- any sequence of transactions -----

  /** A transaction that raises leaves every row as it was. */
  function CommitAll(l: Ledger, ws: seq<Write>): Ledger
  {
    if ws == [] then l
    else
      var before := CommitAll(l, ws[..|ws| - 1]);
      var r := Commit(before, ws[|ws| - 1]);
      if r.Ok? then r.value else before
  }

  predicate AllFit(l: Ledger, ws: seq<Write>)
  {
    ws != [] ==> AllFit(l, ws[..|ws| - 1]) && Fits(CommitAll(l, ws[..|ws| - 1]), ws[|ws| - 1])
  }

  /** From the creation of a run on, whatever the repository is asked to write: every shot has a stored recipe, nothing is stored twice and
      one suggestion at most is open. */
  lemma {:induction false} EveryRepositoryIsIntact(run: Run, baseline: RecipePoint, state: OptimizerState, ws: seq<Write>)
    requires AllFit(CreateRun(run, baseline, state), ws)
    ensures Intact(CommitAll(CreateRun(run, baseline, state), ws))
  {
    var l := CreateRun(run, baseline, state);
    if ws != [] {
      EveryRepositoryIsIntact(run, baseline, state, ws[..|ws| - 1]);
      var before := CommitAll(l, ws[..|ws| - 1]);
      if Commit(before, ws[|ws| - 1]).Ok? {
        CommitStaysIntact(before, ws[|ws| - 1]);
      }
    }
  }
}
