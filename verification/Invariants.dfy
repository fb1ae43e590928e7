/** What holds of the rows of every run, whatever was done to it, and that each use case keeps it. */
module Invariants {
  import opened Prelude
  import opened RecipeSpace
  import opened RecipeLaws
  import opened Cpbo
  import opened TrustRegions
  import opened History
  import opened HistoryLaws
  import opened ReplayLaws
  import opened Ledgers
  import opened Service
  import Engine

  predicate RecipesStored(l: Ledger)
  {
    && l.table.first in l.table.rows
    && (forall k :: k in l.table.rows ==> l.table.rows[k].id == k)
    && (forall i :: 0 <= i < |l.shots| ==> l.shots[i].recipe in l.table.rows)
  }

  predicate Sorted(cs: seq<Comparison>) { forall i, j :: 0 <= i < j < |cs| ==> Before(cs[i], cs[j]) }

  /** The stored comparisons are one legal chain and the state names its head. */
  predicate Chained(l: Ledger)
  {
    match Baseline(l.shots)
    case None =>
      && l.comparisons == [] && l.state.previous.None? && l.state.incumbent.None?
      && l.state.region.transitions == [] && !l.state.region.locallyConverged
    case Some(base) =>
      && LegalChain(l.run.id, Ranks(l.shots), base, l.comparisons)
      && l.state.previous == Some(HeadAfter(base, l.comparisons).previous)
      && l.state.incumbent == Some(HeadAfter(base, l.comparisons).incumbent)
  }

  predicate IsOpen(l: Ledger, i: nat) { i < |l.suggestions| && Open(l.suggestions[i].status) }

  /** Suggestion rows and pending fields tell the same story. */
  ghost predicate SuggestionsAgree(l: Ledger)
  {
    && (forall i: nat, j: nat :: IsOpen(l, i) && IsOpen(l, j) ==> i == j)
    && (l.state.pendingRecipe.Some? <==> exists i: nat :: IsOpen(l, i))
    && (l.state.pendingRecipe.Some? <==> l.state.pendingAnchor.Some?)
    && (l.state.pendingShot.Some? ==> l.state.pendingRecipe.Some?)
    && (forall i: nat :: IsOpen(l, i) ==>
          && l.state.pendingRecipe == Some(l.suggestions[i].suggestion.recipe.id)
          && l.state.pendingAnchor == Some(l.suggestions[i].suggestion.anchor)
          && (l.state.pendingShot.Some? <==> l.suggestions[i].status.AwaitingPreference?)
          && l.suggestions[i].suggestion.mode == l.run.mode)
  }

  /** An open suggestion is anchored as its mode demands, and an awaited shot may be compared with its anchor. */
  predicate PendingFits(l: Ledger)
  {
    l.state.pendingRecipe.Some? && l.state.pendingAnchor.Some? ==>
      && Baseline(l.shots).Some?
      && l.state.pendingAnchor.value == Expected(HeadAfter(Baseline(l.shots).value, l.comparisons), l.run.mode)
      && (l.state.pendingShot.Some? ==>
            && l.state.pendingShot.value in Ranks(l.shots) && l.state.pendingAnchor.value in Ranks(l.shots)
            && Ranks(l.shots)[l.state.pendingAnchor.value] < Ranks(l.shots)[l.state.pendingShot.value]
            && l.state.pendingShot.value !in Compared(l.comparisons))
  }

  /** An abstained shot is neither compared nor awaited. */
  predicate AbstainedApart(l: Ledger)
  {
    forall i :: 0 <= i < |l.shots| && l.shots[i].abstention.Some? ==>
      l.shots[i].id !in Compared(l.comparisons) && l.state.pendingShot != Some(l.shots[i].id)
  }

  ghost predicate Inv(l: Ledger)
  {
    && ShotRows(l.shots)
    && RecipesStored(l)
    && Sorted(l.comparisons) && DistinctIds(l.comparisons)
    && Chained(l)
    && SuggestionsAgree(l)
    && PendingFits(l)
    && AbstainedApart(l)
    && l.run.configuration == l.state.configuration
  }

  // ----- rows -----

  lemma FoundShot(shots: seq<Shot>, id: ShotId) returns (i: nat)
    requires FindShot(shots, id).Some?
    ensures i < |shots| && shots[i] == FindShot(shots, id).value && shots[i].id == id
  {
    i :| 0 <= i < |shots| && shots[i] == FindShot(shots, id).value;
  }

  lemma UniqueShot(shots: seq<Shot>, i: nat)
    requires ShotRows(shots) && i < |shots|
    ensures FindShot(shots, shots[i].id) == Some(shots[i])
  {
    var j := FoundShot(shots, shots[i].id);
  }

  lemma InsertedRecipe(t: RecipeTable, r: RecipePoint)
    requires InsertRecipe(t, r).Ok?
    ensures var u := InsertRecipe(t, r).value;
      && r.id in u.rows && u.rows[r.id].position == r.position
      && (forall k :: k in t.rows ==> k in u.rows && u.rows[k] == t.rows[k])
      && (forall k :: k in u.rows ==> k in t.rows || (k == r.id && u.rows[k] == r))
      && (t.first in t.rows ==> u.first in u.rows)
  {
  }

  lemma InsertAfterAll(cs: seq<Comparison>, c: Comparison)
    requires forall i :: 0 <= i < |cs| ==> Before(cs[i], c)
    ensures InsertByKey(cs, c) == cs + [c]
  {
  }

  lemma {:induction false} InsertAllSorted(cs: seq<Comparison>)
    requires Sorted(cs)
    ensures InsertAllByKey(cs) == cs
  {
    if cs != [] {
      InsertAllSorted(cs[..|cs| - 1]);
      InsertAfterAll(cs[..|cs| - 1], cs[|cs| - 1]);
    }
  }

  lemma ClosedBySupersede(rows: seq<SuggestionRow>)
    ensures |Supersede(rows)| == |rows| && forall i :: 0 <= i < |rows| ==> !Open(Supersede(rows)[i].status)
  {
  }

  // ----- creation -----

  lemma InitializeEstablishes(s: Settings, id: RunId, mode: Mode, baseline: Controls, steps: Resolutions, now: nat)
    requires Initialize(s, id, mode, baseline, steps, now).Ok?
    ensures Inv(Initialize(s, id, mode, baseline, steps, now).value)
  {
  }

  // ----- suggest -----

  /** How the rows change when a new suggestion is saved. */
  predicate SuggestionAppended(l: Ledger, m: Ledger, made: Engine.Computation, now: nat)
  {
    && NoPending(l.state) && PendingSuggestion(l.suggestions).None?
    && Baseline(l.shots).Some? && !(l.run.mode.BestIncumbent? && l.state.region.locallyConverged)
    && (if l.run.mode.GlobalPrevious? then l.state.previous else l.state.incumbent) == Some(made.suggestion.anchor)
    && made.suggestion.mode == l.run.mode
    && InsertRecipe(l.table, made.suggestion.recipe) == Ok(m.table)
    && m == l.(table := m.table, suggestions := l.suggestions + [SuggestionRow(made.suggestion, Pending)],
               state := StateWithSuggestion(l.state, made, now))
  }

  lemma SuggestionParts(s: Settings, l: Ledger, p: Option<Engine.Proposal>, now: nat)
    requires Inv(l) && SuggestNext(s, l, p, now).Ok?
    ensures var (m, x) := SuggestNext(s, l, p, now).value;
      if l.state.pendingRecipe.Some? then m == l && PendingSuggestion(l.suggestions) == Some(x)
      else
        var made := Engine.Suggest(s.configuration, l, p, now);
        made.Ok? && SuggestionAppended(l, m, made.value, now) && x == made.value.suggestion && Create(l.run.space, p.value.controls, now) == Ok(x.recipe)
  {
  }

  lemma SuggestKeeps(s: Settings, l: Ledger, p: Option<Engine.Proposal>, now: nat)
    requires Inv(l) && SuggestNext(s, l, p, now).Ok?
    ensures Inv(SuggestNext(s, l, p, now).value.0)
  {
    SuggestionParts(s, l, p, now);
    if l.state.pendingRecipe.None? {
      SuggestedKeeps(l, SuggestNext(s, l, p, now).value.0, Engine.Suggest(s.configuration, l, p, now).value, now);
    }
  }

  lemma SuggestedKeeps(l: Ledger, m: Ledger, made: Engine.Computation, now: nat)
    requires Inv(l) && SuggestionAppended(l, m, made, now)
    ensures Inv(m)
  {
    InsertedRecipe(l.table, made.suggestion.recipe);
    NoOpenRow(l);
    var n := |l.suggestions|;
    assert forall i: nat :: i < n ==> m.suggestions[i] == l.suggestions[i];
    assert forall i: nat :: i < n && IsOpen(m, i) ==> IsOpen(l, i);
    assert IsOpen(m, n);
  }

  // ----- record shot -----

  /** How the rows change when a shot is recorded. */
  predicate ShotAppended(l: Ledger, m: Ledger, shot: Shot, recipe: RecipePoint, now: nat)
  {
    && m.run == l.run && m.comparisons == l.comparisons && m.shots == l.shots + [shot]
    && InsertRecipe(l.table, recipe) == Ok(m.table) && shot.recipe == recipe.id
    && shot.sequence == |l.shots| + 1 && shot.abstention.None? && shot.observed == Some(recipe.controls)
    && (forall i :: 0 <= i < |l.shots| ==> l.shots[i].id != shot.id)
    && m.state == StateWithShot(l.state, Baseline(l.shots).Some?, shot, recipe, now)
    && (Baseline(l.shots).Some? ==> l.state.pendingRecipe.Some? && l.state.pendingShot.None?)
    && m.suggestions ==
         var i := Latest(l.suggestions, {Pending});
         if i.None? then l.suggestions
         else l.suggestions[i.value := l.suggestions[i.value].(status := if shot.status.Valid? then AwaitingPreference else InvalidShot)]
  }

  lemma RecordedParts(l: Ledger, r: ShotReport, deviate: bool, now: nat)
    requires RecordShot(l, r, deviate, now).Ok?
    ensures CanonicalRecipe(l.run, r.controls, now).Ok?
    ensures var (m, shot) := RecordShot(l, r, deviate, now).value;
      ShotAppended(l, m, shot, CanonicalRecipe(l.run, r.controls, now).value, now) && shot.id == r.id && shot.status == r.status
  {
  }

  ghost predicate NothingOpen(l: Ledger) { NoPending(l.state) && forall i: nat :: !IsOpen(l, i) }

  /** Recording a shot keeps the invariants. A valid shot becomes the baseline or awaits its comparison; any other closes the suggestion. */
  lemma ShotKeeps(l: Ledger, r: ShotReport, deviate: bool, now: nat)
    requires Inv(l) && RecordShot(l, r, deviate, now).Ok?
    ensures Inv(RecordShot(l, r, deviate, now).value.0)
    ensures var (m, shot) := RecordShot(l, r, deviate, now).value;
      && m.shots == l.shots + [shot] && m.comparisons == l.comparisons
      && (!r.status.Valid? ==> NothingOpen(m) && m.state.previous == l.state.previous && m.state.incumbent == l.state.incumbent)
      && (r.status.Valid? && Baseline(l.shots).Some? ==>
            m.state.pendingShot == Some(r.id) && exists k: nat :: IsOpen(m, k) && m.suggestions[k].status.AwaitingPreference?)
      && (r.status.Valid? && Baseline(l.shots).None? ==> NothingOpen(m) && m.state.previous == Some(r.id) && m.state.incumbent == Some(r.id))
  {
    RecordedParts(l, r, deviate, now);
    var (m, shot) := RecordShot(l, r, deviate, now).value;
    AppendedKeeps(l, m, shot, CanonicalRecipe(l.run, r.controls, now).value, now);
    AppendedOpens(l, m, shot, CanonicalRecipe(l.run, r.controls, now).value, now);
  }

  lemma AppendedOpens(l: Ledger, m: Ledger, shot: Shot, recipe: RecipePoint, now: nat)
    requires Inv(l) && Inv(m) && ShotAppended(l, m, shot, recipe, now)
    ensures !shot.status.Valid? || Baseline(l.shots).None? ==> NothingOpen(m)
    ensures shot.status.Valid? && Baseline(l.shots).Some? ==> exists k: nat :: IsOpen(m, k) && m.suggestions[k].status.AwaitingPreference?
  {
    if shot.status.Valid? && Baseline(l.shots).Some? {
      var k := OpenRow(m);
    } else {
      NoOpenRow(m);
    }
  }

  lemma AppendedKeeps(l: Ledger, m: Ledger, shot: Shot, recipe: RecipePoint, now: nat)
    requires Inv(l) && ShotAppended(l, m, shot, recipe, now)
    ensures Inv(m)
  {
    InsertedRecipe(l.table, recipe);
    AppendedRows(l, m, shot);
    AppendedChain(l, m, shot);
    AppendedSuggestions(l, m, shot, recipe, now);
    AppendedPending(l, m, shot, recipe, now);
  }

  lemma AppendedRows(l: Ledger, m: Ledger, shot: Shot)
    requires ShotRows(l.shots) && RecipesStored(l) && AbstainedApart(l)
    requires m.shots == l.shots + [shot] && m.comparisons == l.comparisons && shot.recipe in m.table.rows
    requires shot.sequence == |l.shots| + 1 && shot.abstention.None? && forall i :: 0 <= i < |l.shots| ==> l.shots[i].id != shot.id
    requires m.state.pendingShot in {None, Some(shot.id), l.state.pendingShot}
    requires m.table.first in m.table.rows
    requires forall k :: k in l.table.rows ==> k in m.table.rows
    requires forall k :: k in m.table.rows ==> m.table.rows[k].id == k
    ensures ShotRows(m.shots) && RecipesStored(m) && AbstainedApart(m)
  {
    assert forall i :: 0 <= i < |l.shots| ==> m.shots[i] == l.shots[i];
  }

  lemma MoreRanks(l: Ledger, shot: Shot)
    requires ShotRows(l.shots) && ShotRows(l.shots + [shot])
    ensures forall k :: k in Ranks(l.shots) ==> k in Ranks(l.shots + [shot]) && Ranks(l.shots + [shot])[k] == Ranks(l.shots)[k]
    ensures forall k :: k in Ranks(l.shots) ==> Ranks(l.shots)[k] <= |l.shots|
    ensures shot.id !in Ranks(l.shots)
    ensures shot.id in Ranks(l.shots + [shot]) <==> shot.status.Valid?
    ensures shot.status.Valid? ==> Ranks(l.shots + [shot])[shot.id] == |l.shots| + 1
  {
    AppendShot(l.shots, shot);
    ValidShots(l.shots);
    ValidShots(l.shots + [shot]);
    assert (l.shots + [shot])[|l.shots|] == shot;
    forall k | k in Ranks(l.shots)
      ensures k != shot.id
    {
      var i :| 0 <= i < |l.shots| && l.shots[i].id == k && l.shots[i].status.Valid?;
      assert (l.shots + [shot])[i] == l.shots[i];
    }
  }

  lemma AppendedChain(l: Ledger, m: Ledger, shot: Shot)
    requires ShotRows(l.shots) && ShotRows(m.shots) && Chained(l)
    requires m.shots == l.shots + [shot] && m.comparisons == l.comparisons && m.run.id == l.run.id
    requires Baseline(l.shots).Some? || !shot.status.Valid? ==> m.state.previous == l.state.previous && m.state.incumbent == l.state.incumbent
    requires Baseline(l.shots).None? && shot.status.Valid? ==> m.state.previous == Some(shot.id) && m.state.incumbent == Some(shot.id)
    requires Baseline(l.shots).None? ==> m.state.region.transitions == [] && !m.state.region.locallyConverged
    ensures Chained(m)
  {
    AppendShot(l.shots, shot);
    MoreRanks(l, shot);
    if Baseline(l.shots).Some? {
      ChainSurvivesMoreShots(l.run.id, Ranks(l.shots), Ranks(m.shots), Baseline(l.shots).value, l.comparisons);
    }
  }

  /** The open row of a run, if its pending fields are set. */
  lemma OpenRow(l: Ledger) returns (k: nat)
    requires SuggestionsAgree(l) && l.state.pendingRecipe.Some?
    ensures IsOpen(l, k) && forall i: nat :: IsOpen(l, i) ==> i == k
    ensures l.state.pendingShot.None? ==> l.suggestions[k].status.Pending? && Latest(l.suggestions, {Pending}) == Some(k)
    ensures l.state.pendingShot.Some? ==>
      l.suggestions[k].status.AwaitingPreference? && Latest(l.suggestions, {AwaitingPreference}) == Some(k) && Latest(l.suggestions, {Pending}) == None
    ensures PendingSuggestion(l.suggestions) == Some(l.suggestions[k].suggestion)
  {
    k :| IsOpen(l, k);
    var p, a, u := Latest(l.suggestions, {Pending}), Latest(l.suggestions, {AwaitingPreference}), Latest(l.suggestions, UNRESOLVED);
    assert p.Some? ==> IsOpen(l, p.value);
    assert a.Some? ==> IsOpen(l, a.value);
    assert u.Some? ==> IsOpen(l, u.value);
  }

  lemma NoOpenRow(l: Ledger)
    requires SuggestionsAgree(l) && l.state.pendingRecipe.None?
    ensures forall i: nat :: !IsOpen(l, i)
    ensures PendingSuggestion(l.suggestions) == None && Latest(l.suggestions, {Pending}) == None && Latest(l.suggestions, {AwaitingPreference}) == None
  {
    assert forall i :: 0 <= i < |l.suggestions| ==> !IsOpen(l, i);
  }

  lemma AppendedSuggestions(l: Ledger, m: Ledger, shot: Shot, recipe: RecipePoint, now: nat)
    requires Inv(l) && ShotAppended(l, m, shot, recipe, now)
    ensures SuggestionsAgree(m)
  {
    if Baseline(l.shots).Some? {
      var k := OpenRow(l);
      assert m.suggestions == l.suggestions[k := m.suggestions[k]];
      assert forall i: nat :: IsOpen(m, i) ==> IsOpen(l, i);
      assert shot.status.Valid? <==> IsOpen(m, k);
    } else {
      NoOpenRow(l);
      assert forall i: nat :: !IsOpen(m, i);
    }
  }

  lemma AppendedPending(l: Ledger, m: Ledger, shot: Shot, recipe: RecipePoint, now: nat)
    requires Inv(l) && ShotRows(m.shots) && ShotAppended(l, m, shot, recipe, now)
    ensures PendingFits(m)
  {
    AppendShot(l.shots, shot);
    MoreRanks(l, shot);
    if Baseline(l.shots).Some? && shot.status.Valid? {
      var base := Baseline(l.shots).value;
      BaselineIsFirst(l.shots);
      ChainIsValid(l.run.id, Ranks(l.shots), base, l.comparisons);
      assert l.state.pendingAnchor.value in Ranks(l.shots);
    }
  }

  // ----- shared shapes of the other steps -----

  lemma SubstituteKeepsOutline(shots: seq<Shot>, i: nat, s: Shot)
    requires ShotRows(shots) && i < |shots|
    requires s.id == shots[i].id && s.sequence == shots[i].sequence
    ensures Substitute(shots, s) == shots[i := s] && ShotRows(Substitute(shots, s))
    ensures s.status == shots[i].status ==> SameOutline(shots, Substitute(shots, s))
  {
    assert forall j :: 0 <= j < |shots| && shots[j].id == s.id ==> j == i;
    assert Substitute(shots, s) == shots[i := s];
  }

  /** Rewriting recipes, observations or notes keeps the chain, as long as the head stays. */
  lemma RewrittenChain(l: Ledger, m: Ledger)
    requires Chained(l) && SameOutline(l.shots, m.shots)
    requires m.comparisons == l.comparisons && m.run.id == l.run.id
    requires m.state.previous == l.state.previous && m.state.incumbent == l.state.incumbent
    requires Baseline(l.shots).None? ==> m.state.region.transitions == [] && !m.state.region.locallyConverged
    ensures Chained(m)
  {
    OutlineDecides(l.shots, m.shots);
  }

  lemma ClosedAgrees(m: Ledger)
    requires NoPending(m.state) && forall i: nat :: !IsOpen(m, i)
    ensures SuggestionsAgree(m) && PendingFits(m)
  {
  }

  // ----- abstain -----

  /** An abstention keeps the invariants; a new one is written on the awaited shot and leaves nothing open. */
  lemma AbstentionKeeps(l: Ledger, newShot: ShotId, anchor: ShotId, now: nat)
    requires Inv(l) && RecordAbstention(l, newShot, anchor, now).Ok?
    ensures Inv(RecordAbstention(l, newShot, anchor, now).value)
    ensures HasShot(l.shots, newShot)
    ensures var m := RecordAbstention(l, newShot, anchor, now).value;
      if FindShot(l.shots, newShot).value.abstention.Some? then m == l
      else
        && l.state.pendingShot == Some(newShot) && NothingOpen(m) && m.comparisons == l.comparisons
        && FindShot(m.shots, newShot) == Some(FindShot(l.shots, newShot).value.(abstention := Some(Abstention(anchor, now))))
  {
    var m := RecordAbstention(l, newShot, anchor, now).value;
    var i := AbstentionParts(l, newShot, anchor, now);
    if l.shots[i].abstention.None? {
      AbstainedRewrite(l, m, i, l.shots[i].(abstention := Some(Abstention(anchor, now))), now);
      UniqueShot(m.shots, i);
    }
  }

  lemma AbstentionParts(l: Ledger, newShot: ShotId, anchor: ShotId, now: nat) returns (i: nat)
    requires Inv(l) && RecordAbstention(l, newShot, anchor, now).Ok?
    ensures i < |l.shots| && l.shots[i].id == newShot && FindShot(l.shots, newShot) == Some(l.shots[i])
    ensures RecordAbstention(l, newShot, anchor, now).value ==
      if l.shots[i].abstention.Some? then l
      else l.(shots := l.shots[i := l.shots[i].(abstention := Some(Abstention(anchor, now)))],
              suggestions := Supersede(l.suggestions), state := ClearPending(l.state).(updatedAt := now))
    ensures l.shots[i].abstention.None? ==> l.state.pendingShot == Some(newShot)
  {
    i := FoundShot(l.shots, newShot);
    SubstituteKeepsOutline(l.shots, i, l.shots[i].(abstention := Some(Abstention(anchor, now))));
  }

  lemma AbstainedRewrite(l: Ledger, m: Ledger, i: nat, shot: Shot, now: nat)
    requires Inv(l) && i < |l.shots| && l.state.pendingShot == Some(l.shots[i].id)
    requires shot == l.shots[i].(abstention := shot.abstention)
    requires m == l.(table := m.table, shots := l.shots[i := shot], suggestions := Supersede(l.suggestions), state := ClearPending(l.state).(updatedAt := now))
    requires m.table == l.table
    ensures Inv(m) && NothingOpen(m)
  {
    SubstituteKeepsOutline(l.shots, i, shot);
    ClosedBySupersede(l.suggestions);
    ClosedAgrees(m);
    RewrittenChain(l, m);
  }

  // ----- prefer -----

  /** The key under which a comparison is stored follows every stored key. */
  predicate KeyFollows(l: Ledger, id: ComparisonId, now: nat)
  {
    forall i :: 0 <= i < |l.comparisons| ==>
      l.comparisons[i].createdAt < now || (l.comparisons[i].createdAt == now && l.comparisons[i].id < id)
  }

  /** How the rows change when a comparison is recorded. */
  predicate ComparisonAppended(s: Settings, l: Ledger, m: Ledger, c: Comparison, k: nat, now: nat)
  {
    && IsOpen(l, k)
    && l.state.pendingShot == Some(c.newShot) && l.state.pendingAnchor == Some(c.anchor)
    && c.mode == l.run.mode && c.run == l.run.id && c.createdAt == now
    && (forall i :: 0 <= i < |l.comparisons| ==> l.comparisons[i].id != c.id)
    && HasShot(l.shots, c.newShot) && FindShot(l.shots, c.newShot).value.recipe in l.table.rows
    && StateWithComparison(s, l.state, c, l.table.rows[FindShot(l.shots, c.newShot).value.recipe].position, now) == Ok(m.state)
    && m == l.(comparisons := l.comparisons + [c], suggestions := l.suggestions[k := l.suggestions[k].(status := Resolved)], state := m.state)
  }

  lemma PreferenceParts(s: Settings, l: Ledger, j: Judgement, id: ComparisonId, now: nat) returns (c: Comparison, k: nat)
    requires SuggestionsAgree(l) && KeyFollows(l, id, now) && RecordPreference(s, l, j, id, now).Ok? && l.state.pendingShot == Some(j.newShot)
    ensures c == Comparison(id, l.run.id, j.newShot, j.anchor, j.preference, l.run.mode, now)
    ensures ComparisonAppended(s, l, RecordPreference(s, l, j, id, now).value, c, k, now)
    ensures forall i :: 0 <= i < |l.comparisons| ==> l.comparisons[i].newShot != c.newShot
  {
    k := OpenRow(l);
    c := Comparison(id, l.run.id, j.newShot, j.anchor, j.preference, l.run.mode, now);
    InsertAfterAll(l.comparisons, c);
  }

  /** A judgement keeps the invariants: it extends the chain by one comparison, resolves its suggestion and moves the heads; the
      repetition of a stored one writes nothing. */
  lemma PreferenceKeeps(s: Settings, l: Ledger, j: Judgement, id: ComparisonId, now: nat)
    requires Inv(l) && KeyFollows(l, id, now) && RecordPreference(s, l, j, id, now).Ok?
    ensures Inv(RecordPreference(s, l, j, id, now).value)
    ensures var m := RecordPreference(s, l, j, id, now).value;
      if l.state.pendingShot != Some(j.newShot) then m == l
      else
        && m.comparisons == l.comparisons + [Comparison(id, l.run.id, j.newShot, j.anchor, j.preference, l.run.mode, now)]
        && NothingOpen(m) && OneResolved(l, m)
        && m.state.previous == Some(j.newShot)
        && m.state.incumbent == if j.preference.NewBetter? && l.state.incumbent == Some(j.anchor) then Some(j.newShot) else l.state.incumbent
  {
    if l.state.pendingShot == Some(j.newShot) {
      var c, k := PreferenceParts(s, l, j, id, now);
      ComparedKeeps(s, l, RecordPreference(s, l, j, id, now).value, c, k, now);
      assert ResolvedAt(l, RecordPreference(s, l, j, id, now).value, k);
    }
  }

  predicate ResolvedAt(l: Ledger, m: Ledger, k: nat)
  {
    IsOpen(l, k) && m.suggestions == l.suggestions[k := l.suggestions[k].(status := Resolved)]
  }

  /** The open row was resolved, the others stay. */
  ghost predicate OneResolved(l: Ledger, m: Ledger) { exists k: nat :: ResolvedAt(l, m, k) }

  lemma ComparedKeeps(s: Settings, l: Ledger, m: Ledger, c: Comparison, k: nat, now: nat)
    requires Inv(l) && KeyFollows(l, c.id, now) && ComparisonAppended(s, l, m, c, k, now)
    ensures Inv(m) && NothingOpen(m)
  {
    ComparedChain(s, l, m, c, k, now);
    ComparedApart(l, m, c);
    assert forall i: nat :: IsOpen(m, i) ==> IsOpen(l, i);
    ClosedAgrees(m);
  }

  lemma ComparedChain(s: Settings, l: Ledger, m: Ledger, c: Comparison, k: nat, now: nat)
    requires Chained(l) && PendingFits(l) && SuggestionsAgree(l) && ComparisonAppended(s, l, m, c, k, now)
    ensures Chained(m)
  {
    var base := Baseline(l.shots).value;
    ChainAppend(l.run.id, Ranks(l.shots), base, l.comparisons, c);
    HeadAppend(base, l.comparisons, c);
  }

  lemma ComparedApart(l: Ledger, m: Ledger, c: Comparison)
    requires AbstainedApart(l) && m.shots == l.shots && m.comparisons == l.comparisons + [c]
    requires l.state.pendingShot == Some(c.newShot) && m.state.pendingShot.None?
    ensures AbstainedApart(m)
  {
    HeadAppend(0, l.comparisons, c);
  }

  // ----- resume -----

  lemma ResumeKeeps(s: Settings, l: Ledger, control: Option<ControlId>, now: nat)
    requires Inv(l) && ResumeLocalExploration(s, l, control, now).Ok?
    ensures Inv(ResumeLocalExploration(s, l, control, now).value)
  {
    var m := ResumeLocalExploration(s, l, control, now).value;
    if m != l {
      assert m == l.(state := l.state.(region := m.state.region, updatedAt := now));
      NoOpenRow(l);
      assert forall i: nat :: !IsOpen(m, i);
    }
  }

  // ----- correct -----

  lemma CorrectionKeeps(s: Settings, l: Ledger, id: ShotId, controls: Controls, notes: map<nat, nat>, now: nat)
    requires Inv(l) && CorrectShot(s, l, id, controls, notes, now).Ok?
    ensures Inv(CorrectShot(s, l, id, controls, notes, now).value.0)
  {
    var (m, done) := CorrectShot(s, l, id, controls, notes, now).value;
    var i, recipe := CorrectionParts(s, l, id, controls, notes, now);
    CorrectionStores(l, m, i, recipe);
    if done.recipeChanged {
      var rows := CollectRecipes(l.table, map[recipe.id := recipe], m.shots, Some(id)).value;
      RebuiltRows(s, l, m, i, rows, now);
    } else {
      RewrittenRows(l, m, i);
    }
  }

  /** The one row a correction rewrites, and the recipe it now stands for. */
  lemma CorrectionParts(s: Settings, l: Ledger, id: ShotId, controls: Controls, notes: map<nat, nat>, now: nat) returns (i: nat, recipe: RecipePoint)
    requires ShotRows(l.shots) && CorrectShot(s, l, id, controls, notes, now).Ok?
    ensures i < |l.shots| && l.shots[i].id == id && FindShot(l.shots, id) == Some(l.shots[i]) && l.shots[i].recipe in l.table.rows
    ensures ObservationRecipe(l.run, controls, l.table.rows[l.shots[i].recipe].createdAt) == Ok(recipe)
    ensures var (m, done) := CorrectShot(s, l, id, controls, notes, now).value;
      && done.shot == l.shots[i].(recipe := recipe.id, observed := Some(controls.recipe), notes := l.shots[i].notes + notes)
      && done.recipeChanged == (recipe.id != l.shots[i].recipe)
      && InsertRecipe(l.table, recipe) == Ok(m.table)
      && m.shots == l.shots[i := done.shot] && m.shots == Substitute(l.shots, done.shot)
      && ShotRows(m.shots) && SameOutline(l.shots, m.shots)
  {
    i := FoundShot(l.shots, id);
    recipe := ObservationRecipe(l.run, controls, l.table.rows[l.shots[i].recipe].createdAt).value;
    SubstituteKeepsOutline(l.shots, i, CorrectShot(s, l, id, controls, notes, now).value.1.shot);
  }

  /** How the rows change when a shot is corrected. */
  predicate Corrected(s: Settings, l: Ledger, m: Ledger, i: nat, recipe: RecipePoint, now: nat)
  {
    && i < |l.shots| == |m.shots| && l.shots[i].recipe in l.table.rows
    && m.shots == l.shots[i := m.shots[i]] && m.shots[i].id == l.shots[i].id && m.shots[i].recipe == recipe.id
    && ShotRows(m.shots) && SameOutline(l.shots, m.shots)
    && InsertRecipe(l.table, recipe) == Ok(m.table)
    && m.run == l.run && m.comparisons == l.comparisons
    && if recipe.id == l.shots[i].recipe then m.state == l.state
       else
         var rows := CollectRecipes(l.table, map[recipe.id := recipe], m.shots, Some(m.shots[i].id));
         rows.Ok? && RebuildState(s, l.state, m.shots, rows.value, l.comparisons, true, now) == Ok(m.state)
  }

  lemma CorrectionRecord(s: Settings, l: Ledger, id: ShotId, controls: Controls, notes: map<nat, nat>, now: nat) returns (i: nat, recipe: RecipePoint)
    requires ShotRows(l.shots) && CorrectShot(s, l, id, controls, notes, now).Ok?
    ensures var m := CorrectShot(s, l, id, controls, notes, now).value.0;
      && Corrected(s, l, m, i, recipe, now) && m.shots[i].observed == Some(controls.recipe)
      && l.shots[i].id == id && CorrectShot(s, l, id, controls, notes, now).value.1.recipeChanged == (recipe.id != l.shots[i].recipe)
      && ObservationRecipe(l.run, controls, l.table.rows[l.shots[i].recipe].createdAt) == Ok(recipe)
  {
    i, recipe := CorrectionParts(s, l, id, controls, notes, now);
  }

  lemma CorrectionStores(l: Ledger, m: Ledger, i: nat, recipe: RecipePoint)
    requires RecipesStored(l) && i < |l.shots| && |m.shots| == |l.shots|
    requires InsertRecipe(l.table, recipe) == Ok(m.table) && m.shots == l.shots[i := m.shots[i]] && m.shots[i].recipe == recipe.id
    ensures RecipesStored(m)
  {
    InsertedRecipe(l.table, recipe);
  }

  /** Rows after one shot was rewritten without touching the state. */
  lemma RewrittenRows(l: Ledger, m: Ledger, i: nat)
    requires Inv(l) && i < |l.shots| && |m.shots| == |l.shots| && m.shots == l.shots[i := m.shots[i]]
    requires ShotRows(m.shots) && SameOutline(l.shots, m.shots) && m.shots[i].abstention == l.shots[i].abstention
    requires m == l.(table := m.table, shots := m.shots)
    requires RecipesStored(m)
    ensures Inv(m)
  {
    RewrittenChain(l, m);
    OutlineDecides(l.shots, m.shots);
    assert forall k: nat :: IsOpen(m, k) <==> IsOpen(l, k);
  }

  /** Rows after one shot was rewritten and the state rebuilt around the same comparisons. */
  lemma RebuiltRows(s: Settings, l: Ledger, m: Ledger, i: nat, rows: RecipeRows, now: nat)
    requires Inv(l) && i < |l.shots| && |m.shots| == |l.shots| && m.shots == l.shots[i := m.shots[i]]
    requires ShotRows(m.shots) && SameOutline(l.shots, m.shots) && m.shots[i].abstention == l.shots[i].abstention
    requires RebuildState(s, l.state, m.shots, rows, l.comparisons, true, now) == Ok(m.state)
    requires m == l.(table := m.table, shots := m.shots, suggestions := m.suggestions, state := m.state)
    requires m.suggestions == if l.state.pendingRecipe.Some? && m.state.pendingRecipe.None? then Supersede(l.suggestions) else l.suggestions
    requires RecipesStored(m)
    ensures Inv(m)
  {
    RebuiltState(s, l, m, rows, now);
    RewrittenChain(l, m);
    OutlineDecides(l.shots, m.shots);
    RebuiltSuggestions(l, m);
  }

  lemma RebuiltSuggestions(l: Ledger, m: Ledger)
    requires SuggestionsAgree(l) && PendingFits(l)
    requires Ranks(m.shots) == Ranks(l.shots) && Baseline(m.shots) == Baseline(l.shots) && m.comparisons == l.comparisons && m.run == l.run
    requires m.suggestions == if l.state.pendingRecipe.Some? && m.state.pendingRecipe.None? then Supersede(l.suggestions) else l.suggestions
    requires l.state.pendingShot.Some? ==>
      m.state.pendingShot == l.state.pendingShot && m.state.pendingRecipe == l.state.pendingRecipe && m.state.pendingAnchor == l.state.pendingAnchor
    requires l.state.pendingShot.None? ==> NoPending(m.state)
    ensures SuggestionsAgree(m) && PendingFits(m)
  {
    if l.state.pendingShot.Some? {
      assert forall k: nat :: IsOpen(m, k) <==> IsOpen(l, k);
    } else {
      ClosedBySupersede(l.suggestions);
      if l.state.pendingRecipe.None? {
        NoOpenRow(l);
      }
      assert forall k: nat :: IsOpen(m, k) ==> IsOpen(l, k);
      ClosedAgrees(m);
    }
  }

  /** A state rebuilt over the same chain keeps its head and exactly an awaited comparison. */
  lemma RebuiltState(s: Settings, l: Ledger, m: Ledger, rows: RecipeRows, now: nat)
    requires Chained(l) && PendingFits(l) && SuggestionsAgree(l) && ShotRows(m.shots) && SameOutline(l.shots, m.shots)
    requires RebuildState(s, l.state, m.shots, rows, l.comparisons, true, now) == Ok(m.state)
    ensures m.state.previous == l.state.previous && m.state.incumbent == l.state.incumbent && m.state.configuration == l.state.configuration
    ensures l.state.pendingShot.Some? ==>
      m.state.pendingShot == l.state.pendingShot && m.state.pendingRecipe == l.state.pendingRecipe && m.state.pendingAnchor == l.state.pendingAnchor
    ensures l.state.pendingShot.None? ==> NoPending(m.state)
    ensures Baseline(m.shots).None? ==> m.state.region.transitions == [] && !m.state.region.locallyConverged
  {
    RebuildHead(s.schedule, l.state.region, m.shots, rows, l.comparisons);
    OutlineDecides(l.shots, m.shots);
    assert ValidById(m.shots).Keys == Ranks(m.shots).Keys;
  }

  // ----- exclude -----

  /** How the rows change when shot i is excluded. */
  predicate ShotExcluded(s: Settings, l: Ledger, m: Ledger, i: nat, rows: RecipeRows, now: nat)
  {
    && i < |l.shots| && |m.shots| == |l.shots| && m.shots == l.shots[i := l.shots[i].(status := Excluded)] && ShotRows(m.shots)
    && CollectRecipes(l.table, map[], m.shots, None) == Ok(rows)
    && m.comparisons == RetainedHistory(l.run.id, m.shots, l.comparisons)
    && RebuildState(s, l.state, m.shots, rows, m.comparisons, false, now) == Ok(m.state)
    && m == l.(shots := m.shots, comparisons := m.comparisons, suggestions := Supersede(l.suggestions), state := m.state)
  }

  lemma ExclusionParts(s: Settings, l: Ledger, id: ShotId, now: nat) returns (i: nat, rows: RecipeRows)
    requires ShotRows(l.shots) && Sorted(l.comparisons) && DistinctIds(l.comparisons)
    requires ExcludeShot(s, l, id, now).Ok? && !FindShot(l.shots, id).value.status.Excluded?
    ensures ShotExcluded(s, l, ExcludeShot(s, l, id, now).value, i, rows, now) && l.shots[i].id == id
    ensures FindShot(l.shots, id) == Some(l.shots[i])
  {
    i := FoundShot(l.shots, id);
    var shot := l.shots[i].(status := Excluded);
    SubstituteKeepsOutline(l.shots, i, shot);
    KeptRows(l, l.shots[i := shot]);
    InsertAllSorted(RetainedHistory(l.run.id, l.shots[i := shot], l.comparisons));
    rows := ExclusionRecord(s, l, id, now, i, shot);
  }

  lemma ExclusionRecord(s: Settings, l: Ledger, id: ShotId, now: nat, i: nat, shot: Shot) returns (rows: RecipeRows)
    requires ExcludeShot(s, l, id, now).Ok? && i < |l.shots| && FindShot(l.shots, id) == Some(l.shots[i])
    requires !l.shots[i].status.Excluded? && shot == l.shots[i].(status := Excluded)
    requires Substitute(l.shots, shot) == l.shots[i := shot] && ShotRows(l.shots[i := shot])
    requires var kept := RetainedHistory(l.run.id, l.shots[i := shot], l.comparisons); InsertAllByKey(kept) == kept
    ensures ShotExcluded(s, l, ExcludeShot(s, l, id, now).value, i, rows, now)
  {
    rows := CollectRecipes(l.table, map[], l.shots[i := shot], None).value;
  }

  lemma ExclusionKeeps(s: Settings, l: Ledger, id: ShotId, now: nat)
    requires Inv(l) && ExcludeShot(s, l, id, now).Ok?
    ensures Inv(ExcludeShot(s, l, id, now).value)
  {
    if !FindShot(l.shots, id).value.status.Excluded? {
      var i, rows := ExclusionParts(s, l, id, now);
      ExcludedRows(s, l, ExcludeShot(s, l, id, now).value, i, rows, now);
    }
  }

  lemma KeptRows(l: Ledger, shots: seq<Shot>)
    requires Sorted(l.comparisons) && DistinctIds(l.comparisons)
    ensures var kept := RetainedHistory(l.run.id, shots, l.comparisons);
      Subsequence(kept, l.comparisons) && Sorted(kept) && DistinctIds(kept) && Compared(kept) <= Compared(l.comparisons)
  {
    if Baseline(shots).Some? {
      RetainedIsSubsequence(l.run.id, Ranks(shots), Baseline(shots).value, l.comparisons);
    }
    SubsequenceInherits(RetainedHistory(l.run.id, shots, l.comparisons), l.comparisons);
  }

  lemma ExcludedRows(s: Settings, l: Ledger, m: Ledger, i: nat, rows: RecipeRows, now: nat)
    requires Inv(l) && ShotExcluded(s, l, m, i, rows, now)
    ensures Inv(m)
  {
    KeptRows(l, m.shots);
    RebuildHead(s.schedule, l.state.region, m.shots, rows, m.comparisons);
    if Baseline(m.shots).Some? {
      RetainedIsLegal(l.run.id, Ranks(m.shots), Baseline(m.shots).value, l.comparisons);
    }
    ClosedBySupersede(l.suggestions);
    ClosedAgrees(m);
  }

  // ----- migrate and reconfigure -----

  lemma {:induction false} PutIsUpdate(rs: seq<RecipePoint>, r: RecipePoint)
    ensures RowsOf(Put(rs, r)) == RowsOf(rs)[r.id := r]
  {
    if rs != [] {
      var init, last := rs[..|rs| - 1], rs[|rs| - 1];
      PutIsUpdate(init, r);
      assert Put(rs, r)[..|Put(rs, r)| - 1] == if last.id == r.id then init else Put(init, r);
    }
  }

  lemma {:induction false} RowsHold(rs: seq<RecipePoint>)
    ensures forall i :: 0 <= i < |rs| ==> rs[i].id in RowsOf(rs)
    ensures forall k :: k in RowsOf(rs) ==> RowsOf(rs)[k].id == k && RowsOf(rs)[k] in rs
    ensures DistinctRecipes(rs) ==> forall i :: 0 <= i < |rs| ==> RowsOf(rs)[rs[i].id] == rs[i]
  {
    if rs != [] {
      var init := rs[..|rs| - 1];
      RowsHold(init);
      assert forall i :: 0 <= i < |init| ==> init[i] == rs[i];
    }
  }

  lemma {:induction false} PutKeepsDistinct(rs: seq<RecipePoint>, r: RecipePoint)
    requires DistinctRecipes(rs)
    ensures DistinctRecipes(Put(rs, r))
  {
    if rs != [] && rs[|rs| - 1].id != r.id {
      var init, last := rs[..|rs| - 1], rs[|rs| - 1];
      PutKeepsDistinct(init, r);
      PutIsUpdate(init, r);
      RowsHold(init);
      RowsHold(Put(init, r));
      assert last.id !in RowsOf(init) by {
        assert forall x :: x in init ==> x.id != last.id;
      }
    }
  }

  /** Rebased shots keep identity, order, status and abstention, and their recipes are the ones listed. */
  lemma {:induction false} RebasedShots(space: Space, t: RecipeTable, shots: seq<Shot>)
    requires RebaseShots(space, t, shots).Ok?
    ensures var r := RebaseShots(space, t, shots).value;
      && SameOutline(shots, r.shots) && DistinctRecipes(r.recipes)
      && (forall i :: 0 <= i < |shots| ==> shots[i].recipe in t.rows)
  {
    if shots != [] {
      var init, last := shots[..|shots| - 1], shots[|shots| - 1];
      RebasedShots(space, t, init);
      var r := RebaseShots(space, t, init).value;
      PutKeepsDistinct(r.recipes, Observe(space, ObservedOf(t, last), t.rows[last.recipe].createdAt).value);
      OutlineGrows(init, r.shots, last, RebaseShots(space, t, shots).value.shots[|r.shots|]);
      assert forall i :: 0 <= i < |init| ==> shots[i] == init[i];
    }
  }

  lemma OutlineGrows(a: seq<Shot>, b: seq<Shot>, x: Shot, y: Shot)
    requires SameOutline(a, b) && x.id == y.id && x.sequence == y.sequence && x.status == y.status
    ensures SameOutline(a + [x], b + [y])
  {
    assert forall i :: 0 <= i < |a| ==> (a + [x])[i] == a[i] && (b + [y])[i] == b[i];
  }

  /** Each rebased shot stands for the observation of what was pulled, in the new space. */
  lemma {:induction false} RebasedAt(space: Space, t: RecipeTable, shots: seq<Shot>, i: nat)
    requires RebaseShots(space, t, shots).Ok? && i < |shots|
    ensures var r := RebaseShots(space, t, shots).value;
      && i < |r.shots| && shots[i].recipe in t.rows
      && var o := Observe(space, ObservedOf(t, shots[i]), t.rows[shots[i].recipe].createdAt);
         o.Ok? && r.shots[i] == shots[i].(recipe := o.value.id, observed := Some(ObservedOf(t, shots[i])))
         && o.value.id in RowsOf(r.recipes) && RowsOf(r.recipes)[o.value.id].position == o.value.position
  {
    var init, last := shots[..|shots| - 1], shots[|shots| - 1];
    RebasedShots(space, t, shots);
    RebasedShots(space, t, init);
    var r := RebaseShots(space, t, init).value;
    var recipe := Observe(space, ObservedOf(t, last), t.rows[last.recipe].createdAt).value;
    PutIsUpdate(r.recipes, recipe);
    if i < |init| {
      RebasedAt(space, t, init, i);
      assert init[i] == shots[i];
    }
  }

  lemma {:induction false} SubstituteAllAligned(shots: seq<Shot>, rs: seq<Shot>, n: nat)
    requires ShotRows(shots) && |rs| == |shots| && n <= |shots|
    requires forall i :: 0 <= i < |shots| ==> rs[i].id == shots[i].id
    ensures |SubstituteAll(shots, rs[..n])| == |shots|
    ensures forall i :: 0 <= i < |shots| ==> SubstituteAll(shots, rs[..n])[i] == if i < n then rs[i] else shots[i]
  {
    if n > 0 {
      SubstituteAllAligned(shots, rs, n - 1);
      assert rs[..n][..n - 1] == rs[..n - 1];
    }
  }

  lemma {:induction false} InsertedRecipes(t: RecipeTable, rs: seq<RecipePoint>)
    requires InsertRecipes(t, rs).Ok?
    requires t.first in t.rows && forall k :: k in t.rows ==> t.rows[k].id == k
    ensures var u := InsertRecipes(t, rs).value;
      && u.first in u.rows && (forall k :: k in u.rows ==> u.rows[k].id == k)
      && (forall k :: k in t.rows ==> k in u.rows && u.rows[k] == t.rows[k])
      && (forall i :: 0 <= i < |rs| ==> rs[i].id in u.rows && u.rows[rs[i].id].position == rs[i].position)
  {
    if rs != [] {
      InsertedRecipes(t, rs[..|rs| - 1]);
      var u := InsertRecipes(t, rs[..|rs| - 1]).value;
      InsertedRecipe(u, rs[|rs| - 1]);
    }
  }

  /** How the rows change when the recipe space is replaced. */
  predicate Moved(s: Settings, l: Ledger, m: Ledger, mode: Mode, space: Space, rebased: Rebased, state: OptimizerState, now: nat)
  {
    && WithDomain(l.run.space, s.domain) == Ok(space)
    && RebaseShots(space, l.table, l.shots) == Ok(rebased)
    && RebuildState(s, l.state, rebased.shots, RowsOf(rebased.recipes), l.comparisons, false, now) == Ok(state)
    && InsertRecipes(l.table, rebased.recipes) == Ok(m.table)
    && m == Ledger(l.run.(mode := mode, space := space, configuration := s.configuration), m.table, rebased.shots, l.comparisons,
                   Supersede(l.suggestions), ClearPending(state).(seed := s.seed, configuration := s.configuration, updatedAt := now))
  }

  lemma MigratedRows(l: Ledger, run: Run, recipes: seq<RecipePoint>, shots: seq<Shot>, state: OptimizerState)
    requires ShotRows(l.shots) && SameOutline(l.shots, shots) && Migrate(l, run, recipes, shots, state).Ok?
    ensures InsertRecipes(l.table, recipes).Ok? && l.run.active && shots != []
    ensures Migrate(l, run, recipes, shots, state).value ==
      Ledger(run, InsertRecipes(l.table, recipes).value, shots, l.comparisons, Supersede(l.suggestions), state)
  {
    SubstituteAllAligned(l.shots, shots, |shots|);
    assert shots[..|shots|] == shots;
    assert SubstituteAll(l.shots, shots) == shots;
  }

  lemma MigrationParts(s: Settings, l: Ledger, mode: Mode, now: nat) returns (space: Space, rebased: Rebased, state: OptimizerState)
    requires ShotRows(l.shots) && MigrateRun(s, l, mode, now).Ok?
    ensures Moved(s, l, MigrateRun(s, l, mode, now).value, mode, space, rebased, state, now)
    ensures l.shots != [] && l.run.active
  {
    space := WithDomain(l.run.space, s.domain).value;
    rebased := RebaseShots(space, l.table, l.shots).value;
    state := RebuildState(s, l.state, rebased.shots, RowsOf(rebased.recipes), l.comparisons, false, now).value;
    RebasedShots(space, l.table, l.shots);
    MigratedRows(l, l.run.(mode := mode, space := space, configuration := s.configuration), rebased.recipes, rebased.shots,
                 ClearPending(state).(seed := s.seed, configuration := s.configuration, updatedAt := now));
  }

  lemma MigrationKeeps(s: Settings, l: Ledger, mode: Mode, now: nat)
    requires Inv(l) && MigrateRun(s, l, mode, now).Ok?
    ensures Inv(MigrateRun(s, l, mode, now).value)
  {
    var space, rebased, state := MigrationParts(s, l, mode, now);
    MovedKeeps(s, l, MigrateRun(s, l, mode, now).value, mode, space, rebased, state, now);
  }

  lemma MovedKeeps(s: Settings, l: Ledger, m: Ledger, mode: Mode, space: Space, rebased: Rebased, state: OptimizerState, now: nat)
    requires Inv(l) && Moved(s, l, m, mode, space, rebased, state, now)
    ensures Inv(m)
  {
    RebasedShots(space, l.table, l.shots);
    MovedRows(s, l, m, mode, space, rebased, state, now);
    RebuildHead(s.schedule, l.state.region, m.shots, RowsOf(rebased.recipes), l.comparisons);
    OutlineDecides(l.shots, m.shots);
    RewrittenChain(l, m);
    ClosedBySupersede(l.suggestions);
    ClosedAgrees(m);
  }

  lemma MovedRows(s: Settings, l: Ledger, m: Ledger, mode: Mode, space: Space, rebased: Rebased, state: OptimizerState, now: nat)
    requires Inv(l) && Moved(s, l, m, mode, space, rebased, state, now)
    ensures ShotRows(m.shots) && RecipesStored(m) && AbstainedApart(m)
  {
    RebasedShots(space, l.table, l.shots);
    InsertedRecipes(l.table, rebased.recipes);
    RowsHold(rebased.recipes);
    forall i | 0 <= i < |m.shots|
      ensures m.shots[i].recipe in m.table.rows && m.shots[i].abstention == l.shots[i].abstention && m.shots[i].id == l.shots[i].id
    {
      RebasedAt(space, l.table, l.shots, i);
    }
  }

  lemma ReconfigurationKeeps(s: Settings, l: Ledger, mode: Mode, now: nat)
    requires Inv(l) && ReconfigureRun(s, l, mode, now).Ok?
    ensures Inv(ReconfigureRun(s, l, mode, now).value)
  {
    var m := ReconfigureRun(s, l, mode, now).value;
    ClosedBySupersede(l.suggestions);
    ClosedAgrees(m);
  }

  lemma CompatibleKeeps(s: Settings, l: Ledger, mode: Option<Mode>, now: nat)
    requires Inv(l) && CompatibleRun(s, l, mode, now).Ok?
    ensures Inv(CompatibleRun(s, l, mode, now).value)
  {
    var desired := if mode.Some? then mode.value else l.run.mode;
    match FitOf(s, l, mode)
    case AsItIs =>
    case Retired =>
      assert forall i: nat :: IsOpen(Deactivate(l), i) <==> IsOpen(l, i);
    case Migrated => MigrationKeeps(s, l, desired, now);
    case Reconfigured => ReconfigurationKeeps(s, l, desired, now);
  }
}
