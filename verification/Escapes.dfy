/** A converged history can always be cut back: excluding one shot leads out of local convergence. */
module Escapes {
  import opened Prelude
  import opened RecipeSpace
  import opened Cpbo
  import opened TrustRegions
  import opened History
  import opened HistoryLaws
  import opened ReplayLaws
  import opened Ledgers
  import opened Service
  import opened Invariants
  import opened Faithfulness
  import opened Markings
  import opened Tempos
  import opened Guarantees

  /** Comparison k judged against the incumbent and converged the run; what followed neither judged nor resumed. */
  predicate Converges(s: Schedule, marked: Marks, cs: seq<Comparison>, k: nat)
  {
    && k < |cs| && cs[k].mode.BestIncumbent?
    && (forall j :: k < j < |cs| ==> cs[j].mode.GlobalPrevious?)
    && (forall j :: k <= j < |cs| ==> Some(cs[j].id) !in marked)
    && TempoAfter(s, marked, cs[..k]).Some? && !TempoAfter(s, marked, cs[..k]).value.converged
  }

  lemma {:induction false} ConvergedOnce(s: Schedule, marked: Marks, cs: seq<Comparison>) returns (k: nat)
    requires TempoAfter(s, marked, cs).Some? && TempoAfter(s, marked, cs).value.converged
    ensures Converges(s, marked, cs, k)
  {
    var n := |cs| - 1;
    if cs[n].mode.BestIncumbent? {
      k := n;
    } else {
      k := ConvergedOnce(s, marked, cs[..n]);
      assert cs[..n][..k] == cs[..k] && cs[..n][k] == cs[k];
      assert forall j :: k <= j < n ==> cs[..n][j] == cs[j];
    }
  }

  // ----- the shots without one of them -----

  lemma WithoutShot(shots: seq<Shot>, i: nat, x: Shot)
    requires ShotRows(shots) && i < |shots| && x == shots[i].(status := Excluded)
    ensures ShotRows(shots[i := x]) && Ranks(shots[i := x]) == Ranks(shots) - {shots[i].id}
  {
    var rest := shots[i := x];
    forall k | k in Ranks(rest)
      ensures k in Ranks(shots) && k != shots[i].id && Ranks(shots)[k] == Ranks(rest)[k]
    {
      var j := ValidAt(rest, k);
      ShotInValid(rest, j);
      ShotInValid(shots, j);
    }
    forall k | k in Ranks(shots) && k != shots[i].id
      ensures k in Ranks(rest)
    {
      var j := ValidAt(shots, k);
      ShotInValid(rest, j);
    }
  }

  lemma SameBaseline(shots: seq<Shot>, i: nat, x: Shot)
    requires ShotRows(shots) && i < |shots| && x == shots[i].(status := Excluded)
    requires Baseline(shots).Some? && Baseline(shots) != Some(shots[i].id)
    ensures Baseline(shots[i := x]) == Baseline(shots)
  {
    BaselineAt(shots);
    BaselineAt(shots[i := x]);
    var b :| 0 <= b < |shots| && shots[b].id == Baseline(shots).value && shots[b].status.Valid?
             && forall j :: 0 <= j < b ==> !shots[j].status.Valid?;
    assert shots[i := x][b].status.Valid?;
  }

  // ----- what is kept without the new shot of comparison k -----

  /** The part of a chain before a shot enters it is legal without that shot. */
  lemma {:induction false} ChainBefore(run: RunId, ranks: map<ShotId, nat>, base: ShotId, cs: seq<Comparison>, id: ShotId)
    requires LegalChain(run, ranks, base, cs) && id !in Compared(cs) && id != base
    ensures LegalChain(run, ranks - {id}, base, cs)
  {
    if cs != [] {
      ComparedSplit(cs);
      ChainBefore(run, ranks, base, cs[..|cs| - 1], id);
      HeadIsCompared(base, cs[..|cs| - 1]);
    }
  }

  /** A global-previous comparison after position k is anchored at a shot that entered the chain at k or later. */
  lemma AnchoredLater(run: RunId, ranks: map<ShotId, nat>, base: ShotId, cs: seq<Comparison>, k: nat, j: nat)
    requires LegalChain(run, ranks, base, cs) && base in ranks && (forall x :: x in ranks ==> ranks[base] <= ranks[x])
    requires k < j < |cs| && cs[j].mode.GlobalPrevious?
    ensures cs[j].anchor !in Compared(cs[..k]) + {base}
  {
    ChainAt(run, ranks, base, cs, j);
    ChainAt(run, ranks, base, cs, j - 1);
    assert cs[..j][..j - 1] == cs[..j - 1];
    assert cs[j].anchor == cs[j - 1].newShot;
    assert cs[..k] <= cs[..j - 1];
  }

  /** From comparison k on nothing is legal after the prefix before it once its new shot is gone. */
  lemma IllegalWithout(run: RunId, ranks: map<ShotId, nat>, base: ShotId, cs: seq<Comparison>, k: nat, j: nat)
    requires LegalChain(run, ranks, base, cs) && base in ranks && (forall x :: x in ranks ==> ranks[base] <= ranks[x])
    requires k <= j < |cs| && (k < j ==> cs[j].mode.GlobalPrevious?)
    ensures !Legal(run, ranks - {cs[k].newShot}, base, cs[..k], cs[j])
  {
    if k < j {
      HeadIsCompared(base, cs[..k]);
      AnchoredLater(run, ranks, base, cs, k, j);
    }
  }

  /** Without the new shot of comparison k, exactly the prefix before it is kept. */
  lemma {:induction false} KeptBefore(run: RunId, ranks: map<ShotId, nat>, base: ShotId, cs: seq<Comparison>, k: nat, j: nat)
    requires LegalChain(run, ranks, base, cs) && base in ranks && (forall x :: x in ranks ==> ranks[base] <= ranks[x])
    requires k < |cs| && k <= j <= |cs| && (forall i :: k < i < |cs| ==> cs[i].mode.GlobalPrevious?)
    ensures Retained(run, ranks - {cs[k].newShot}, base, cs[..j]) == cs[..k]
  {
    if j == k {
      PrefixOfChain(run, ranks, base, cs, k);
      ChainAt(run, ranks, base, cs, k);
      ChainBefore(run, ranks, base, cs[..k], cs[k].newShot);
      RetainedIsIdentity(run, ranks - {cs[k].newShot}, base, cs[..k]);
    } else {
      KeptBefore(run, ranks, base, cs, k, j - 1);
      assert cs[..j][..j - 1] == cs[..j - 1];
      IllegalWithout(run, ranks, base, cs, k, j - 1);
    }
  }

  lemma {:induction false} PrefixOfChain(run: RunId, ranks: map<ShotId, nat>, base: ShotId, cs: seq<Comparison>, k: nat)
    requires LegalChain(run, ranks, base, cs) && k <= |cs|
    ensures LegalChain(run, ranks, base, cs[..k])
  {
    if k == |cs| {
      assert cs[..k] == cs;
    } else {
      PrefixOfChain(run, ranks, base, cs[..|cs| - 1], k);
      assert cs[..|cs| - 1][..k] == cs[..k];
    }
  }

  // ----- one exclusion -----

  /** The comparisons kept without the shot end in local convergence. */
  predicate KeepsConverged(s: Settings, l: Ledger, id: ShotId)
    requires HasShot(l.shots, id)
  {
    var shots := Substitute(l.shots, FindShot(l.shots, id).value.(status := Excluded));
    && Baseline(shots).Some?
    && var x := TempoAfter(s.schedule, MarkersOf(l.state.region.transitions).Keys, RetainedHistory(l.run.id, shots, l.comparisons));
      x.Some? && x.value.converged
  }

  /** Excluding the shot is possible and leads out of local convergence. */
  predicate Frees(s: Settings, l: Ledger, id: ShotId)
  {
    && HasShot(l.shots, id) && !FindShot(l.shots, id).value.status.Excluded?
    && CanExclude(s, l, id) && !KeepsConverged(s, l, id)
  }

  /** A shot frees the run exactly when its exclusion succeeds and leaves the region outside local convergence. */
  lemma FreeingCondition(s: Settings, l: Ledger, id: ShotId, now: nat)
    requires Inv(l) && Marked(l) && HasShot(l.shots, id) && !FindShot(l.shots, id).value.status.Excluded?
    ensures Frees(s, l, id) <==> ExcludeShot(s, l, id, now).Ok? && !ExcludeShot(s, l, id, now).value.state.region.locallyConverged
  {
    ExclusionCondition(s, l, id, now);
    if ExcludeShot(s, l, id, now).Ok? {
      ExclusionConvergence(s, l, id, now);
      var i, rows := ExclusionParts(s, l, id, now);
      SubstituteKeepsOutline(l.shots, i, l.shots[i].(status := Excluded));
    }
  }

  /** Whatever the mode and whatever else is pending: a run whose history replays to local convergence is freed by excluding one shot, the
      new shot of the comparison that converged it. */
  lemma OneExclusionLeadsOut(s: Settings, l: Ledger) returns (id: ShotId)
    requires Inv(l) && Marked(l) && CanRebuild(s, l) && RebuildsConverged(s, l)
    ensures Frees(s, l, id)
  {
    var marked, base := MarkersOf(l.state.region.transitions).Keys, Baseline(l.shots).value;
    var k := ConvergedOnce(s.schedule, marked, l.comparisons);
    id := l.comparisons[k].newShot;
    BaselineIsFirst(l.shots);
    ChainAt(l.run.id, Ranks(l.shots), base, l.comparisons, k);
    var i := ValidAt(l.shots, id);
    UniqueShot(l.shots, i);
    var x := l.shots[i].(status := Excluded);
    SubstituteKeepsOutline(l.shots, i, x);
    WithoutShot(l.shots, i, x);
    SameBaseline(l.shots, i, x);
    KeptBefore(l.run.id, Ranks(l.shots), base, l.comparisons, k, |l.comparisons|);
    assert l.comparisons[..|l.comparisons|] == l.comparisons;
    MarkedBefore(marked, l.comparisons, k);
  }

  lemma MarkedBefore(marked: Marks, cs: seq<Comparison>, k: nat)
    requires marked <= Named(cs) && k <= |cs| && forall j :: k <= j < |cs| ==> Some(cs[j].id) !in marked
    ensures marked <= Named(cs[..k])
  {
    forall x | x in marked
      ensures x in Named(cs[..k])
    {
      var j :| 0 <= j < |cs| && x == Some(cs[j].id);
      assert cs[..k][j] == cs[j];
    }
  }
}
