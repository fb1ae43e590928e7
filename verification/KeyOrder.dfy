/** Comparison rows are listed by creation time and a random identifier; what happens when keys do not grow in commit order. */
module KeyOrder {
  import opened Prelude
  import opened RecipeSpace
  import opened Cpbo
  import opened History
  import opened HistoryLaws
  import opened Ledgers

  /** The chain in which a comparison that was given last is listed at row k. */
  function ListedAt(cs: seq<Comparison>, k: nat, c: Comparison): seq<Comparison>
    requires k <= |cs|
  {
    cs[..k] + [c] + cs[k..]
  }

  /** Insertion by key lists a comparison at some row, and at the end exactly when it sorts after the last one. */
  lemma {:induction false} InsertedAt(cs: seq<Comparison>, c: Comparison) returns (k: nat)
    ensures k <= |cs| && InsertByKey(cs, c) == ListedAt(cs, k, c)
    ensures k < |cs| ==> !Before(cs[|cs| - 1], c)
    ensures cs != [] && !Before(cs[|cs| - 1], c) ==> k < |cs|
  {
    if cs == [] || Before(cs[|cs| - 1], c) {
      k := |cs|;
      assert ListedAt(cs, k, c) == cs + [c];
    } else {
      var n := |cs| - 1;
      k := InsertedAt(cs[..n], c);
      assert ListedAt(cs, k, c) == ListedAt(cs[..n], k, c) + [cs[n]];
    }
  }

  lemma ListedSnoc(cs: seq<Comparison>, k: nat, c: Comparison, n: nat)
    requires k < n <= |cs|
    ensures ListedAt(cs[..n], k, c) == ListedAt(cs[..n - 1], k, c) + [cs[n - 1]] && cs[..n] == cs[..n - 1] + [cs[n - 1]]
  {
  }

  lemma {:induction false} ListedCompared(cs: seq<Comparison>, k: nat, c: Comparison)
    requires k <= |cs|
    ensures Compared(ListedAt(cs, k, c)) == Compared(cs) + {c.newShot}
  {
    if k == |cs| {
      assert ListedAt(cs, k, c) == cs + [c];
      HeadAppend(0, cs, c);
    } else {
      var n := |cs| - 1;
      ListedCompared(cs[..n], k, c);
      assert ListedAt(cs, k, c) == ListedAt(cs[..n], k, c) + [cs[n]];
      HeadAppend(0, ListedAt(cs[..n], k, c), cs[n]);
      ComparedSplit(cs);
    }
  }

  lemma {:induction false} PrefixCompared(cs: seq<Comparison>, k: nat, n: nat)
    requires k <= n <= |cs|
    ensures Compared(cs[..k]) <= Compared(cs[..n])
  {
    if k < n {
      PrefixCompared(cs, k, n - 1);
      assert cs[..n][..n - 1] == cs[..n - 1];
      ComparedSplit(cs[..n]);
    }
  }

  /** The first valid shot: no valid shot is older. */
  predicate Outranked(ranks: map<ShotId, nat>, base: ShotId) { base in ranks && forall k :: k in ranks ==> ranks[base] <= ranks[k] }

  /** When a comparison that is legal at the end may also be listed before row k. */
  predicate MayMove(base: ShotId, cs: seq<Comparison>, k: nat, c: Comparison)
    requires k < |cs|
  {
    && c.mode.BestIncumbent? && cs[k].mode.BestIncumbent? && !c.preference.NewBetter?
    && HeadAfter(base, cs[..k]).incumbent == HeadAfter(base, cs).incumbent
  }

  /** A judgement that is legal when it is given, but whose key sorts before row k, leaves a legal chain exactly when it and the row
      it is listed before were judged against the incumbent, it did not win, and the incumbent has not changed since. In
      particular a judgement against the previous shot always breaks the chain. */
  lemma EarlierKeyCondition(run: RunId, ranks: map<ShotId, nat>, base: ShotId, cs: seq<Comparison>, k: nat, c: Comparison)
    requires LegalChain(run, ranks, base, cs) && Legal(run, ranks, base, cs, c) && k < |cs| && Outranked(ranks, base)
    ensures LegalChain(run, ranks, base, ListedAt(cs, k, c)) <==> MayMove(base, cs, k, c)
  {
    var d := ListedAt(cs, k, c);
    if LegalChain(run, ranks, base, d) {
      MovedIsForced(run, ranks, base, cs, k, c);
    }
    if MayMove(base, cs, k, c) {
      MovedIsLegal(run, ranks, base, cs, k, c, |cs|);
      assert cs[..|cs|] == cs;
    }
  }

  lemma MovedIsForced(run: RunId, ranks: map<ShotId, nat>, base: ShotId, cs: seq<Comparison>, k: nat, c: Comparison)
    requires LegalChain(run, ranks, base, cs) && Legal(run, ranks, base, cs, c) && k < |cs| && Outranked(ranks, base)
    requires LegalChain(run, ranks, base, ListedAt(cs, k, c))
    ensures MayMove(base, cs, k, c)
  {
    var d := ListedAt(cs, k, c);
    ChainAt(run, ranks, base, d, k);
    ChainAt(run, ranks, base, d, k + 1);
    ChainAt(run, ranks, base, cs, k);
    assert d[..k] == cs[..k] && d[k] == c && d[k + 1] == cs[k] && d[..k + 1] == cs[..k] + [c];
    HeadAppend(base, cs[..k], c);
    HeadIsCompared(base, cs[..k]);
    ComparedOutrankBase(run, ranks, base, cs);
    PrefixCompared(cs, k, |cs| - 1);
    PrefixCompared(cs, k, |cs|);
    assert cs[..|cs|] == cs;
    ChainAt(run, ranks, base, cs, |cs| - 1);
    ComparedSplit(cs);
    NotCompared(run, ranks, base, cs, c);
  }

  lemma NotCompared(run: RunId, ranks: map<ShotId, nat>, base: ShotId, cs: seq<Comparison>, c: Comparison)
    requires Legal(run, ranks, base, cs, c) && Outranked(ranks, base)
    ensures c.newShot !in Compared(cs) + {base}
  {
  }

  /** The chain of the first n rows with the moved comparison among them. */
  predicate MovedSoFar(run: RunId, ranks: map<ShotId, nat>, base: ShotId, cs: seq<Comparison>, k: nat, c: Comparison, n: nat)
    requires k <= n <= |cs|
  {
    var d := ListedAt(cs[..n], k, c);
    && LegalChain(run, ranks, base, d)
    && HeadAfter(base, d).incumbent == HeadAfter(base, cs[..n]).incumbent
    && (n > k ==> HeadAfter(base, d) == HeadAfter(base, cs[..n]))
  }

  lemma {:induction false} MovedIsLegal(run: RunId, ranks: map<ShotId, nat>, base: ShotId, cs: seq<Comparison>, k: nat, c: Comparison, n: nat)
    requires LegalChain(run, ranks, base, cs) && Legal(run, ranks, base, cs, c) && k < |cs| && Outranked(ranks, base)
    requires MayMove(base, cs, k, c) && k <= n <= |cs|
    ensures MovedSoFar(run, ranks, base, cs, k, c, n)
    decreases n
  {
    if n == k {
      MovedFirst(run, ranks, base, cs, k, c);
    } else {
      MovedIsLegal(run, ranks, base, cs, k, c, n - 1);
      ChainAt(run, ranks, base, cs, n - 1);
      ComparedIn(cs, n - 1);
      MovedNext(run, ranks, base, cs, k, c, n);
    }
  }

  lemma MovedFirst(run: RunId, ranks: map<ShotId, nat>, base: ShotId, cs: seq<Comparison>, k: nat, c: Comparison)
    requires LegalChain(run, ranks, base, cs) && Legal(run, ranks, base, cs, c) && k < |cs| && MayMove(base, cs, k, c)
    ensures MovedSoFar(run, ranks, base, cs, k, c, k)
  {
    PrefixCompared(cs, k, |cs|);
    assert cs[..|cs|] == cs;
    assert ListedAt(cs[..k], k, c) == cs[..k] + [c];
    ChainPrefix(run, ranks, base, cs, k);
    HeadAppend(base, cs[..k], c);
    ChainAppend(run, ranks, base, cs[..k], c);
  }

  lemma MovedNext(run: RunId, ranks: map<ShotId, nat>, base: ShotId, cs: seq<Comparison>, k: nat, c: Comparison, n: nat)
    requires k < n <= |cs| && MovedSoFar(run, ranks, base, cs, k, c, n - 1) && Legal(run, ranks, base, cs[..n - 1], cs[n - 1])
    requires cs[n - 1].newShot != c.newShot && cs[k].mode.BestIncumbent?
    ensures MovedSoFar(run, ranks, base, cs, k, c, n)
  {
    ListedSnoc(cs, k, c, n);
    ListedCompared(cs[..n - 1], k, c);
    MoveStep(run, ranks, base, ListedAt(cs[..n - 1], k, c), cs[..n - 1], c, cs[n - 1]);
  }

  /** One row further: the moved comparison left the incumbent alone, and the previous shot from the next row on. */
  lemma MoveStep(run: RunId, ranks: map<ShotId, nat>, base: ShotId, moved: seq<Comparison>, kept: seq<Comparison>, c: Comparison, e: Comparison)
    requires LegalChain(run, ranks, base, moved) && Legal(run, ranks, base, kept, e)
    requires HeadAfter(base, moved).incumbent == HeadAfter(base, kept).incumbent
    requires HeadAfter(base, moved) == HeadAfter(base, kept) || e.mode.BestIncumbent?
    requires Compared(moved) == Compared(kept) + {c.newShot} && e.newShot != c.newShot
    ensures LegalChain(run, ranks, base, moved + [e])
    ensures HeadAfter(base, moved + [e]) == HeadAfter(base, kept + [e])
  {
    HeadAppend(base, moved, e);
    HeadAppend(base, kept, e);
    ChainAppend(run, ranks, base, moved, e);
  }

  lemma ComparedIn(cs: seq<Comparison>, i: nat)
    requires i < |cs|
    ensures cs[i].newShot in Compared(cs)
  {
  }

  lemma {:induction false} ChainPrefix(run: RunId, ranks: map<ShotId, nat>, base: ShotId, cs: seq<Comparison>, k: nat)
    requires LegalChain(run, ranks, base, cs) && k <= |cs|
    ensures LegalChain(run, ranks, base, cs[..k])
  {
    if k == |cs| {
      assert cs[..k] == cs;
    } else {
      ChainPrefix(run, ranks, base, cs[..|cs| - 1], k);
      assert cs[..|cs| - 1][..k] == cs[..k];
    }
  }

  /** The rows a repository lists after committing a legal judgement whose key does not sort last: the chain survives exactly when
      it may move to where its key puts it, and never when it was given against the previous shot. */
  lemma EarlierKeyBreaksTheChain(run: RunId, ranks: map<ShotId, nat>, base: ShotId, cs: seq<Comparison>, c: Comparison) returns (k: nat)
    requires LegalChain(run, ranks, base, cs) && Legal(run, ranks, base, cs, c) && Outranked(ranks, base)
    requires cs != [] && !Before(cs[|cs| - 1], c)
    ensures k < |cs| && InsertByKey(cs, c) == ListedAt(cs, k, c)
    ensures LegalChain(run, ranks, base, InsertByKey(cs, c)) <==> MayMove(base, cs, k, c)
    ensures c.mode.GlobalPrevious? ==> !LegalChain(run, ranks, base, InsertByKey(cs, c))
  {
    k := InsertedAt(cs, c);
    EarlierKeyCondition(run, ranks, base, cs, k, c);
  }
}
