/** Laws of legal chains, of the filter that restores them, and of the incumbent they lead to. */
module HistoryLaws {
  import opened Prelude
  import opened RecipeSpace
  import opened Cpbo
  import opened History

  /** Rows of a shot table as the service writes them: consecutive sequence numbers, distinct identifiers. */
  predicate ShotRows(shots: seq<Shot>)
  {
    && (forall i :: 0 <= i < |shots| ==> shots[i].sequence == i + 1)
    && (forall i, j :: 0 <= i < j < |shots| ==> shots[i].id != shots[j].id)
  }

  /** Two tables that differ in recipes, observations and notes only. */
  predicate SameOutline(a: seq<Shot>, b: seq<Shot>)
  {
    && |a| == |b|
    && forall i :: 0 <= i < |a| ==> a[i].id == b[i].id && a[i].sequence == b[i].sequence && a[i].status == b[i].status
  }

  predicate SomeValid(shots: seq<Shot>) { exists i :: 0 <= i < |shots| && shots[i].status.Valid? }

  lemma {:induction false} ValidShots(shots: seq<Shot>)
    requires ShotRows(shots)
    ensures forall i :: 0 <= i < |shots| && shots[i].status.Valid? ==> shots[i].id in ValidById(shots) && ValidById(shots)[shots[i].id] == shots[i]
    ensures forall k :: k in ValidById(shots) ==> exists i :: 0 <= i < |shots| && shots[i].id == k && shots[i].status.Valid?
  {
    if shots != [] {
      var init := shots[..|shots| - 1];
      ValidShots(init);
      forall i | 0 <= i < |shots| && shots[i].status.Valid?
        ensures shots[i].id in ValidById(shots) && ValidById(shots)[shots[i].id] == shots[i]
      {
        if i < |init| {
          assert init[i] == shots[i];
        }
      }
      forall k | k in ValidById(shots)
        ensures exists i :: 0 <= i < |shots| && shots[i].id == k && shots[i].status.Valid?
      {
        if k in ValidById(init) {
          var i :| 0 <= i < |init| && init[i].id == k && init[i].status.Valid?;
          assert shots[i].id == k;
        }
      }
    }
  }

  lemma ShotInValid(shots: seq<Shot>, i: nat)
    requires ShotRows(shots) && i < |shots|
    ensures shots[i].id in Ranks(shots) <==> shots[i].status.Valid?
    ensures shots[i].status.Valid? ==> ValidById(shots)[shots[i].id] == shots[i] && Ranks(shots)[shots[i].id] == i + 1
  {
    ValidShots(shots);
  }

  /** The baseline is the earliest valid shot. */
  lemma BaselineIsFirst(shots: seq<Shot>)
    requires ShotRows(shots)
    ensures Baseline(shots).Some? <==> SomeValid(shots)
    ensures Baseline(shots).Some? ==>
      var base := Baseline(shots).value;
      base in Ranks(shots) && forall k :: k in Ranks(shots) ==> Ranks(shots)[base] <= Ranks(shots)[k]
    ensures Baseline(shots).None? ==> Ranks(shots) == map[]
  {
    BaselineAt(shots);
    ValidShots(shots);
    if Baseline(shots).Some? {
      var b :| 0 <= b < |shots| && shots[b].id == Baseline(shots).value && shots[b].status.Valid?
               && forall j :: 0 <= j < b ==> !shots[j].status.Valid?;
    }
  }

  lemma {:induction false} BaselineAt(shots: seq<Shot>)
    ensures Baseline(shots).None? ==> !SomeValid(shots)
    ensures Baseline(shots).Some? ==>
      exists b :: 0 <= b < |shots| && shots[b].id == Baseline(shots).value && shots[b].status.Valid?
                  && forall j :: 0 <= j < b ==> !shots[j].status.Valid?
  {
    if shots != [] {
      var init := shots[..|shots| - 1];
      BaselineAt(init);
      if Baseline(init).Some? {
        var b :| 0 <= b < |init| && init[b].id == Baseline(init).value && init[b].status.Valid?
                 && forall j :: 0 <= j < b ==> !init[j].status.Valid?;
        assert shots[b] == init[b];
      } else {
        forall j | 0 <= j < |init|
          ensures !shots[j].status.Valid?
        {
          assert shots[j] == init[j];
        }
      }
    }
  }

  lemma AppendShot(shots: seq<Shot>, s: Shot)
    ensures ValidById(shots + [s]) == if s.status.Valid? then ValidById(shots)[s.id := s] else ValidById(shots)
    ensures Baseline(shots + [s]) ==
      if Baseline(shots).Some? then Baseline(shots) else if s.status.Valid? then Some(s.id) else None
  {
    assert (shots + [s])[..|shots|] == shots;
  }

  lemma OutlineDecides(a: seq<Shot>, b: seq<Shot>)
    requires SameOutline(a, b)
    ensures ValidById(a).Keys == ValidById(b).Keys
    ensures Ranks(a) == Ranks(b) && Baseline(a) == Baseline(b)
  {
    OutlineKeys(a, b);
    assert forall k :: k in Ranks(a) ==> Ranks(a)[k] == Ranks(b)[k];
  }

  lemma {:induction false} OutlineKeys(a: seq<Shot>, b: seq<Shot>)
    requires SameOutline(a, b)
    ensures ValidById(a).Keys == ValidById(b).Keys && Baseline(a) == Baseline(b)
    ensures forall k :: k in ValidById(a) ==> ValidById(a)[k].sequence == ValidById(b)[k].sequence
  {
    if a != [] {
      OutlineKeys(a[..|a| - 1], b[..|b| - 1]);
    }
  }

  lemma HeadAppend(base: ShotId, cs: seq<Comparison>, c: Comparison)
    ensures HeadAfter(base, cs + [c]) == Advance(HeadAfter(base, cs), c)
    ensures Compared(cs + [c]) == Compared(cs) + {c.newShot}
  {
    assert (cs + [c])[..|cs|] == cs;
    forall k | k in Compared(cs) + {c.newShot}
      ensures k in Compared(cs + [c])
    {
      if k in Compared(cs) {
        var d :| d in cs && d.newShot == k;
        assert d in cs + [c];
      } else {
        assert c in cs + [c];
      }
    }
  }

  lemma ComparedSplit(cs: seq<Comparison>)
    requires cs != []
    ensures Compared(cs) == Compared(cs[..|cs| - 1]) + {cs[|cs| - 1].newShot}
  {
    HeadAppend(0, cs[..|cs| - 1], cs[|cs| - 1]);
    assert cs == cs[..|cs| - 1] + [cs[|cs| - 1]];
  }

  lemma {:induction false} HeadIsCompared(base: ShotId, cs: seq<Comparison>)
    ensures HeadAfter(base, cs).previous in Compared(cs) + {base}
    ensures HeadAfter(base, cs).incumbent in Compared(cs) + {base}
  {
    if cs != [] {
      HeadIsCompared(base, cs[..|cs| - 1]);
      ComparedSplit(cs);
    }
  }

  lemma ChainAppend(run: RunId, ranks: map<ShotId, nat>, base: ShotId, cs: seq<Comparison>, c: Comparison)
    ensures LegalChain(run, ranks, base, cs + [c]) <==> LegalChain(run, ranks, base, cs) && Legal(run, ranks, base, cs, c)
  {
    assert (cs + [c])[..|cs|] == cs;
  }

  /** Every comparison of a legal chain is legal after the prefix before it. */
  lemma {:induction false} ChainAt(run: RunId, ranks: map<ShotId, nat>, base: ShotId, cs: seq<Comparison>, i: nat)
    requires LegalChain(run, ranks, base, cs) && i < |cs|
    ensures Legal(run, ranks, base, cs[..i], cs[i])
  {
    if i < |cs| - 1 {
      ChainAt(run, ranks, base, cs[..|cs| - 1], i);
      assert cs[..|cs| - 1][..i] == cs[..i];
    }
  }

  lemma ChainIsValid(run: RunId, ranks: map<ShotId, nat>, base: ShotId, cs: seq<Comparison>)
    requires LegalChain(run, ranks, base, cs) && base in ranks
    ensures Compared(cs) <= ranks.Keys
    ensures HeadAfter(base, cs).previous in ranks && HeadAfter(base, cs).incumbent in ranks
  {
    HeadIsCompared(base, cs);
    forall k | k in Compared(cs)
      ensures k in ranks
    {
      var c :| c in cs && c.newShot == k;
      var i :| 0 <= i < |cs| && cs[i] == c;
      ChainAt(run, ranks, base, cs, i);
    }
  }

  /** A chain stays legal when shots are added, and its head does not depend on them. */
  lemma {:induction false} ChainSurvivesMoreShots(run: RunId, ranks: map<ShotId, nat>, more: map<ShotId, nat>, base: ShotId, cs: seq<Comparison>)
    requires LegalChain(run, ranks, base, cs)
    requires forall k :: k in ranks ==> k in more && more[k] == ranks[k]
    ensures LegalChain(run, more, base, cs)
  {
    if cs != [] {
      ChainSurvivesMoreShots(run, ranks, more, base, cs[..|cs| - 1]);
    }
  }

  // ----- the filter -----

  lemma {:induction false} RetainedIsLegal(run: RunId, ranks: map<ShotId, nat>, base: ShotId, cs: seq<Comparison>)
    ensures LegalChain(run, ranks, base, Retained(run, ranks, base, cs))
  {
    if cs != [] {
      var init, c := cs[..|cs| - 1], cs[|cs| - 1];
      RetainedIsLegal(run, ranks, base, init);
      ChainAppend(run, ranks, base, Retained(run, ranks, base, init), c);
    }
  }

  /** A history is unchanged by the filter exactly when it is a legal chain. */
  lemma {:induction false} RetainedIsIdentity(run: RunId, ranks: map<ShotId, nat>, base: ShotId, cs: seq<Comparison>)
    ensures Retained(run, ranks, base, cs) == cs <==> LegalChain(run, ranks, base, cs)
  {
    RetainedIsLegal(run, ranks, base, cs);
    if cs != [] && LegalChain(run, ranks, base, cs) {
      var init, c := cs[..|cs| - 1], cs[|cs| - 1];
      RetainedIsIdentity(run, ranks, base, init);
    }
  }

  lemma {:induction false} RetainedIsIdempotent(run: RunId, ranks: map<ShotId, nat>, base: ShotId, cs: seq<Comparison>)
    ensures var kept := Retained(run, ranks, base, cs); Retained(run, ranks, base, kept) == kept
  {
    RetainedIsLegal(run, ranks, base, cs);
    RetainedIsIdentity(run, ranks, base, Retained(run, ranks, base, cs));
  }

  /** The elements of a history that a mask keeps, in order. */
  function Chosen(cs: seq<Comparison>, keep: seq<bool>): seq<Comparison>
    requires |keep| == |cs|
  {
    if cs == [] then []
    else
      var earlier := Chosen(cs[..|cs| - 1], keep[..|cs| - 1]);
      if keep[|cs| - 1] then earlier + [cs[|cs| - 1]] else earlier
  }

  /** The mask keeps exactly the comparisons that are legal after what it kept before them. */
  predicate KeepsExactlyLegal(run: RunId, ranks: map<ShotId, nat>, base: ShotId, cs: seq<Comparison>, keep: seq<bool>)
  {
    && |keep| == |cs|
    && forall i :: 0 <= i < |cs| ==> (keep[i] <==> Legal(run, ranks, base, Chosen(cs[..i], keep[..i]), cs[i]))
  }

  /** The filter returns the unique subsequence with that property. */
  lemma {:induction false} RetainedIsUnique(run: RunId, ranks: map<ShotId, nat>, base: ShotId, cs: seq<Comparison>, keep: seq<bool>)
    requires KeepsExactlyLegal(run, ranks, base, cs, keep)
    ensures Chosen(cs, keep) == Retained(run, ranks, base, cs)
  {
    if cs != [] {
      var n := |cs| - 1;
      PrefixKeepsLegal(run, ranks, base, cs, keep, n);
      RetainedIsUnique(run, ranks, base, cs[..n], keep[..n]);
      assert keep[n] <==> Legal(run, ranks, base, Chosen(cs[..n], keep[..n]), cs[n]);
    }
  }

  lemma PrefixKeepsLegal(run: RunId, ranks: map<ShotId, nat>, base: ShotId, cs: seq<Comparison>, keep: seq<bool>, n: nat)
    requires KeepsExactlyLegal(run, ranks, base, cs, keep) && n <= |cs|
    ensures KeepsExactlyLegal(run, ranks, base, cs[..n], keep[..n])
  {
    forall i | 0 <= i < n
      ensures keep[..n][i] <==> Legal(run, ranks, base, Chosen(cs[..n][..i], keep[..n][..i]), cs[..n][i])
    {
      assert cs[..n][..i] == cs[..i] && keep[..n][..i] == keep[..i];
    }
  }

  lemma {:induction false} RetainedIsChosen(run: RunId, ranks: map<ShotId, nat>, base: ShotId, cs: seq<Comparison>) returns (keep: seq<bool>)
    ensures KeepsExactlyLegal(run, ranks, base, cs, keep) && Chosen(cs, keep) == Retained(run, ranks, base, cs)
  {
    if cs == [] {
      keep := [];
    } else {
      var n := |cs| - 1;
      var earlier := RetainedIsChosen(run, ranks, base, cs[..n]);
      keep := earlier + [Legal(run, ranks, base, Retained(run, ranks, base, cs[..n]), cs[n])];
      assert keep[..n] == earlier;
      forall i | 0 <= i < |cs|
        ensures keep[i] <==> Legal(run, ranks, base, Chosen(cs[..i], keep[..i]), cs[i])
      {
        if i < n {
          assert cs[..n][..i] == cs[..i] && earlier[..i] == keep[..i];
        }
      }
    }
  }

  predicate Subsequence(a: seq<Comparison>, b: seq<Comparison>)
  {
    if a == [] then true
    else if b == [] then false
    else if a[|a| - 1] == b[|b| - 1] && Subsequence(a[..|a| - 1], b[..|b| - 1]) then true
    else Subsequence(a, b[..|b| - 1])
  }

  lemma {:induction false} RetainedIsSubsequence(run: RunId, ranks: map<ShotId, nat>, base: ShotId, cs: seq<Comparison>)
    ensures Subsequence(Retained(run, ranks, base, cs), cs)
  {
    if cs != [] {
      RetainedIsSubsequence(run, ranks, base, cs[..|cs| - 1]);
    }
  }

  /** What every subsequence inherits: its members, their order and their distinctness. */
  lemma SubsequenceInherits(a: seq<Comparison>, b: seq<Comparison>)
    requires Subsequence(a, b)
    ensures forall c :: c in a ==> c in b
    ensures Compared(a) <= Compared(b)
    ensures (forall i, j :: 0 <= i < j < |b| ==> Before(b[i], b[j])) ==> (forall i, j :: 0 <= i < j < |a| ==> Before(a[i], a[j]))
    ensures (forall i, j :: 0 <= i < j < |b| ==> b[i].id != b[j].id) ==> (forall i, j :: 0 <= i < j < |a| ==> a[i].id != a[j].id)
  {
    var at := SubsequenceAt(a, b);
    forall c | c in a
      ensures c in b
    {
      var i :| 0 <= i < |a| && a[i] == c;
      assert b[at[i]] == c;
    }
  }

  lemma {:induction false} SubsequenceAt(a: seq<Comparison>, b: seq<Comparison>) returns (at: seq<nat>)
    requires Subsequence(a, b)
    ensures |at| == |a| && forall i :: 0 <= i < |a| ==> at[i] < |b| && b[at[i]] == a[i]
    ensures forall i, j :: 0 <= i < j < |at| ==> at[i] < at[j]
  {
    if a == [] {
      at := [];
    } else if a[|a| - 1] == b[|b| - 1] && Subsequence(a[..|a| - 1], b[..|b| - 1]) {
      var earlier := SubsequenceAt(a[..|a| - 1], b[..|b| - 1]);
      at := earlier + [|b| - 1];
    } else {
      at := SubsequenceAt(a, b[..|b| - 1]);
    }
  }

  // ----- what the incumbent means -----

  /** Won comparisons that lead from shot a to shot z, each new shot being the next anchor, with increasing ranks. */
  predicate WinsLeadTo(wins: seq<Comparison>, ranks: map<ShotId, nat>, a: ShotId, z: ShotId)
  {
    if wins == [] then a == z
    else
      var last := wins[|wins| - 1];
      && last.newShot == z && last.preference.NewBetter?
      && last.anchor in ranks && z in ranks && ranks[last.anchor] < ranks[z]
      && WinsLeadTo(wins[..|wins| - 1], ranks, a, last.anchor)
  }

  lemma SubsequenceWeaken(a: seq<Comparison>, b: seq<Comparison>, c: Comparison)
    requires Subsequence(a, b)
    ensures Subsequence(a, b + [c]) && Subsequence(a + [c], b + [c])
  {
    assert (b + [c])[..|b|] == b && (a + [c])[..|a|] == a;
  }

  /** The incumbent is reached from the baseline by won comparisons with strictly increasing sequence numbers. */
  lemma {:induction false} IncumbentIsReached(run: RunId, ranks: map<ShotId, nat>, base: ShotId, cs: seq<Comparison>) returns (wins: seq<Comparison>)
    requires LegalChain(run, ranks, base, cs)
    ensures Subsequence(wins, cs) && WinsLeadTo(wins, ranks, base, HeadAfter(base, cs).incumbent)
  {
    if cs == [] {
      wins := [];
    } else {
      var init, c := cs[..|cs| - 1], cs[|cs| - 1];
      var earlier := IncumbentIsReached(run, ranks, base, init);
      SubsequenceWeaken(earlier, init, c);
      assert init + [c] == cs;
      if c.preference.NewBetter? && c.anchor == HeadAfter(base, init).incumbent {
        wins := earlier + [c];
        assert wins[..|wins| - 1] == earlier;
      } else {
        wins := earlier;
      }
    }
  }

  /** How many comparisons there are up to and including the last won one. */
  function LastWin(cs: seq<Comparison>): (n: nat)
    ensures n <= |cs| && (n > 0 ==> cs[n - 1].preference.NewBetter?)
    ensures forall i :: n <= i < |cs| ==> !cs[i].preference.NewBetter?
  {
    if cs == [] then 0 else if cs[|cs| - 1].preference.NewBetter? then |cs| else LastWin(cs[..|cs| - 1])
  }

  /** In a best-incumbent history the incumbent is the new shot of the last won comparison, else the baseline. */
  lemma {:induction false} BestIncumbentIsLastWin(run: RunId, ranks: map<ShotId, nat>, base: ShotId, cs: seq<Comparison>)
    requires LegalChain(run, ranks, base, cs)
    requires forall i :: 0 <= i < |cs| ==> cs[i].mode.BestIncumbent?
    ensures HeadAfter(base, cs).incumbent == if LastWin(cs) == 0 then base else cs[LastWin(cs) - 1].newShot
  {
    if cs != [] {
      var init, c := cs[..|cs| - 1], cs[|cs| - 1];
      BestIncumbentIsLastWin(run, ranks, base, init);
    }
  }

  /** The number of won comparisons before the first that was not won. */
  function WinningPrefix(cs: seq<Comparison>): (n: nat)
    ensures n <= |cs| && forall i :: 0 <= i < n ==> cs[i].preference.NewBetter?
    ensures n < |cs| ==> !cs[n].preference.NewBetter?
  {
    if cs == [] then 0
    else
      var n := WinningPrefix(cs[..|cs| - 1]);
      if n == |cs| - 1 && cs[n].preference.NewBetter? then n + 1 else n
  }

  lemma ComparedOutrankBase(run: RunId, ranks: map<ShotId, nat>, base: ShotId, cs: seq<Comparison>)
    requires LegalChain(run, ranks, base, cs) && base in ranks
    requires forall k :: k in ranks ==> ranks[base] <= ranks[k]
    ensures forall k :: k in Compared(cs) ==> k in ranks && ranks[base] < ranks[k]
  {
    forall k | k in Compared(cs)
      ensures k in ranks && ranks[base] < ranks[k]
    {
      var c :| c in cs && c.newShot == k;
      var i :| 0 <= i < |cs| && cs[i] == c;
      ChainAt(run, ranks, base, cs, i);
    }
  }

  /** In a global-previous history the incumbent is the end of the longest all-won prefix. */
  lemma {:induction false} GlobalIncumbentEndsWinningPrefix(run: RunId, ranks: map<ShotId, nat>, base: ShotId, cs: seq<Comparison>)
    requires LegalChain(run, ranks, base, cs) && base in ranks
    requires forall k :: k in ranks ==> ranks[base] <= ranks[k]
    requires forall i :: 0 <= i < |cs| ==> cs[i].mode.GlobalPrevious?
    ensures var n := WinningPrefix(cs);
      && HeadAfter(base, cs).incumbent == (if n == 0 then base else cs[n - 1].newShot)
      && (HeadAfter(base, cs).previous == HeadAfter(base, cs).incumbent <==> n == |cs|)
  {
    if cs != [] {
      var init, c := cs[..|cs| - 1], cs[|cs| - 1];
      GlobalIncumbentEndsWinningPrefix(run, ranks, base, init);
      HeadIsCompared(base, init);
      ComparedOutrankBase(run, ranks, base, cs);
      ComparedSplit(cs);
      if WinningPrefix(init) == |init| {
        assert WinningPrefix(cs) == if c.preference.NewBetter? then |cs| else |init|;
      } else {
        assert WinningPrefix(cs) == WinningPrefix(init);
      }
    }
  }
}
