/** Reversals of reversals: every ledger row belongs to one chain, and the balance is what the odd chains say. */
module Reversals {
  import opened Totals
  import opened Ledger

  /** The row a chain of reversals started from. */
  function Root(es: seq<Entry>, i: nat): (r: nat)
    requires i < |es|
    ensures r <= i
  {
    var reversed := es[i].reverses;
    if reversed.Some? && reversed.value < i then Root(es, reversed.value) else i
  }

  /** How many reversals lead from the root to a row. */
  function Depth(es: seq<Entry>, i: nat): nat
    requires i < |es|
  {
    var reversed := es[i].reverses;
    if reversed.Some? && reversed.value < i then Depth(es, reversed.value) + 1 else 0
  }

  /** The number of rows among the first n whose chain starts at r. */
  function ChainLength(es: seq<Entry>, n: nat, r: nat): nat
    requires n <= |es|
  {
    if n == 0 then 0 else ChainLength(es, n - 1, r) + if Root(es, n - 1) == r then 1 else 0
  }

  /** The signed sum of those rows. */
  function ChainSum(es: seq<Entry>, n: nat, r: nat): int
    requires n <= |es|
  {
    if n == 0 then 0 else ChainSum(es, n - 1, r) + if Root(es, n - 1) == r then Signed(es[n - 1]) else 0
  }

  /** The last of those rows. */
  function ChainEnd(es: seq<Entry>, n: nat, r: nat): nat
    requires n <= |es|
  {
    if n == 0 then 0 else if Root(es, n - 1) == r then n - 1 else ChainEnd(es, n - 1, r)
  }

  lemma {:induction false} SoundAt(es: seq<Entry>, i: nat)
    requires SoundEntries(es) && i < |es|
    ensures SoundReversal(es[..i], es[i]) && es[i].version == i + 1
  {
    SoundPrefix(es, i + 1);
    assert es[..i + 1][..i] == es[..i] && es[..i + 1][i] == es[i];
  }

  /** Chains do not cycle: a reversal comes after the row it reverses, with the same amount the other way. */
  lemma ReversalIsLater(log: seq<Request>, i: nat)
    requires i < |After(log).entries| && After(log).entries[i].reverses.Some?
    ensures var es := After(log).entries; var j := es[i].reverses.value;
      j < i && es[j].version < es[i].version && Signed(es[i]) == -Signed(es[j])
  {
    AlwaysSound(log);
    SoundAt(After(log).entries, i);
    SoundAt(After(log).entries, After(log).entries[i].reverses.value);
  }

  lemma AtMostOneReversal(log: seq<Request>, i: nat, j: nat)
    requires i < j < |After(log).entries| && After(log).entries[i].reverses.Some?
    ensures After(log).entries[i].reverses != After(log).entries[j].reverses
  {
    var es := After(log).entries;
    AlwaysSound(log);
    SoundAt(es, j);
    ReversalFoundIffPresent(es[..j], es[i].reverses.value);
    assert es[..j][i] == es[i];
  }

  /** Along a chain the sign alternates and the amount stays. */
  lemma {:induction false} SignByDepth(es: seq<Entry>, i: nat)
    requires SoundEntries(es) && i < |es|
    ensures Signed(es[i]) == if Depth(es, i) % 2 == 0 then Signed(es[Root(es, i)]) else -Signed(es[Root(es, i)])
  {
    SoundAt(es, i);
    var reversed := es[i].reverses;
    if reversed.Some? && reversed.value < i { SignByDepth(es, reversed.value); }
  }

  lemma {:induction false} RootIsOriginal(es: seq<Entry>, i: nat)
    requires SoundEntries(es) && i < |es|
    ensures es[Root(es, i)].reverses.None?
  {
    SoundAt(es, i);
    var reversed := es[i].reverses;
    if reversed.Some? && reversed.value < i { RootIsOriginal(es, reversed.value); }
  }

  /** Every row of a chain but its last has been reversed within it. */
  ghost predicate OnlyEndOpen(es: seq<Entry>, n: nat, r: nat)
    requires n <= |es|
  {
    forall i :: 0 <= i < n && Root(es, i) == r && i != ChainEnd(es, n, r) ==> FindReversal(es[..n], i).Some?
  }

  lemma ChainStarts(es: seq<Entry>, r: nat)
    requires r < |es| && es[r].reverses.None?
    ensures OnlyEndOpen(es, r + 1, r) && ChainEnd(es, r + 1, r) == r && Root(es, r) == r
  {
  }

  lemma {:induction false} ChainGrows(es: seq<Entry>, n: nat, r: nat)
    requires SoundEntries(es) && r < n < |es| && es[r].reverses.None?
    requires OnlyEndOpen(es, n, r) && ChainEnd(es, n, r) < n && Root(es, ChainEnd(es, n, r)) == r
    ensures OnlyEndOpen(es, n + 1, r) && ChainEnd(es, n + 1, r) <= n && Root(es, ChainEnd(es, n + 1, r)) == r
    ensures Root(es, n) == r ==> es[n].reverses == Some(ChainEnd(es, n, r))
  {
    SoundAt(es, n);
    assert es[..n + 1][..n] == es[..n];
    forall i | 0 <= i < n && FindReversal(es[..n], i).Some? ensures FindReversal(es[..n + 1], i).Some? { }
  }

  lemma {:induction false} ChainShape(es: seq<Entry>, n: nat, r: nat)
    requires SoundEntries(es) && r < n <= |es| && es[r].reverses.None?
    ensures OnlyEndOpen(es, n, r) && ChainEnd(es, n, r) < n && Root(es, ChainEnd(es, n, r)) == r
  {
    if r < n - 1 {
      ChainShape(es, n - 1, r);
      ChainGrows(es, n - 1, r);
    } else {
      ChainStarts(es, r);
    }
  }

  /** The next row of a chain reverses the chain's last row. */
  lemma NextReversesEnd(es: seq<Entry>, n: nat, r: nat)
    requires SoundEntries(es) && r < n < |es| && es[r].reverses.None? && Root(es, n) == r
    ensures es[n].reverses == Some(ChainEnd(es, n, r)) && ChainEnd(es, n, r) < n
    ensures Depth(es, n) == Depth(es, ChainEnd(es, n, r)) + 1
  {
    ChainShape(es, n, r);
    ChainGrows(es, n, r);
  }

  ghost predicate ParityHolds(es: seq<Entry>, n: nat, r: nat)
    requires n <= |es| && r < |es|
  {
    && ChainEnd(es, n, r) < n
    && ChainLength(es, n, r) == Depth(es, ChainEnd(es, n, r)) + 1
    && ChainSum(es, n, r) == if ChainLength(es, n, r) % 2 == 1 then Signed(es[r]) else 0
  }

  lemma ParityStep(es: seq<Entry>, n: nat, r: nat)
    requires SoundEntries(es) && r < n < |es| && es[r].reverses.None? && ParityHolds(es, n, r)
    ensures ParityHolds(es, n + 1, r)
  {
    if Root(es, n) == r {
      NextReversesEnd(es, n, r);
      SignByDepth(es, n);
    }
  }

  /** A chain is as deep as it is long, and its sum is the original amount when the length is odd and zero when it is even. */
  lemma {:induction false} ChainSumByParity(es: seq<Entry>, n: nat, r: nat)
    requires SoundEntries(es) && r < n <= |es| && es[r].reverses.None?
    ensures ParityHolds(es, n, r)
  {
    if r == n - 1 {
      NotYetStarted(es, n - 1, r);
    } else {
      ChainSumByParity(es, n - 1, r);
      ParityStep(es, n - 1, r);
    }
  }

  lemma {:induction false} NotYetStarted(es: seq<Entry>, n: nat, r: nat)
    requires n <= r < |es|
    ensures ChainLength(es, n, r) == 0 && ChainSum(es, n, r) == 0
  {
    if 0 < n { NotYetStarted(es, n - 1, r); }
  }

  lemma {:induction false} NoChain(es: seq<Entry>, n: nat, r: nat)
    requires SoundEntries(es) && n <= |es| && r < |es| && es[r].reverses.Some?
    ensures ChainSum(es, n, r) == 0
  {
    if 0 < n {
      RootIsOriginal(es, n - 1);
      NoChain(es, n - 1, r);
    }
  }

  /** The sums of the chains that start below k. */
  function ChainSums(es: seq<Entry>, n: nat, k: nat): int
    requires n <= |es|
  {
    if k == 0 then 0 else ChainSums(es, n, k - 1) + ChainSum(es, n, k - 1)
  }

  /** The signed amounts of the original rows below k whose chain has odd length. */
  function OddChains(es: seq<Entry>, n: nat, k: nat): int
    requires n <= |es| && k <= |es|
  {
    if k == 0 then 0
    else OddChains(es, n, k - 1) + if es[k - 1].reverses.None? && ChainLength(es, n, k - 1) % 2 == 1 then Signed(es[k - 1]) else 0
  }

  lemma {:induction false} OneRowMore(es: seq<Entry>, n: nat, k: nat)
    requires n < |es|
    ensures ChainSums(es, n + 1, k) == ChainSums(es, n, k) + if Root(es, n) < k then Signed(es[n]) else 0
  {
    if 0 < k { OneRowMore(es, n, k - 1); }
  }

  lemma {:induction false} EmptyChains(es: seq<Entry>, k: nat)
    ensures ChainSums(es, 0, k) == 0
  {
    if 0 < k { EmptyChains(es, k - 1); }
  }

  lemma {:induction false} RowsByChain(es: seq<Entry>, n: nat)
    requires n <= |es|
    ensures Sum(es[..n]) == ChainSums(es, n, |es|)
  {
    if n == 0 {
      EmptyChains(es, |es|);
    } else {
      RowsByChain(es, n - 1);
      OneRowMore(es, n - 1, |es|);
      assert es[..n][..n - 1] == es[..n - 1];
    }
  }

  lemma {:induction false} ChainsByParity(es: seq<Entry>, k: nat)
    requires SoundEntries(es) && k <= |es|
    ensures ChainSums(es, |es|, k) == OddChains(es, |es|, k)
  {
    if 0 < k {
      ChainsByParity(es, k - 1);
      if es[k - 1].reverses.None? { ChainSumByParity(es, |es|, k - 1); } else { NoChain(es, |es|, k - 1); }
    }
  }

  /** The balance is the sum of the original rows that an even number of reversals has left standing. */
  lemma BalanceIsOddChains(log: seq<Request>)
    ensures After(log).balance == OddChains(After(log).entries, |After(log).entries|, |After(log).entries|)
  {
    var es := After(log).entries;
    AlwaysSound(log);
    assert es[..|es|] == es;
    RowsByChain(es, |es|);
    ChainsByParity(es, |es|);
  }
}
