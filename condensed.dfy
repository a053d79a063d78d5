/** The condensed ordering of unordered index pairs used by a pairwise-distance
    vector: (0,1), (0,2), ..., (0,n-1), (1,2), ..., (n-2,n-1). */
module Condensed {

  /** The pairs of row i: (i, i+1), ..., (i, n-1). */
  function RowPairs(i: nat, n: nat): (r: seq<(nat, nat)>)
    ensures |r| == if i < n then n - i - 1 else 0
    ensures forall k :: 0 <= k < |r| ==> r[k] == (i, i + 1 + k)
  {
    if i < n then seq(n - i - 1, k requires 0 <= k < n - i - 1 => (i, i + 1 + k)) else []
  }

  /** The pairs of rows i, i+1, ..., n-1, in condensed order. */
  function PairsFrom(i: nat, n: nat): (r: seq<(nat, nat)>)
    decreases n - i
    ensures forall k :: 0 <= k < |r| ==> i <= r[k].0 < r[k].1 < n
  {
    if i >= n then [] else RowPairs(i, n) + PairsFrom(i + 1, n)
  }

  /** Every unordered pair of distinct indices below n, in condensed order. */
  function Pairs(n: nat): (r: seq<(nat, nat)>)
    ensures forall k :: 0 <= k < |r| ==> r[k].0 < r[k].1 < n
  {
    PairsFrom(0, n)
  }

  /** Number of pairs that come before row i. */
  function Before(n: nat, i: nat): nat
  {
    if i == 0 || i > n then 0 else Before(n, i - 1) + (n - i)
  }

  /** Position of the pair (i, j) in the condensed vector. */
  function CondensedIndex(n: nat, i: nat, j: nat): nat
    requires i < j < n
  {
    Before(n, i) + (j - i - 1)
  }

  /** Strict lexicographic order on pairs. */
  predicate LexLess(p: (nat, nat), q: (nat, nat))
  {
    p.0 < q.0 || (p.0 == q.0 && p.1 < q.1)
  }

  lemma {:induction false} BeforeClosedForm(n: nat, i: nat)
    requires i <= n
    ensures 2 * Before(n, i) == i * (2 * n - i - 1)
  {
    if i > 0 {
      BeforeClosedForm(n, i - 1);
    }
  }

  /** The index agrees with the closed form n*i + j - (i+2)(i+1)/2. */
  lemma CondensedIndexClosedForm(n: nat, i: nat, j: nat)
    requires i < j < n
    ensures CondensedIndex(n, i, j) == n * i + j - ((i + 2) * (i + 1)) / 2
  {
    BeforeClosedForm(n, i);
    var m := n * i - Before(n, i) + i + 1;
    assert (i + 2) * (i + 1) == 2 * m;
    assert (2 * m) / 2 == m;
  }

  lemma {:induction false} PairsFromLength(i: nat, n: nat)
    requires i <= n
    ensures |PairsFrom(i, n)| == Before(n, n) - Before(n, i)
    decreases n - i
  {
    if i < n {
      PairsFromLength(i + 1, n);
      BeforeStep(n, i);
    }
  }

  lemma BeforeStep(n: nat, i: nat)
    requires i < n
    ensures Before(n, i + 1) == Before(n, i) + (n - i - 1)
  {
  }

  lemma {:induction false} BeforeMono(n: nat, i: nat, j: nat)
    requires i <= j <= n
    ensures Before(n, i) <= Before(n, j)
    decreases j - i
  {
    if i < j {
      BeforeMono(n, i, j - 1);
    }
  }

  /** There are n(n-1)/2 pairs. */
  lemma PairsLength(n: nat)
    ensures 2 * |Pairs(n)| == n * (n - 1)
  {
    PairsFromLength(0, n);
    BeforeClosedForm(n, n);
  }

  lemma {:induction false} PairsFromAt(i0: nat, n: nat, i: nat, j: nat)
    requires i0 <= i < j < n
    ensures Before(n, i0) <= Before(n, i)
    ensures CondensedIndex(n, i, j) - Before(n, i0) < |PairsFrom(i0, n)|
    ensures PairsFrom(i0, n)[CondensedIndex(n, i, j) - Before(n, i0)] == (i, j)
    decreases i - i0
  {
    BeforeMono(n, i0, i);
    PairsFromLength(i0, n);
    BeforeMono(n, i + 1, n);
    BeforeStep(n, i);
    if i0 < i {
      PairsFromAt(i0 + 1, n, i, j);
      BeforeStep(n, i0);
    }
  }

  /** Every pair i < j < n sits at CondensedIndex(n, i, j). */
  lemma PairsAt(n: nat, i: nat, j: nat)
    requires i < j < n
    ensures CondensedIndex(n, i, j) < |Pairs(n)|
    ensures Pairs(n)[CondensedIndex(n, i, j)] == (i, j)
  {
    PairsFromAt(0, n, i, j);
  }

  lemma {:induction false} PairsFromSorted(i: nat, n: nat, k: nat, l: nat)
    requires k < l < |PairsFrom(i, n)|
    ensures LexLess(PairsFrom(i, n)[k], PairsFrom(i, n)[l])
    decreases n - i
  {
    var row := RowPairs(i, n);
    if l >= |row| && k >= |row| {
      PairsFromSorted(i + 1, n, k - |row|, l - |row|);
    }
  }

  /** The pairs are strictly increasing in lexicographic order, so each
      appears once. */
  lemma PairsSorted(n: nat, k: nat, l: nat)
    requires k < l < |Pairs(n)|
    ensures LexLess(Pairs(n)[k], Pairs(n)[l])
  {
    PairsFromSorted(0, n, k, l);
  }

  /** Two points give exactly one pair; a set with fewer than two gives none. */
  lemma PairsSmall(n: nat)
    ensures n < 2 ==> Pairs(n) == []
    ensures n >= 2 ==> |Pairs(n)| >= 1 && Pairs(n)[0] == (0, 1)
  {
  }
}
