/** A list built by appending equally long blocks one after the other, and
    where each element of it comes from; and a two-level version, a grid of
    blocks f(t, d) appended line by line. */
module Blocks {

  /** a copies of b added together. Lengths of repeated blocks are stated
      with it so that the solver reasons linearly; TimesIsProduct relates it
      to a * b. */
  function Times(a: nat, b: nat): nat
  {
    if a == 0 then 0 else Times(a - 1, b) + b
  }

  lemma {:induction false} TimesIsProduct(a: nat, b: nat)
    ensures Times(a, b) == a * b
  {
    if a > 0 {
      TimesIsProduct(a - 1, b);
    }
  }

  lemma {:induction false} TimesMono(a: nat, b: nat, c: nat)
    requires a <= b
    ensures Times(a, c) <= Times(b, c)
    decreases b - a
  {
    if a < b {
      TimesMono(a, b - 1, c);
    }
  }

  /** The blocks appended in order. */
  function Concat<T>(blocks: seq<seq<T>>): seq<T>
  {
    if blocks == [] then [] else Concat(blocks[..|blocks| - 1]) + blocks[|blocks| - 1]
  }

  /** Every block has b elements. */
  predicate Uniform<T>(blocks: seq<seq<T>>, b: nat)
  {
    forall i :: 0 <= i < |blocks| ==> |blocks[i]| == b
  }

  /** Appending one more block. */
  lemma ConcatSnoc<T>(blocks: seq<seq<T>>, k: nat)
    requires k < |blocks|
    ensures Concat(blocks[..k + 1]) == Concat(blocks[..k]) + blocks[k]
  {
    assert blocks[..k + 1][..k] == blocks[..k];
  }

  lemma {:induction false} ConcatLength<T>(blocks: seq<seq<T>>, b: nat)
    requires Uniform(blocks, b)
    ensures |Concat(blocks)| == Times(|blocks|, b)
  {
    if blocks != [] {
      ConcatLength(blocks[..|blocks| - 1], b);
    }
  }

  /** Element j of block i sits at Times(i, b) + j. */
  lemma {:induction false} ConcatAt<T>(blocks: seq<seq<T>>, b: nat, i: nat, j: nat)
    requires Uniform(blocks, b) && i < |blocks| && j < b
    ensures |Concat(blocks)| == Times(|blocks|, b)
    ensures Times(i, b) + j < |Concat(blocks)|
    ensures Concat(blocks)[Times(i, b) + j] == blocks[i][j]
  {
    var last := |blocks| - 1;
    ConcatLength(blocks, b);
    ConcatLength(blocks[..last], b);
    if i < last {
      ConcatAt(blocks[..last], b, i, j);
      TimesMono(i + 1, last, b);
    }
  }

  /** Every element lies in exactly one block, at one offset. */
  lemma {:induction false} ConcatLocate<T>(blocks: seq<seq<T>>, b: nat, k: nat) returns (i: nat, j: nat)
    requires Uniform(blocks, b) && k < |Concat(blocks)|
    ensures i < |blocks| && j < b && k == Times(i, b) + j
  {
    var last := |blocks| - 1;
    ConcatLength(blocks[..last], b);
    if k < |Concat(blocks[..last])| {
      i, j := ConcatLocate(blocks[..last], b, k);
    } else {
      i, j := last, k - Times(last, b);
    }
  }

  /** Positions in the concatenation are ordered by block first. */
  lemma BlockOrder(b: nat, i1: nat, j1: nat, i2: nat, j2: nat)
    requires j1 < b && j2 < b && Times(i1, b) + j1 <= Times(i2, b) + j2
    ensures i1 <= i2
  {
    if i1 > i2 {
      TimesMono(i2 + 1, i1, b);
    }
  }

  /** The blocks f(t, 0), ..., f(t, m - 1) of line t. */
  function LineBlocks<T>(f: (nat, nat) -> seq<T>, t: nat, m: nat): (bs: seq<seq<T>>)
    ensures |bs| == m
  {
    seq(m, d requires 0 <= d < m => f(t, d))
  }

  /** The blocks of line t appended. */
  function Line<T>(f: (nat, nat) -> seq<T>, t: nat, m: nat): seq<T>
  {
    Concat(LineBlocks(f, t, m))
  }

  /** The lines 0, ..., n - 1. */
  function GridLines<T>(f: (nat, nat) -> seq<T>, n: nat, m: nat): (ls: seq<seq<T>>)
    ensures |ls| == n
  {
    seq(n, t requires 0 <= t < n => Line(f, t, m))
  }

  /** The lines appended. */
  function Grid<T>(f: (nat, nat) -> seq<T>, n: nat, m: nat): seq<T>
  {
    Concat(GridLines(f, n, m))
  }

  /** Every block of line t has b elements. */
  ghost predicate UniformLine<T>(f: (nat, nat) -> seq<T>, t: nat, m: nat, b: nat)
  {
    forall d: nat :: d < m ==> |f(t, d)| == b
  }

  /** Every block of the first n lines has b elements. */
  ghost predicate UniformGrid<T>(f: (nat, nat) -> seq<T>, n: nat, m: nat, b: nat)
  {
    forall t: nat, d: nat :: t < n && d < m ==> |f(t, d)| == b
  }

  lemma LineLength<T>(f: (nat, nat) -> seq<T>, t: nat, m: nat, b: nat)
    requires UniformLine(f, t, m, b)
    ensures |Line(f, t, m)| == Times(m, b)
  {
    ConcatLength(LineBlocks(f, t, m), b);
  }

  lemma LinesUniform<T>(f: (nat, nat) -> seq<T>, n: nat, m: nat, b: nat)
    requires UniformGrid(f, n, m, b)
    ensures Uniform(GridLines(f, n, m), Times(m, b))
  {
    forall t | 0 <= t < n ensures |Line(f, t, m)| == Times(m, b) {
      LineLength(f, t, m, b);
    }
  }

  lemma GridLength<T>(f: (nat, nat) -> seq<T>, n: nat, m: nat, b: nat)
    requires UniformGrid(f, n, m, b)
    ensures |Grid(f, n, m)| == Times(n, Times(m, b))
  {
    LinesUniform(f, n, m, b);
    ConcatLength(GridLines(f, n, m), Times(m, b));
  }

  /** Element j of block d of line t sits at Times(d, b) + j in the line. */
  lemma LineAt<T>(f: (nat, nat) -> seq<T>, t: nat, m: nat, b: nat, d: nat, j: nat)
    requires UniformLine(f, t, m, b) && d < m && j < b
    ensures Times(d, b) + j < Times(m, b) == |Line(f, t, m)|
    ensures Line(f, t, m)[Times(d, b) + j] == f(t, d)[j]
  {
    TimesMono(d + 1, m, b);
    ConcatAt(LineBlocks(f, t, m), b, d, j);
  }

  /** Element k of line t sits at Times(t, Times(m, b)) + k in the grid. */
  lemma GridSplit<T>(f: (nat, nat) -> seq<T>, n: nat, m: nat, b: nat, t: nat, k: nat)
    requires UniformGrid(f, n, m, b) && t < n && k < Times(m, b)
    ensures |Line(f, t, m)| == Times(m, b)
    ensures Times(t, Times(m, b)) + k < |Grid(f, n, m)|
    ensures Grid(f, n, m)[Times(t, Times(m, b)) + k] == Line(f, t, m)[k]
  {
    var lines := GridLines(f, n, m);
    LinesUniform(f, n, m, b);
    ConcatAt(lines, Times(m, b), t, k);
    assert lines[t] == Line(f, t, m);
  }

  /** Element j of block d of line t sits at
      Times(t, Times(m, b)) + Times(d, b) + j in the grid. */
  lemma GridAt<T>(f: (nat, nat) -> seq<T>, n: nat, m: nat, b: nat, t: nat, d: nat, j: nat)
    requires UniformGrid(f, n, m, b) && t < n && d < m && j < b
    ensures Times(t, Times(m, b)) + Times(d, b) + j < |Grid(f, n, m)|
    ensures Grid(f, n, m)[Times(t, Times(m, b)) + Times(d, b) + j] == f(t, d)[j]
  {
    LineAt(f, t, m, b, d, j);
    GridSplit(f, n, m, b, t, Times(d, b) + j);
  }

  /** Every element of a line lies in one block, at one offset. */
  lemma LineLocate<T>(f: (nat, nat) -> seq<T>, t: nat, m: nat, b: nat, k: nat) returns (d: nat, j: nat)
    requires UniformLine(f, t, m, b) && k < |Line(f, t, m)|
    ensures d < m && j < b && k == Times(d, b) + j
    ensures |f(t, d)| == b && Line(f, t, m)[k] == f(t, d)[j]
  {
    d, j := ConcatLocate(LineBlocks(f, t, m), b, k);
    LineAt(f, t, m, b, d, j);
  }

  /** Every element of the grid lies in one line, at one offset. */
  lemma GridLocateLine<T>(f: (nat, nat) -> seq<T>, n: nat, m: nat, b: nat, i: nat) returns (t: nat, k: nat)
    requires UniformGrid(f, n, m, b) && i < |Grid(f, n, m)|
    ensures t < n && k < Times(m, b) && i == Times(t, Times(m, b)) + k
    ensures k < |Line(f, t, m)| && Grid(f, n, m)[i] == Line(f, t, m)[k]
  {
    LinesUniform(f, n, m, b);
    t, k := ConcatLocate(GridLines(f, n, m), Times(m, b), i);
    GridSplit(f, n, m, b, t, k);
  }

  /** Every element of the grid lies in one block of one line, at one offset. */
  lemma GridLocate<T>(f: (nat, nat) -> seq<T>, n: nat, m: nat, b: nat, i: nat) returns (t: nat, d: nat, j: nat)
    requires UniformGrid(f, n, m, b) && i < |Grid(f, n, m)|
    ensures t < n && d < m && j < b
    ensures i == Times(t, Times(m, b)) + Times(d, b) + j
  {
    var k;
    t, k := GridLocateLine(f, n, m, b, i);
    d, j := LineLocate(f, t, m, b, k);
  }
}
