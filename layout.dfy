/** Where each row of the runner's result list sits: trial, then dataset
    in dictionary order, then position within the block. */
module Layout {
  import opened Metrics
  import opened Runner
  import opened Blocks
  import opened Properties

  /** TrialRowsAt with the block left as BlockFn(...)(trial, d); the two
      steps are proved apart so that neither unfolds both the list and the
      block. */
  lemma TrialRowsAtFn(tk: Toolkit, trial: nat, datasets: seq<Dataset>, ps: seq<int>, comps: nat, d: nat, j: nat)
    requires KeepsRows(tk) && Usable(datasets) && d < |datasets| && j < BlockSize(ps)
    ensures Times(d, BlockSize(ps)) + j < |TrialRows(tk, trial, datasets, ps, comps)|
    ensures |BlockFn(tk, datasets, ps, comps)(trial, d)| == BlockSize(ps)
    ensures TrialRows(tk, trial, datasets, ps, comps)[Times(d, BlockSize(ps)) + j]
      == BlockFn(tk, datasets, ps, comps)(trial, d)[j]
  {
    BlockFnLine(tk, datasets, ps, comps, trial);
    LineAt(BlockFn(tk, datasets, ps, comps), trial, |datasets|, BlockSize(ps), d, j);
  }

  /** Within a trial, the block of dataset d starts at Times(d, 3|P| + 1). */
  lemma TrialRowsAt(tk: Toolkit, trial: nat, datasets: seq<Dataset>, ps: seq<int>, comps: nat, d: nat, j: nat)
    requires KeepsRows(tk) && Usable(datasets) && d < |datasets| && j < BlockSize(ps)
    ensures Times(d, BlockSize(ps)) + j < |TrialRows(tk, trial, datasets, ps, comps)|
    ensures TrialRows(tk, trial, datasets, ps, comps)[Times(d, BlockSize(ps)) + j]
      == Block(tk, trial, datasets[d], ps, comps, Rng(trial, Times(d, CallsPerBlock(ps))))[j]
  {
    TrialRowsAtFn(tk, trial, datasets, ps, comps, d, j);
    BlockFnAt(tk, datasets, ps, comps, trial, d);
  }

  /** Position of row j of the block of trial t and dataset d, with nd
      datasets and b rows per block. */
  function RowIndex(nd: nat, b: nat, t: nat, d: nat, j: nat): nat
  {
    Times(t, Times(nd, b)) + Times(d, b) + j
  }

  /** Ring facts the closed form is assembled from. */
  lemma MulAssoc(x: int, y: int, z: int)
    ensures x * (y * z) == (x * y) * z
  {
  }

  lemma MulDistrib(x: int, y: int, z: int)
    ensures (x + y) * z == x * z + y * z
  {
  }

  /** The position in closed form. */
  lemma RowIndexClosedForm(nd: nat, b: nat, t: nat, d: nat, j: nat)
    ensures RowIndex(nd, b, t, d, j) == (t * nd + d) * b + j
  {
    TimesIsProduct(nd, b);
    TimesIsProduct(t, nd * b);
    TimesIsProduct(d, b);
    MulAssoc(t, nd, b);
    MulDistrib(t * nd, d, b);
  }

  /** RunRowsAt with the block left as BlockFn(...)(t, d). */
  lemma RunRowsAtFn(tk: Toolkit, datasets: seq<Dataset>, n: nat, ps: seq<int>, comps: nat, t: nat, d: nat, j: nat)
    requires KeepsRows(tk) && Usable(datasets)
    requires t < n && d < |datasets| && j < BlockSize(ps)
    ensures RowIndex(|datasets|, BlockSize(ps), t, d, j) < |RunRows(tk, datasets, n, ps, comps)|
    ensures |BlockFn(tk, datasets, ps, comps)(t, d)| == BlockSize(ps)
    ensures RunRows(tk, datasets, n, ps, comps)[RowIndex(|datasets|, BlockSize(ps), t, d, j)]
      == BlockFn(tk, datasets, ps, comps)(t, d)[j]
  {
    BlockFnGrid(tk, datasets, ps, comps, n);
    GridAt(BlockFn(tk, datasets, ps, comps), n, |datasets|, BlockSize(ps), t, d, j);
  }

  /** Row order: trial, then dataset in dictionary order, then position in
      the block. The row at RowIndex(|datasets|, 3|P| + 1, t, d, j) =
      (t * |datasets| + d) * (3|P| + 1) + j is row j of the block of trial t
      and dataset d, whose first entropy estimate is 6|P|d KDE calls after the
      reseeding with t. */
  lemma RunRowsAt(tk: Toolkit, datasets: seq<Dataset>, n: nat, ps: seq<int>, comps: nat, t: nat, d: nat, j: nat)
    requires KeepsRows(tk) && Usable(datasets)
    requires t < n && d < |datasets| && j < BlockSize(ps)
    ensures RowIndex(|datasets|, BlockSize(ps), t, d, j) < |RunRows(tk, datasets, n, ps, comps)|
    ensures RunRows(tk, datasets, n, ps, comps)[RowIndex(|datasets|, BlockSize(ps), t, d, j)]
      == Block(tk, t, datasets[d], ps, comps, Rng(t, Times(d, CallsPerBlock(ps))))[j]
  {
    RunRowsAtFn(tk, datasets, n, ps, comps, t, d, j);
    BlockFnAt(tk, datasets, ps, comps, t, d);
  }

  /** Every row of the run is row j of the block of some trial t < n and
      some dataset d: the run holds the blocks and nothing else. */
  lemma RunRowsCover(tk: Toolkit, datasets: seq<Dataset>, n: nat, ps: seq<int>, comps: nat, i: nat)
    returns (t: nat, d: nat, j: nat)
    requires KeepsRows(tk) && Usable(datasets) && i < |RunRows(tk, datasets, n, ps, comps)|
    ensures t < n && d < |datasets| && j < BlockSize(ps)
    ensures i == RowIndex(|datasets|, BlockSize(ps), t, d, j)
    ensures RunRows(tk, datasets, n, ps, comps)[i]
      == Block(tk, t, datasets[d], ps, comps, Rng(t, Times(d, CallsPerBlock(ps))))[j]
  {
    BlockFnGrid(tk, datasets, ps, comps, n);
    t, d, j := GridLocate(BlockFn(tk, datasets, ps, comps), n, |datasets|, BlockSize(ps), i);
    RunRowsAt(tk, datasets, n, ps, comps, t, d, j);
  }

  /** Every row of the block of trial t carries t. */
  lemma BlockFnTrial(tk: Toolkit, datasets: seq<Dataset>, ps: seq<int>, comps: nat, t: nat, d: nat, j: nat)
    requires KeepsRows(tk) && Usable(datasets) && d < |datasets| && j < BlockSize(ps)
    ensures |BlockFn(tk, datasets, ps, comps)(t, d)| == BlockSize(ps)
    ensures BlockFn(tk, datasets, ps, comps)(t, d)[j].trial == t
  {
    BlockFnAt(tk, datasets, ps, comps, t, d);
    BlockTrial(tk, t, datasets[d], ps, comps, Rng(t, Times(d, CallsPerBlock(ps))), j);
  }

  /** Every row of a trial's list carries that trial. */
  lemma TrialRowsTrial(tk: Toolkit, trial: nat, datasets: seq<Dataset>, ps: seq<int>, comps: nat, k: nat)
    requires KeepsRows(tk) && Usable(datasets) && k < |TrialRows(tk, trial, datasets, ps, comps)|
    ensures TrialRows(tk, trial, datasets, ps, comps)[k].trial == trial
  {
    BlockFnLine(tk, datasets, ps, comps, trial);
    var d, j := LineLocate(BlockFn(tk, datasets, ps, comps), trial, |datasets|, BlockSize(ps), k);
    BlockFnTrial(tk, datasets, ps, comps, trial, d, j);
  }

  /** Row i of the run lies in the rows of trial t, at offset k, and carries t. */
  lemma RunRowsTrial(tk: Toolkit, datasets: seq<Dataset>, n: nat, ps: seq<int>, comps: nat, i: nat)
    returns (t: nat, k: nat)
    requires KeepsRows(tk) && Usable(datasets) && i < |RunRows(tk, datasets, n, ps, comps)|
    ensures t < n && k < Times(|datasets|, BlockSize(ps))
    ensures i == Times(t, Times(|datasets|, BlockSize(ps))) + k
    ensures RunRows(tk, datasets, n, ps, comps)[i].trial == t
  {
    BlockFnGrid(tk, datasets, ps, comps, n);
    t, k := GridLocateLine(BlockFn(tk, datasets, ps, comps), n, |datasets|, BlockSize(ps), i);
    TrialRowsTrial(tk, t, datasets, ps, comps, k);
  }

  /** Trial indices never decrease along the result list, and every row
      belongs to one of the first n trials. */
  lemma RunRowsTrialsOrdered(tk: Toolkit, datasets: seq<Dataset>, n: nat, ps: seq<int>, comps: nat, i: nat, k: nat)
    requires KeepsRows(tk) && Usable(datasets) && i <= k < |RunRows(tk, datasets, n, ps, comps)|
    ensures RunRows(tk, datasets, n, ps, comps)[i].trial <= RunRows(tk, datasets, n, ps, comps)[k].trial < n
  {
    var t1, k1 := RunRowsTrial(tk, datasets, n, ps, comps, i);
    var t2, k2 := RunRowsTrial(tk, datasets, n, ps, comps, k);
    BlockOrder(Times(|datasets|, BlockSize(ps)), t1, k1, t2, k2);
  }
}
