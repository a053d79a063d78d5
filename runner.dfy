/** The experiment runner: for every trial and every dataset it appends the
    rows of three protocols (shear-rate sweep, hysteresis sweep,
    viscoelastic recovery) to one result list. The numerical library calls
    (standardisation, t-SNE, PCA, KDE entropy, PCA curvature, Euclidean
    distance) are parameters. */
module Runner {
  import opened Metrics
  import opened Blocks

  /** Position in NumPy's global random stream: the seed it was last given
      and the number of KDE resampling calls made on it since (each call
      draws many numbers). */
  datatype Rng = Rng(seed: nat, calls: nat)

  function Advance(g: Rng, k: nat): Rng
  {
    Rng(g.seed, g.calls + k)
  }

  /** A named data matrix; the list of datasets is in dictionary order. */
  datatype Dataset = Dataset(name: string, data: PointSet)

  /** The library calls the runner makes, left uninterpreted.
      tsne(x, perplexity, randomState) embeds into 2 dimensions;
      entropy(x, g) resamples the fitted KDE from the global stream at g;
      curvature(x, k) sums the first k explained-variance ratios;
      pcaFit(x, k) is fit_transform with k components and
      pcaInverse(x, k, y) the inverse transform of y under the PCA fitted on x. */
  datatype Toolkit = Toolkit(
    dist: (Point, Point) -> real,
    standardize: PointSet -> PointSet,
    tsne: (PointSet, int, nat) -> PointSet,
    entropy: (PointSet, Rng) -> real,
    curvature: (PointSet, nat) -> real,
    pcaFit: (PointSet, nat) -> PointSet,
    pcaInverse: (PointSet, nat, PointSet) -> PointSet)

  /** The library transforms keep one output row per input row. */
  ghost predicate KeepsRows(tk: Toolkit)
  {
    && (forall x :: |tk.standardize(x)| == |x|)
    && (forall x, p, seed :: |tk.tsne(x, p, seed)| == |x|)
    && (forall x, k :: |tk.pcaFit(x, k)| == |x|)
    && (forall x, k, y :: |tk.pcaInverse(x, k, y)| == |y|)
  }

  /** Every dataset has at least two samples, so it has a pairwise distance. */
  predicate Usable(datasets: seq<Dataset>)
  {
    forall i :: 0 <= i < |datasets| ==> |datasets[i].data| >= 2
  }

  /** One result record. Each constructor carries exactly the keys of the
      record of that experiment. */
  datatype Row =
    | Shear(trial: nat, dataset: string, perplexity: int, score: Score)
    | Hysteresis(trial: nat, dataset: string, step: nat, perplexity: int, score: Score)
    | Viscoelastic(trial: nat, dataset: string, components: nat, recovery: real)

  const ShearName := "Shear Rate Dependence"
  const HysteresisName := "Hysteresis"
  const ViscoelasticName := "Viscoelasticity"

  /** The record's "Experiment" value. */
  function Experiment(r: Row): string
  {
    match r
    case Shear(_, _, _, _) => ShearName
    case Hysteresis(_, _, _, _, _) => HysteresisName
    case Viscoelastic(_, _, _, _) => ViscoelasticName
  }

  /** The viscosity score of one sweep step: embed at the given perplexity,
      then two entropy estimates made one after the other on the global
      stream, curvature at 2 components and the deformation. */
  function SweepScore(tk: Toolkit, trial: nat, x: PointSet, perplexity: int, g: Rng): Score
    requires KeepsRows(tk) && |x| >= 2
  {
    var compressed := tk.tsne(x, perplexity, trial);
    Viscosity(tk.entropy(x, g), tk.entropy(compressed, Advance(g, 1)),
              tk.curvature(x, 2), Deformation(x, compressed, tk.dist))
  }

  /** Deformation between the data and its PCA round trip. */
  function Recovery(tk: Toolkit, x: PointSet, comps: nat): real
    requires KeepsRows(tk) && |x| >= 2
  {
    Deformation(x, tk.pcaInverse(x, comps, tk.pcaFit(x, comps)), tk.dist)
  }

  /** The list read back to front (slicing with step -1). */
  function Reverse(ps: seq<int>): (r: seq<int>)
    ensures |r| == |ps|
  {
    if ps == [] then [] else Reverse(ps[1..]) + [ps[0]]
  }

  /** The hysteresis sweep: forward, then backward. */
  function Sweep(ps: seq<int>): seq<int>
  {
    ps + Reverse(ps)
  }

  function ShearRows(tk: Toolkit, trial: nat, name: string, x: PointSet, ps: seq<int>, g: Rng): (r: seq<Row>)
    requires KeepsRows(tk) && |x| >= 2
    ensures |r| == |ps|
  {
    seq(|ps|, k requires 0 <= k < |ps| =>
      Shear(trial, name, ps[k], SweepScore(tk, trial, x, ps[k], Advance(g, 2 * k))))
  }

  function HysteresisRows(tk: Toolkit, trial: nat, name: string, x: PointSet, ps: seq<int>, g: Rng): (r: seq<Row>)
    requires KeepsRows(tk) && |x| >= 2
    ensures |r| == 2 * |ps|
  {
    var sw := Sweep(ps);
    seq(|sw|, k requires 0 <= k < |sw| =>
      Hysteresis(trial, name, k + 1, sw[k], SweepScore(tk, trial, x, sw[k], Advance(g, 2 * k))))
  }

  /** The rows one (trial, dataset) pair contributes, with the global stream
      at g when its first entropy is estimated. */
  function Block(tk: Toolkit, trial: nat, ds: Dataset, ps: seq<int>, comps: nat, g: Rng): (r: seq<Row>)
    requires KeepsRows(tk) && |ds.data| >= 2
    ensures |r| == BlockSize(ps)
  {
    var x := tk.standardize(ds.data);
    ShearRows(tk, trial, ds.name, x, ps, g)
      + HysteresisRows(tk, trial, ds.name, x, ps, Advance(g, 2 * |ps|))
      + [Viscoelastic(trial, ds.name, comps, Recovery(tk, x, comps))]
  }

  /** Rows per (trial, dataset) pair. */
  function BlockSize(ps: seq<int>): nat
  {
    3 * |ps| + 1
  }

  /** Entropy estimates, hence resampling calls on the global stream, per block. */
  function CallsPerBlock(ps: seq<int>): nat
  {
    6 * |ps|
  }

  /** The block of trial t and dataset d. The stream is reseeded with the
      trial number once per trial, not per dataset, so dataset d starts
      Times(d, CallsPerBlock(ps)) calls in. Positions past the last dataset
      hold no rows. */
  function BlockFn(tk: Toolkit, datasets: seq<Dataset>, ps: seq<int>, comps: nat): (nat, nat) -> seq<Row>
    requires KeepsRows(tk) && Usable(datasets)
  {
    (t: nat, d: nat) =>
      if d < |datasets| then Block(tk, t, datasets[d], ps, comps, Rng(t, Times(d, CallsPerBlock(ps)))) else []
  }

  lemma BlockFnAt(tk: Toolkit, datasets: seq<Dataset>, ps: seq<int>, comps: nat, t: nat, d: nat)
    requires KeepsRows(tk) && Usable(datasets) && d < |datasets|
    ensures BlockFn(tk, datasets, ps, comps)(t, d)
      == Block(tk, t, datasets[d], ps, comps, Rng(t, Times(d, CallsPerBlock(ps))))
  {
  }

  lemma BlockFnLine(tk: Toolkit, datasets: seq<Dataset>, ps: seq<int>, comps: nat, t: nat)
    requires KeepsRows(tk) && Usable(datasets)
    ensures UniformLine(BlockFn(tk, datasets, ps, comps), t, |datasets|, BlockSize(ps))
  {
  }

  lemma BlockFnGrid(tk: Toolkit, datasets: seq<Dataset>, ps: seq<int>, comps: nat, n: nat)
    requires KeepsRows(tk) && Usable(datasets)
    ensures UniformGrid(BlockFn(tk, datasets, ps, comps), n, |datasets|, BlockSize(ps))
  {
  }

  /** The rows of one trial: its blocks, one per dataset in dictionary order. */
  function TrialRows(tk: Toolkit, trial: nat, datasets: seq<Dataset>, ps: seq<int>, comps: nat): (r: seq<Row>)
    requires KeepsRows(tk) && Usable(datasets)
    ensures |r| == Times(|datasets|, BlockSize(ps))
  {
    BlockFnLine(tk, datasets, ps, comps, trial);
    LineLength(BlockFn(tk, datasets, ps, comps), trial, |datasets|, BlockSize(ps));
    Line(BlockFn(tk, datasets, ps, comps), trial, |datasets|)
  }

  /** The rows of the first n trials, in one list. */
  function RunRows(tk: Toolkit, datasets: seq<Dataset>, n: nat, ps: seq<int>, comps: nat): (r: seq<Row>)
    requires KeepsRows(tk) && Usable(datasets)
    ensures |r| == Times(n, Times(|datasets|, BlockSize(ps)))
  {
    BlockFnGrid(tk, datasets, ps, comps, n);
    GridLength(BlockFn(tk, datasets, ps, comps), n, |datasets|, BlockSize(ps));
    Grid(BlockFn(tk, datasets, ps, comps), n, |datasets|)
  }

  /** The shear-rate protocol: one t-SNE embedding and one score per
      perplexity, two entropy estimates (stream calls) per step. */
  method ShearSweep(tk: Toolkit, trial: nat, name: string, x: PointSet, ps: seq<int>, g0: Rng)
    returns (rows: seq<Row>, g: Rng)
    requires KeepsRows(tk) && |x| >= 2
    ensures rows == ShearRows(tk, trial, name, x, ps, g0)
    ensures g == Advance(g0, 2 * |ps|)
  {
    rows, g := [], g0;
    for k := 0 to |ps|
      invariant g == Advance(g0, 2 * k)
      invariant rows == ShearRows(tk, trial, name, x, ps, g0)[..k]
    {
      var compressed := tk.tsne(x, ps[k], trial);
      var e0 := tk.entropy(x, g);
      g := Advance(g, 1);
      var e1 := tk.entropy(compressed, g);
      g := Advance(g, 1);
      var c0 := tk.curvature(x, 2);
      var deformation := Deformation(x, compressed, tk.dist);
      rows := rows + [Shear(trial, name, ps[k], Viscosity(e0, e1, c0, deformation))];
    }
  }

  /** The hysteresis protocol: the same step over the forward-then-backward
      sweep, numbering the steps from 1. */
  method HysteresisSweep(tk: Toolkit, trial: nat, name: string, x: PointSet, ps: seq<int>, g0: Rng)
    returns (rows: seq<Row>, g: Rng)
    requires KeepsRows(tk) && |x| >= 2
    ensures rows == HysteresisRows(tk, trial, name, x, ps, g0)
    ensures g == Advance(g0, 4 * |ps|)
  {
    var sweep := ps + Reverse(ps);
    rows, g := [], g0;
    for i := 0 to |sweep|
      invariant g == Advance(g0, 2 * i)
      invariant rows == HysteresisRows(tk, trial, name, x, ps, g0)[..i]
    {
      var compressed := tk.tsne(x, sweep[i], trial);
      var e0 := tk.entropy(x, g);
      g := Advance(g, 1);
      var e1 := tk.entropy(compressed, g);
      g := Advance(g, 1);
      var c0 := tk.curvature(x, 2);
      var deformation := Deformation(x, compressed, tk.dist);
      rows := rows + [Hysteresis(trial, name, i + 1, sweep[i], Viscosity(e0, e1, c0, deformation))];
    }
  }

  /** The body of the dataset loop: standardise, then the three protocols.
      It returns the rows it appends and the global stream position after
      its entropy estimates. */
  method AnalyzeDataset(tk: Toolkit, trial: nat, ds: Dataset, ps: seq<int>, comps: nat, g0: Rng)
    returns (rows: seq<Row>, g: Rng)
    requires KeepsRows(tk) && |ds.data| >= 2
    ensures rows == Block(tk, trial, ds, ps, comps, g0)
    ensures g == Advance(g0, CallsPerBlock(ps))
  {
    var x := tk.standardize(ds.data);
    var shear, hysteresis;
    shear, g := ShearSweep(tk, trial, ds.name, x, ps, g0);
    hysteresis, g := HysteresisSweep(tk, trial, ds.name, x, ps, g);
    var compressed := tk.pcaFit(x, comps);
    var reconstructed := tk.pcaInverse(x, comps, compressed);
    var recovery := Deformation(x, reconstructed, tk.dist);
    rows := shear + hysteresis + [Viscoelastic(trial, ds.name, comps, recovery)];
  }

  /** The body of the trial loop: reseed the global stream with the trial
      number, then analyse every dataset in order. */
  method RunTrial(tk: Toolkit, trial: nat, datasets: seq<Dataset>, ps: seq<int>, comps: nat)
    returns (rows: seq<Row>)
    requires KeepsRows(tk) && Usable(datasets)
    ensures rows == TrialRows(tk, trial, datasets, ps, comps)
  {
    ghost var bs := LineBlocks(BlockFn(tk, datasets, ps, comps), trial, |datasets|);
    rows := [];
    var g := Rng(trial, 0);
    for d := 0 to |datasets|
      invariant g == Rng(trial, Times(d, CallsPerBlock(ps)))
      invariant rows == Concat(bs[..d])
    {
      var block;
      block, g := AnalyzeDataset(tk, trial, datasets[d], ps, comps, g);
      ConcatSnoc(bs, d);
      rows := rows + block;
    }
    assert bs[..|datasets|] == bs;
  }

  /** The analysis loop: trials, then datasets, appending to one list. */
  method RunAnalysis(tk: Toolkit, datasets: seq<Dataset>, nTrials: nat, ps: seq<int>, comps: nat)
    returns (rows: seq<Row>)
    requires KeepsRows(tk) && Usable(datasets)
    ensures rows == RunRows(tk, datasets, nTrials, ps, comps)
  {
    ghost var bs := GridLines(BlockFn(tk, datasets, ps, comps), nTrials, |datasets|);
    rows := [];
    for trial := 0 to nTrials
      invariant rows == Concat(bs[..trial])
    {
      var trialRows := RunTrial(tk, trial, datasets, ps, comps);
      ConcatSnoc(bs, trial);
      rows := rows + trialRows;
    }
    assert bs[..nTrials] == bs;
  }
}
