/** What the runner's result list looks like: its length, the position of
    every row, the order of trials, the per-experiment counts and the shape
    of the hysteresis sweep. */
module Properties {
  import opened Metrics
  import opened Runner
  import opened Blocks

  /** Reading the list backwards. */
  lemma {:induction false} ReverseAt(ps: seq<int>, k: nat)
    requires k < |ps|
    ensures Reverse(ps)[k] == ps[|ps| - 1 - k]
  {
    if k < |ps| - 1 {
      ReverseAt(ps[1..], k);
    }
  }

  /** The hysteresis sweep has 2|P| steps, starts with P, and is a
      palindrome: the step at 0-based index k and the step at index
      2|P|-1-k (steps s and 2|P|+1-s, 1-based) use the same perplexity. */
  lemma SweepShape(ps: seq<int>)
    ensures |Sweep(ps)| == 2 * |ps|
    ensures Sweep(ps)[..|ps|] == ps
    ensures Reverse(Sweep(ps)) == Sweep(ps)
    ensures forall k :: 0 <= k < 2 * |ps| ==> Sweep(ps)[k] == Sweep(ps)[2 * |ps| - 1 - k]
  {
    var sw := Sweep(ps);
    forall k | 0 <= k < 2 * |ps| ensures sw[k] == sw[2 * |ps| - 1 - k] {
      SweepMirror(ps, k);
    }
    forall k | 0 <= k < |sw| ensures Reverse(sw)[k] == sw[k] {
      ReverseAt(sw, k);
      SweepMirror(ps, k);
    }
  }

  lemma SweepMirror(ps: seq<int>, k: nat)
    requires k < 2 * |ps|
    ensures Sweep(ps)[k] == Sweep(ps)[2 * |ps| - 1 - k]
  {
    if k < |ps| {
      ReverseAt(ps, |ps| - 1 - k);
    } else {
      ReverseAt(ps, k - |ps|);
    }
  }

  /** For the perplexities [5, 10, 30] the sweep is [5, 10, 30, 30, 10, 5]:
      steps 3 and 4 both use 30. */
  lemma SweepExample()
    ensures Sweep([5, 10, 30]) == [5, 10, 30, 30, 10, 5]
  {
    var ps := [5, 10, 30];
    ReverseAt(ps, 0);
    ReverseAt(ps, 1);
    ReverseAt(ps, 2);
  }

  /** The rows of one (trial, dataset) pair: |P| shear rows carrying P in
      order, then 2|P| hysteresis rows numbered 1..2|P| carrying the sweep,
      then one viscoelastic row with the component count and the recovery.
      Every row carries the trial and the dataset name. The stream position
      of each sweep step is two KDE calls past the previous one. */
  lemma BlockAt(tk: Toolkit, trial: nat, ds: Dataset, ps: seq<int>, comps: nat, g: Rng, j: nat)
    requires KeepsRows(tk) && |ds.data| >= 2 && j < BlockSize(ps)
    ensures |Block(tk, trial, ds, ps, comps, g)| == BlockSize(ps)
    ensures var r, x := Block(tk, trial, ds, ps, comps, g)[j], tk.standardize(ds.data);
      && r.trial == trial && r.dataset == ds.name
      && (j < |ps| ==>
            r == Shear(trial, ds.name, ps[j], SweepScore(tk, trial, x, ps[j], Advance(g, 2 * j))))
      && (|ps| <= j < 3 * |ps| ==>
            r == Hysteresis(trial, ds.name, j - |ps| + 1, Sweep(ps)[j - |ps|],
                            SweepScore(tk, trial, x, Sweep(ps)[j - |ps|], Advance(g, 2 * j))))
      && (j == 3 * |ps| ==> r == Viscoelastic(trial, ds.name, comps, Recovery(tk, x, comps)))
  {
    var x := tk.standardize(ds.data);
    var sh := ShearRows(tk, trial, ds.name, x, ps, g);
    var hy := HysteresisRows(tk, trial, ds.name, x, ps, Advance(g, 2 * |ps|));
    assert |Sweep(ps)| == 2 * |ps|;
    assert Block(tk, trial, ds, ps, comps, g) == sh + hy + [Viscoelastic(trial, ds.name, comps, Recovery(tk, x, comps))];
    if |ps| <= j < 3 * |ps| {
      assert Block(tk, trial, ds, ps, comps, g)[j] == hy[j - |ps|];
    }
  }

  /** Every row of a block carries its trial. */
  lemma BlockTrial(tk: Toolkit, trial: nat, ds: Dataset, ps: seq<int>, comps: nat, g: Rng, j: nat)
    requires KeepsRows(tk) && |ds.data| >= 2 && j < BlockSize(ps)
    ensures Block(tk, trial, ds, ps, comps, g)[j].trial == trial
  {
    BlockAt(tk, trial, ds, ps, comps, g, j);
  }

  /** Forward and backward hysteresis steps at the same perplexity, and the
      shear step at that perplexity, see the same t-SNE output (its random
      state is the trial number) and the same curvature and deformation: if
      the entropy estimate did not depend on the global stream, their scores
      would be equal. Given a deterministic PCA (which the model assumes),
      any path dependence the sweep measures therefore comes from the KDE
      resampling alone. */
  lemma HysteresisOnlyThroughStream(tk: Toolkit, trial: nat, ds: Dataset, ps: seq<int>, comps: nat, g: Rng, s: nat)
    requires KeepsRows(tk) && |ds.data| >= 2 && 1 <= s <= |ps|
    requires forall x, g1, g2 :: tk.entropy(x, g1) == tk.entropy(x, g2)
    ensures |Block(tk, trial, ds, ps, comps, g)| == BlockSize(ps)
    ensures var b := Block(tk, trial, ds, ps, comps, g);
      b[|ps| + s - 1].perplexity == b[3 * |ps| - s].perplexity == b[s - 1].perplexity == ps[s - 1] &&
      b[|ps| + s - 1].score == b[3 * |ps| - s].score == b[s - 1].score
  {
    SweepShape(ps);
    BlockAt(tk, trial, ds, ps, comps, g, s - 1);
    BlockAt(tk, trial, ds, ps, comps, g, |ps| + s - 1);
    BlockAt(tk, trial, ds, ps, comps, g, 3 * |ps| - s);
    assert Sweep(ps)[s - 1] == ps[s - 1];
  }

  lemma TimesAssoc(a: nat, b: nat, c: nat)
    ensures Times(a, Times(b, c)) == a * b * c
  {
    TimesIsProduct(b, c);
    TimesIsProduct(a, b * c);
  }

  /** The run has nTrials * |datasets| * (3|P| + 1) rows. */
  lemma RunRowsLength(tk: Toolkit, datasets: seq<Dataset>, n: nat, ps: seq<int>, comps: nat)
    requires KeepsRows(tk) && Usable(datasets)
    ensures |RunRows(tk, datasets, n, ps, comps)| == n * |datasets| * (3 * |ps| + 1)
  {
    TimesAssoc(n, |datasets|, BlockSize(ps));
  }

  /** With the default arguments (5 trials, perplexities 5, 10, 30, 50, 100)
      and the three generated datasets the run has 240 rows. */
  lemma DefaultRunLength(tk: Toolkit, datasets: seq<Dataset>, comps: nat)
    requires KeepsRows(tk) && Usable(datasets) && |datasets| == 3
    ensures |RunRows(tk, datasets, 5, [5, 10, 30, 50, 100], comps)| == 240
  {
    var ps := [5, 10, 30, 50, 100];
    RunRowsLength(tk, datasets, 5, ps, comps);
    assert 5 * |datasets| * (3 * |ps| + 1) == 240;
  }

  /** Number of rows whose "Experiment" is e. */
  function CountOf(rows: seq<Row>, e: string): nat
  {
    if rows == [] then 0 else (if Experiment(rows[0]) == e then 1 else 0) + CountOf(rows[1..], e)
  }

  lemma {:induction false} CountAppend(a: seq<Row>, b: seq<Row>, e: string)
    ensures CountOf(a + b, e) == CountOf(a, e) + CountOf(b, e)
  {
    if a == [] {
      assert a + b == b;
    } else {
      assert (a + b)[1..] == a[1..] + b;
      CountAppend(a[1..], b, e);
    }
  }

  lemma {:induction false} CountUniform(rows: seq<Row>, e: string)
    ensures (forall i :: 0 <= i < |rows| ==> Experiment(rows[i]) == e) ==> CountOf(rows, e) == |rows|
    ensures (forall i :: 0 <= i < |rows| ==> Experiment(rows[i]) != e) ==> CountOf(rows, e) == 0
  {
    if rows != [] {
      CountUniform(rows[1..], e);
      assert forall i :: 1 <= i < |rows| ==> rows[1..][i - 1] == rows[i];
    }
  }

  /** Blocks with c rows of experiment e each give Times(|blocks|, c) such
      rows together. */
  lemma {:induction false} ConcatCount(blocks: seq<seq<Row>>, e: string, c: nat)
    requires forall i :: 0 <= i < |blocks| ==> CountOf(blocks[i], e) == c
    ensures CountOf(Concat(blocks), e) == Times(|blocks|, c)
  {
    if blocks != [] {
      var last := |blocks| - 1;
      ConcatCount(blocks[..last], e, c);
      CountAppend(Concat(blocks[..last]), blocks[last], e);
    }
  }

  /** Rows of experiment e in one block. */
  function PerBlock(ps: seq<int>, e: string): nat
  {
    if e == ShearName then |ps|
    else if e == HysteresisName then 2 * |ps|
    else if e == ViscoelasticName then 1
    else 0
  }

  lemma ShearCount(tk: Toolkit, trial: nat, name: string, x: PointSet, ps: seq<int>, g: Rng, e: string)
    requires KeepsRows(tk) && |x| >= 2
    ensures CountOf(ShearRows(tk, trial, name, x, ps, g), e) == if e == ShearName then |ps| else 0
  {
    CountUniform(ShearRows(tk, trial, name, x, ps, g), e);
  }

  lemma HysteresisCount(tk: Toolkit, trial: nat, name: string, x: PointSet, ps: seq<int>, g: Rng, e: string)
    requires KeepsRows(tk) && |x| >= 2
    ensures CountOf(HysteresisRows(tk, trial, name, x, ps, g), e) == if e == HysteresisName then 2 * |ps| else 0
  {
    assert |Sweep(ps)| == 2 * |ps|;
    CountUniform(HysteresisRows(tk, trial, name, x, ps, g), e);
  }

  lemma BlockCount(tk: Toolkit, trial: nat, ds: Dataset, ps: seq<int>, comps: nat, g: Rng, e: string)
    requires KeepsRows(tk) && |ds.data| >= 2
    ensures CountOf(Block(tk, trial, ds, ps, comps, g), e) == PerBlock(ps, e)
  {
    var x := tk.standardize(ds.data);
    var sh := ShearRows(tk, trial, ds.name, x, ps, g);
    var hy := HysteresisRows(tk, trial, ds.name, x, ps, Advance(g, 2 * |ps|));
    var ve := [Viscoelastic(trial, ds.name, comps, Recovery(tk, x, comps))];
    assert Block(tk, trial, ds, ps, comps, g) == sh + hy + ve;
    CountAppend(sh, hy, e);
    CountAppend(sh + hy, ve, e);
    ShearCount(tk, trial, ds.name, x, ps, g, e);
    HysteresisCount(tk, trial, ds.name, x, ps, Advance(g, 2 * |ps|), e);
    CountUniform(ve, e);
  }

  lemma TrialCount(tk: Toolkit, trial: nat, datasets: seq<Dataset>, ps: seq<int>, comps: nat, e: string)
    requires KeepsRows(tk) && Usable(datasets)
    ensures CountOf(TrialRows(tk, trial, datasets, ps, comps), e) == Times(|datasets|, PerBlock(ps, e))
  {
    var bs := LineBlocks(BlockFn(tk, datasets, ps, comps), trial, |datasets|);
    forall d | 0 <= d < |bs| ensures CountOf(bs[d], e) == PerBlock(ps, e) {
      BlockCount(tk, trial, datasets[d], ps, comps, Rng(trial, Times(d, CallsPerBlock(ps))), e);
    }
    ConcatCount(bs, e, PerBlock(ps, e));
  }

  /** Over the whole run there are nTrials * |datasets| * |P| shear rows,
      twice as many hysteresis rows and nTrials * |datasets| viscoelastic
      rows, and no row of any other experiment. */
  lemma RunCount(tk: Toolkit, datasets: seq<Dataset>, n: nat, ps: seq<int>, comps: nat, e: string)
    requires KeepsRows(tk) && Usable(datasets)
    ensures CountOf(RunRows(tk, datasets, n, ps, comps), e) == n * |datasets| * PerBlock(ps, e)
  {
    var bs := GridLines(BlockFn(tk, datasets, ps, comps), n, |datasets|);
    var c := Times(|datasets|, PerBlock(ps, e));
    forall t | 0 <= t < n ensures CountOf(bs[t], e) == c {
      TrialCount(tk, t, datasets, ps, comps, e);
    }
    ConcatCount(bs, e, c);
    TimesAssoc(n, |datasets|, PerBlock(ps, e));
  }
}
