# GEMINI viscosity pipeline in Dafny

GEMINI measures how much "information viscosity" a dimensionality
reduction shows. It reduces a dataset, estimates the entropy lost and the
distortion of pairwise distances, and combines them into one score. This
project models the core of `geminimain.py`:

- the **deformation** estimator. It is the mean absolute difference
  between the pairwise-distance vectors of two equally long point sets,
  with the pairs enumerated in condensed order (0,1), (0,2), …, (n-2,n-1).
  This is the order a condensed distance vector uses.
- the **viscosity** score `(E0 - E1) / (E0 * (1 + D) * (1 + 0.1 * (2 - C0)))`.
  A zero denominator gives the infinity or NaN of floating-point division,
  not an exception. The model writes that outcome as `Score.Undefined`.
- the **runner** `run_gemini_analysis`. For each trial and each dataset (in
  dictionary order) it standardises the data. It then appends three kinds
  of rows to one result list:
  - one "Shear Rate Dependence" row per perplexity;
  - 2|P| "Hysteresis" rows over the perplexities forward then backward,
    numbered from 1;
  - one "Viscoelasticity" row, whose recovery is the deformation between
    the data and its PCA reconstruction.

The numerical library calls are fields of a `Toolkit` value and stay
uninterpreted: standardisation, t-SNE, PCA fit and inverse, KDE entropy,
PCA curvature and the Euclidean distance. The one assumption made about
them is that transforms keep the row count (`KeepsRows`). For a distance,
the assumptions are that it is non-negative, symmetric and zero on equal
points (`IsDistance`).

The KDE entropy resamples from NumPy's global random stream. The runner
reseeds that stream with the trial number once per trial, not once per
dataset. The model makes the stream an explicit value `Rng(seed, calls)`
that is passed to every entropy call. This makes visible which stream
position each score depends on. t-SNE gets `random_state = trial`, so it
is a function of its inputs.

Modules:

- `Condensed` (condensed.dfy): the order of the pairs.
- `Metrics` (metrics.dfy): the estimators.
- `Blocks` (blocks.dfy): lists made of equally long blocks, and grids of
  blocks f(t, d) appended line by line.
- `Runner` (runner.dfy): rows, specification functions and the loop
  methods.
- `Properties` (properties.dfy): sweep shape, block contents and counts.
- `Layout` (layout.dfy): the position of every row.

The loop methods `ShearSweep`, `HysteresisSweep`, `AnalyzeDataset`,
`RunTrial` and `RunAnalysis` build the list by appending. Each is proved
equal to a specification function. The properties are lemmas about those
functions.

One might expect `viscosity(E0, E0, C0, 0) == 0` for every C0. The
formula at geminimain.py:62 computes 0/0 when C0 = 12, so the identity
holds for every E0 ≠ 0 and every C0 ≠ 12 only. `ViscosityNoLoss`
requires C0 ≠ 12. In the estimator's range (0 ≤ C0 ≤ 1) the case cannot
arise.

## Model

| member | source | states |
|---|---|---|
| Condensed.PairsAt | geminimain.py:57 | the pair (i, j) with i < j < n sits at position CondensedIndex(n, i, j) of the condensed pair list |
| Condensed.PairsSorted | geminimain.py:57 | the condensed pairs are strictly increasing in lexicographic order, so no pair repeats |
| Condensed.PairsLength | geminimain.py:57 | there are n(n-1)/2 pairs |
| Condensed.CondensedIndexClosedForm | geminimain.py:57 | the position of (i, j) is n*i + j - (i+2)(i+1)/2, the usual condensed-index formula |
| Condensed.PairsSmall | geminimain.py:57 | fewer than two points give no pair; two or more give (0, 1) first |
| Metrics.PDistAt | geminimain.py:57 | for a symmetric distance, the distance between points i and j (either order) sits at the condensed index of the pair |
| Metrics.Deformation | geminimain.py:55-57 | for two equally long sets of at least two points, the mean absolute change of pairwise distances is non-negative |
| Metrics.DeformationSelf | geminimain.py:55-57 | a set compared with itself has deformation 0 |
| Metrics.DeformationSymmetric | geminimain.py:55-57 | deformation(A, B) == deformation(B, A) |
| Metrics.DeformationZeroIff | geminimain.py:55-57 | deformation is 0 exactly when every pairwise distance i < j is the same in both sets |
| Metrics.Viscosity | geminimain.py:60-62 | the score is defined exactly when E0 ≠ 0, D ≠ -1 and C0 ≠ 12; then multiplying it by the denominator gives the entropy loss E0 - E1 |
| Metrics.ViscosityDefined | geminimain.py:60-62 | for D ≥ 0 and 0 ≤ C0 ≤ 1, E0 = 0 is the only undefined case |
| Metrics.ViscosityZeroIff | geminimain.py:60-62 | a defined score is 0 exactly when E1 == E0 |
| Metrics.ViscosityNoLoss | geminimain.py:60-62 | no entropy loss and no deformation give score 0 (for E0 ≠ 0, C0 ≠ 12) |
| Metrics.ViscositySignAndBound | geminimain.py:60-62 | for E0 > 0 and estimator outputs in range, the score is positive iff entropy was lost, negative iff it grew, and 1.1·abs(score) ≤ abs(E0 - E1)/E0 |
| Runner.Block | geminimain.py:76-130 | each (trial, dataset) pair contributes 3|P| + 1 rows |
| Runner.TrialRows | geminimain.py:74-130 | one trial contributes |datasets| blocks of 3|P| + 1 rows |
| Runner.RunRows | geminimain.py:70-130 | n trials contribute n copies of a trial's row count |
| Runner.ShearSweep | geminimain.py:80-96 | the shear loop appends exactly the shear rows of the specification, and advances the global stream by two KDE calls per perplexity |
| Runner.HysteresisSweep | geminimain.py:99-116 | the hysteresis loop appends exactly the hysteresis rows over P followed by reversed P, and advances the stream by 4|P| KDE calls |
| Runner.AnalyzeDataset | geminimain.py:76-130 | the dataset body appends exactly one block (shear, hysteresis, viscoelastic row) and advances the stream by 6|P| KDE calls |
| Runner.RunTrial | geminimain.py:72-130 | after reseeding with the trial number, the dataset loop appends exactly the trial's rows, dataset d starting 6|P|·d KDE calls into the stream |
| Runner.RunAnalysis | geminimain.py:65-132 | the trial loop returns exactly the rows of all trials, in order |
| Properties.ReverseAt | geminimain.py:99 | element k of the reversed list is element |P|-1-k of the list |
| Properties.SweepShape | geminimain.py:99 | the sweep has 2|P| steps, starts with P, is a palindrome, and step k and step 2|P|-1-k (0-based) carry the same perplexity |
| Properties.SweepExample | geminimain.py:99 | for P = [5, 10, 30] the sweep is [5, 10, 30, 30, 10, 5] |
| Properties.BlockAt | geminimain.py:76-130 | row j of a block: the first |P| rows are shear rows carrying P in order; the next 2|P| are hysteresis rows numbered 1..2|P| carrying the sweep; the last is the viscoelastic row with the component count and the PCA recovery. Every row carries the trial and the dataset name. Scores use curvature at 2 components, and each step starts two KDE calls after the previous one |
| Properties.HysteresisOnlyThroughStream | geminimain.py:99-107 | if the entropy did not depend on the global stream, hysteresis steps s and 2|P|+1-s and shear step s would carry the same perplexity and the same score |
| Properties.RunRowsLength | geminimain.py:65-132 | the result has n_trials · |datasets| · (3|P| + 1) rows |
| Properties.DefaultRunLength | geminimain.py:65 | with the defaults (5 trials, 5 perplexities) and three datasets, there are 240 rows |
| Properties.BlockCount | geminimain.py:80-130 | a block holds |P| shear rows, 2|P| hysteresis rows, one viscoelastic row and nothing else |
| Properties.TrialCount | geminimain.py:74-130 | a trial holds |datasets| times a block's count of each experiment |
| Properties.RunCount | geminimain.py:70-132 | the run holds n·|datasets|·|P| shear rows, twice as many hysteresis rows, n·|datasets| viscoelastic rows, and no other |
| Layout.TrialRowsAt | geminimain.py:74-130 | within a trial, row j of dataset d's block sits at d·(3|P|+1) + j |
| Layout.RowIndexClosedForm | geminimain.py:70-74 | the position of row j of trial t and dataset d is (t·|datasets| + d)·(3|P|+1) + j |
| Layout.RunRowsAt | geminimain.py:70-130 | the row at that position is row j of the block of trial t and dataset d, whose first entropy estimate is 6|P|·d KDE calls after reseeding with t |
| Layout.RunRowsCover | geminimain.py:70-130 | every row of the result is such a block row for some trial t < n, dataset d and j < 3|P|+1 |
| Layout.TrialRowsTrial | geminimain.py:90-127 | every row of a trial's list carries that trial |
| Layout.RunRowsTrialsOrdered | geminimain.py:70-74 | trial numbers never decrease along the result list, and all are below n_trials |

## Left out

- KDE entropy (geminimain.py:40-45) is an uninterpreted function of the point set and the stream position: KDE fitting, resampling and the log-density mean are floating-point library code.
- Curvature, t-SNE, PCA fit and inverse, and StandardScaler (geminimain.py:48-52, 76-77, 81-82, 119-121) are uninterpreted. The only assumption is that they keep the row count. PCA is treated as deterministic.
- The Euclidean distance is abstract: a non-negative, symmetric function that is zero on equal points. Square roots are not modelled.
- Floats are modelled as exact reals, so 0.1 is exact and there is no rounding.
- Infinity and NaN are collapsed into `Score.Undefined`: the model does not tell +inf, -inf and NaN apart.
- Metrics.Deformation: requires two equally long sets of at least two points each. Other inputs have these outcomes, which are excluded rather than reproduced (a set of n points has n(n-1)/2 pairwise distances):
  - A two-point set against a set of three or more points: the single distance is broadcast, and the mean is finite.
  - Both sets have fewer than three points and at least one has fewer than two: the difference is empty, and its mean is NaN.
  - Every other mismatch raises ValueError, because the two distance vectors cannot be broadcast together. This includes a set of fewer than two points against one of three or more.
- The global random stream is a value passed to each entropy call, not process-wide mutable state. Its internal generator and the numbers each call draws are not modelled, only the seed and the number of calls since seeding.
- Dataset generation and the module-level seeding (geminimain.py:15-37) are not part of this model.
- Logging, the pandas DataFrame built from the rows, plotting and the `__main__` block (geminimain.py:12, 132-156) are not part of this model. The result is the list of rows in order.
- Runner.RunAnalysis: the dataset dictionary is a sequence of (name, data) pairs in iteration order. Distinct names are not required, because nothing in the runner depends on them.
- Runner.RunAnalysis: every library call is assumed to succeed. The source has no exception handling (geminimain.py:65-132), so a library error aborts the whole run with no result. The model does not capture that abort. Known cases:
  - t-SNE rejects a perplexity at least the number of samples (lines 81-82).
  - The KDE fails on a singular covariance, for example fewer samples than features (line 42).
  - PCA rejects more components than min(samples, features) (lines 119-120).
- Runner.RunAnalysis: perplexities are modelled as integers. The source passes whatever the list holds, and floats are also accepted.
- Runner.RunAnalysis: the PCA component count is modelled as a natural number. The source also accepts a variance fraction or None there (geminimain.py:119).
