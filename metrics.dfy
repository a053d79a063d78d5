/** The closed-form estimators: deformation (mean absolute change of the
    pairwise distances) and the composite viscosity score. Floating-point
    values are modelled as reals. */
module Metrics {
  import opened Condensed

  /** One sample: a row of the data matrix. */
  type Point = seq<real>

  /** A data matrix, rows = samples. */
  type PointSet = seq<Point>

  /** The axioms assumed of the Euclidean distance, which is left abstract. */
  ghost predicate IsDistance(dist: (Point, Point) -> real)
  {
    forall x, y :: dist(x, y) >= 0.0 && dist(x, y) == dist(y, x) && (x == y ==> dist(x, y) == 0.0)
  }

  function Abs(x: real): real
  {
    if x < 0.0 then -x else x
  }

  function Sum(s: seq<real>): real
  {
    if s == [] then 0.0 else s[0] + Sum(s[1..])
  }

  /** Arithmetic mean of a non-empty vector. */
  function Mean(s: seq<real>): real
    requires |s| > 0
  {
    Sum(s) / |s| as real
  }

  predicate AllNonNeg(s: seq<real>)
  {
    forall k :: 0 <= k < |s| ==> s[k] >= 0.0
  }

  lemma {:induction false} SumNonNeg(s: seq<real>)
    requires AllNonNeg(s)
    ensures Sum(s) >= 0.0
  {
    if s != [] {
      SumNonNeg(s[1..]);
    }
  }

  /** A sum of non-negative terms vanishes exactly when every term does. */
  lemma {:induction false} SumZeroIff(s: seq<real>)
    requires AllNonNeg(s)
    ensures Sum(s) == 0.0 <==> forall k :: 0 <= k < |s| ==> s[k] == 0.0
  {
    if s != [] {
      SumZeroIff(s[1..]);
      SumNonNeg(s[1..]);
      if Sum(s) == 0.0 {
        forall k | 0 <= k < |s| ensures s[k] == 0.0 {
          if k > 0 {
            assert s[k] == s[1..][k - 1];
          }
        }
      } else {
        assert s[0] != 0.0 || exists k :: 0 <= k < |s[1..]| && s[1..][k] != 0.0;
      }
    }
  }

  /** The condensed distance vector: dist over every pair i < j, in
      condensed order. */
  function PDist(x: PointSet, dist: (Point, Point) -> real): (d: seq<real>)
    ensures |d| == |Pairs(|x|)|
  {
    var ps := Pairs(|x|);
    seq(|ps|, k requires 0 <= k < |ps| => dist(x[ps[k].0], x[ps[k].1]))
  }

  /** Element-wise absolute difference of two equally long vectors. */
  function AbsDiffs(p: seq<real>, q: seq<real>): (r: seq<real>)
    requires |p| == |q|
    ensures |r| == |p| && AllNonNeg(r)
  {
    seq(|p|, k requires 0 <= k < |p| => Abs(p[k] - q[k]))
  }

  /** The distance between x[i] and x[j] sits at the condensed index of the
      pair; for a symmetric distance either order of i and j may be asked. */
  lemma PDistAt(x: PointSet, dist: (Point, Point) -> real, i: nat, j: nat)
    requires IsDistance(dist)
    requires i < |x| && j < |x| && i != j
    ensures var lo, hi := if i < j then i else j, if i < j then j else i;
      CondensedIndex(|x|, lo, hi) < |PDist(x, dist)| &&
      PDist(x, dist)[CondensedIndex(|x|, lo, hi)] == dist(x[i], x[j])
  {
    var lo, hi := if i < j then i else j, if i < j then j else i;
    PairsAt(|x|, lo, hi);
    assert dist(x[lo], x[hi]) == dist(x[hi], x[lo]);
  }

  /** Mean absolute difference between the pairwise distances of a and of b. */
  function Deformation(a: PointSet, b: PointSet, dist: (Point, Point) -> real): (r: real)
    requires |a| == |b| >= 2
    ensures r >= 0.0
  {
    PairsSmall(|a|);
    var diffs := AbsDiffs(PDist(a, dist), PDist(b, dist));
    SumNonNeg(diffs);
    Mean(diffs)
  }

  /** Deformation is zero exactly when every element-wise difference of
      the two condensed distance vectors is. */
  lemma DeformationZeroDiffs(a: PointSet, b: PointSet, dist: (Point, Point) -> real)
    requires |a| == |b| >= 2
    ensures var diffs := AbsDiffs(PDist(a, dist), PDist(b, dist));
      Deformation(a, b, dist) == 0.0 <==> forall k :: 0 <= k < |diffs| ==> diffs[k] == 0.0
  {
    var diffs := AbsDiffs(PDist(a, dist), PDist(b, dist));
    PairsSmall(|a|);
    SumZeroIff(diffs);
    QuotientZero(Sum(diffs), |diffs| as real);
  }

  lemma QuotientZero(x: real, y: real)
    requires y > 0.0
    ensures x / y == 0.0 <==> x == 0.0
  {
    if x / y == 0.0 {
      assert x == (x / y) * y;
    }
  }

  /** A point set is not deformed by being compared with itself. */
  lemma DeformationSelf(a: PointSet, dist: (Point, Point) -> real)
    requires |a| >= 2
    ensures Deformation(a, a, dist) == 0.0
  {
    var p := PDist(a, dist);
    DeformationZeroDiffs(a, a, dist);
    forall k | 0 <= k < |p| ensures AbsDiffs(p, p)[k] == 0.0 {
      assert AbsDiffs(p, p)[k] == Abs(p[k] - p[k]);
    }
  }

  /** Deformation does not depend on which set is called the original. */
  lemma DeformationSymmetric(a: PointSet, b: PointSet, dist: (Point, Point) -> real)
    requires |a| == |b| >= 2
    ensures Deformation(a, b, dist) == Deformation(b, a, dist)
  {
    var pa, pb := PDist(a, dist), PDist(b, dist);
    assert AbsDiffs(pa, pb) == AbsDiffs(pb, pa) by {
      forall k | 0 <= k < |pa| ensures Abs(pa[k] - pb[k]) == Abs(pb[k] - pa[k]) {
      }
    }
  }

  /** Deformation is zero exactly when the transform preserves every pairwise
      distance. */
  lemma DeformationZeroIff(a: PointSet, b: PointSet, dist: (Point, Point) -> real)
    requires |a| == |b| >= 2
    ensures Deformation(a, b, dist) == 0.0 <==>
      forall i, j :: 0 <= i < j < |a| ==> dist(a[i], a[j]) == dist(b[i], b[j])
  {
    var pa, pb := PDist(a, dist), PDist(b, dist);
    var diffs := AbsDiffs(pa, pb);
    DeformationZeroDiffs(a, b, dist);
    if Deformation(a, b, dist) == 0.0 {
      forall i, j | 0 <= i < j < |a| ensures dist(a[i], a[j]) == dist(b[i], b[j]) {
        PairsAt(|a|, i, j);
        assert diffs[CondensedIndex(|a|, i, j)] == 0.0;
      }
    } else {
      var k :| 0 <= k < |diffs| && diffs[k] != 0.0;
      var p := Pairs(|a|)[k];
      assert pa[k] != pb[k];
      assert dist(a[p.0], a[p.1]) != dist(b[p.0], b[p.1]);
    }
  }

  /** The outcome of a floating-point division: a finite value, or the
      infinity/NaN that a division by zero yields. */
  datatype Score = Finite(value: real) | Undefined

  lemma ProductZero(x: real, y: real)
    ensures x * y == 0.0 <==> x == 0.0 || y == 0.0
  {
  }

  /** The viscosity score: entropy lost by the reduction, normalised by the
      source entropy and penalised by deformation and a curvature term. The
      2 in (2 - c0) is the target dimensionality at which c0 was measured. */
  function Viscosity(e0: real, e1: real, c0: real, d: real): (s: Score)
    ensures s.Finite? <==> e0 != 0.0 && d != -1.0 && c0 != 12.0
    ensures s.Finite? ==> s.value * (e0 * (1.0 + d) * (1.0 + 0.1 * (2.0 - c0))) == e0 - e1
  {
    var den := e0 * (1.0 + d) * (1.0 + 0.1 * (2.0 - c0));
    ProductZero(e0, 1.0 + d);
    ProductZero(e0 * (1.0 + d), 1.0 + 0.1 * (2.0 - c0));
    if den == 0.0 then Undefined else Finite((e0 - e1) / den)
  }

  /** In the ranges the estimators produce (d >= 0, c0 in [0, 1]) a zero
      source entropy is the only way for the score to be undefined. */
  lemma ViscosityDefined(e0: real, e1: real, c0: real, d: real)
    requires d >= 0.0 && 0.0 <= c0 <= 1.0
    ensures Viscosity(e0, e1, c0, d).Finite? <==> e0 != 0.0
  {
  }

  /** A defined score is zero exactly when no entropy was lost. */
  lemma ViscosityZeroIff(e0: real, e1: real, c0: real, d: real)
    requires Viscosity(e0, e1, c0, d).Finite?
    ensures Viscosity(e0, e1, c0, d).value == 0.0 <==> e1 == e0
  {
  }

  /** No entropy loss and no deformation give a zero score. */
  lemma ViscosityNoLoss(e0: real, c0: real)
    requires e0 != 0.0 && c0 != 12.0
    ensures Viscosity(e0, e0, c0, 0.0) == Finite(0.0)
  {
  }

  /** For a positive source entropy and estimator outputs in range, the score
      is positive exactly when entropy was lost and negative exactly when it
      grew, and the penalties only shrink it: its magnitude is at most the
      relative entropy change divided by 1.1. */
  lemma ViscositySignAndBound(e0: real, e1: real, c0: real, d: real)
    requires e0 > 0.0 && d >= 0.0 && 0.0 <= c0 <= 1.0
    ensures Viscosity(e0, e1, c0, d).Finite?
    ensures Viscosity(e0, e1, c0, d).value > 0.0 <==> e1 < e0
    ensures Viscosity(e0, e1, c0, d).value < 0.0 <==> e1 > e0
    ensures 1.1 * Abs(Viscosity(e0, e1, c0, d).value) <= Abs(e0 - e1) / e0
  {
    var pen := (1.0 + d) * (1.0 + 0.1 * (2.0 - c0));
    assert pen >= 1.1;
    var den := e0 * pen;
    assert den == e0 * (1.0 + d) * (1.0 + 0.1 * (2.0 - c0));
    assert den >= 1.1 * e0;
    var v := Viscosity(e0, e1, c0, d).value;
    assert v == (e0 - e1) / den;
    assert Abs(v) == Abs(e0 - e1) / den;
    assert Abs(e0 - e1) / den <= Abs(e0 - e1) / (1.1 * e0);
  }
}
