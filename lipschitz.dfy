/**
 * The bookkeeping around the Lipschitz-constant estimator of a surrogate's
 * mean function (ml_utils/lipschitz.py).
 *
 * The numerical parts are oracles: the surrogate's summed mean gradient at a
 * point, the unconstrained local minimiser and the restart-based bounded
 * minimiser each appear as a function value, and a minimiser is represented
 * by the objective value it reports (`opt_result.fun`), which is the most
 * negative gradient norm it found.
 */
module Lipschitz {
  import opened Wrappers

  /** Below this the surrogate is considered flat. */
  const FlatThreshold: real := 0.0000001
  /** The estimate reported for a flat surrogate. */
  const FlatFallback: real := 10.0

  /** One row of a search box: the closed interval [lo, hi]. */
  datatype Interval = Interval(lo: real, hi: real) {
    predicate Contains(y: real) {
      lo <= y <= hi
    }
  }

  type Box = seq<Interval>

  /** What the estimator needs of the surrogate. */
  datatype Surrogate = Surrogate(
    X: seq<seq<real>>,                // training inputs, one row per point
    gradSum: seq<real> -> seq<real>,  // dmu_dx at one point, summed over the trailing axis
    lengthscale: seq<real>)           // kern.lengthscale: one entry, or one per dimension

  /** The two optimisers, each reduced to the best objective value it reports. */
  datatype Optimizers = Optimizers(
    localMin: seq<real> -> real,  // scipy minimize seeded at a point
    restartMin: Box -> real)      // minimize_with_restarts inside a box

  datatype EstimateError = EmptyGradients  // numpy argmax of an empty array

  /**
   * The estimate derived from the best (lowest) objective value: the gradient
   * norm found, or the fallback when that norm is below the flat threshold.
   */
  function FromOptimum(bestNegativeDf: real): (L: real)
    ensures L >= FlatThreshold
    ensures L >= -bestNegativeDf
    ensures L == -bestNegativeDf || L == FlatFallback
    ensures L != -bestNegativeDf ==> -bestNegativeDf < FlatThreshold
  {
    var L := -bestNegativeDf;
    if L < FlatThreshold then FlatFallback else L
  }

  // ---------------------------------------------------------------------------
  // numpy argmax on a two-dimensional array

  /** The index of the first maximal element, as numpy's argmax returns it. */
  function FirstArgMax(s: seq<real>): (k: nat)
    requires |s| > 0
    ensures k < |s|
    ensures forall j :: 0 <= j < |s| ==> s[j] <= s[k]
    ensures forall j :: 0 <= j < k ==> s[j] < s[k]
  {
    if |s| == 1 then 0
    else
      var k := FirstArgMax(s[..|s| - 1]);
      if s[|s| - 1] > s[k] then |s| - 1 else k
  }

  /** Row-major flattening, the order in which numpy's argmax visits a matrix. */
  function Flatten(m: seq<seq<real>>): seq<real>
  {
    if m == [] then [] else m[0] + Flatten(m[1..])
  }

  ghost predicate Rectangular(m: seq<seq<real>>, d: nat)
  {
    forall i :: 0 <= i < |m| ==> |m[i]| == d
  }

  /** The row of flat position k in a matrix with d columns (the quotient k / d). */
  function RowOf(k: nat, d: nat): nat
    requires d > 0
    decreases k
  {
    if k < d then 0 else 1 + RowOf(k - d, d)
  }

  /** The column of flat position k in a matrix with d columns (the remainder k % d). */
  function ColOf(k: nat, d: nat): (c: nat)
    requires d > 0
    ensures c < d
    decreases k
  {
    if k < d then k else ColOf(k - d, d)
  }

  /** The flat position of entry (i, c) in a matrix with d columns (i * d + c). */
  function FlatIndex(i: nat, c: nat, d: nat): nat
  {
    if i == 0 then c else d + FlatIndex(i - 1, c, d)
  }

  /** FlatIndex is row-major order: entry (i, c) comes after i full rows. */
  lemma {:induction false} FlatIndexIsRowMajor(i: nat, c: nat, d: nat)
    ensures FlatIndex(i, c, d) == i * d + c
  {
    if i > 0 {
      FlatIndexIsRowMajor(i - 1, c, d);
      assert i * d == d + (i - 1) * d;
    }
  }

  /** RowOf and ColOf recover the entry a flat position denotes. */
  lemma {:induction false} RowColInvertFlatIndex(k: nat, d: nat)
    requires d > 0
    ensures FlatIndex(RowOf(k, d), ColOf(k, d), d) == k
    decreases k
  {
    if k >= d {
      RowColInvertFlatIndex(k - d, d);
    }
  }

  /**
   * RowOf and ColOf are the quotient and remainder of dividing k by d:
   * k == RowOf(k, d) * d + ColOf(k, d) with 0 <= ColOf(k, d) < d.
   */
  lemma {:induction false} RowOfIsQuotient(k: nat, d: nat)
    requires d > 0
    ensures k == RowOf(k, d) * d + ColOf(k, d) && ColOf(k, d) < d
  {
    RowColInvertFlatIndex(k, d);
    FlatIndexIsRowMajor(RowOf(k, d), ColOf(k, d), d);
  }

  /** With one column the row of a flat position is the position itself. */
  lemma {:induction false} RowOfSingleColumn(k: nat)
    ensures RowOf(k, 1) == k
  {
    if k > 0 {
      RowOfSingleColumn(k - 1);
    }
  }

  /** Entry (i, c) of a rectangular matrix sits at flat position FlatIndex(i, c, d). */
  lemma {:induction false} FlattenAt(m: seq<seq<real>>, d: nat, i: nat, c: nat)
    requires Rectangular(m, d) && i < |m| && c < d
    ensures FlatIndex(i, c, d) < |Flatten(m)| && Flatten(m)[FlatIndex(i, c, d)] == m[i][c]
  {
    if i > 0 {
      FlattenAt(m[1..], d, i - 1, c);
    }
  }

  /** Flat position k of a rectangular matrix is entry (RowOf(k, d), ColOf(k, d)). */
  lemma {:induction false} FlatPosition(m: seq<seq<real>>, d: nat, k: nat)
    requires Rectangular(m, d) && d > 0 && k < |Flatten(m)|
    ensures RowOf(k, d) < |m|
    ensures Flatten(m)[k] == m[RowOf(k, d)][ColOf(k, d)]
  {
    if k >= d {
      FlatPosition(m[1..], d, k - d);
    }
  }

  /** An entry of an earlier row comes earlier in row-major order. */
  lemma {:induction false} BeforeRow(i: nat, c: nat, k: nat, d: nat)
    requires d > 0 && i < RowOf(k, d) && c < d
    ensures FlatIndex(i, c, d) < k
    decreases i
  {
    if i > 0 {
      BeforeRow(i - 1, c, k - d, d);
    }
  }

  /** The entry at numpy's flat argmax is a largest entry, and no earlier row holds one. */
  lemma FlatArgMaxFacts(m: seq<seq<real>>, d: nat)
    requires Rectangular(m, d) && |m| > 0 && d > 0
    ensures |Flatten(m)| > 0
    ensures var k := FirstArgMax(Flatten(m));
      RowOf(k, d) < |m| &&
      (forall i, c :: 0 <= i < |m| && 0 <= c < d ==> m[i][c] <= m[RowOf(k, d)][ColOf(k, d)]) &&
      (forall i, c :: 0 <= i < RowOf(k, d) && 0 <= c < d ==> m[i][c] < m[RowOf(k, d)][ColOf(k, d)])
  {
    FlattenAt(m, d, 0, 0);
    var k := FirstArgMax(Flatten(m));
    FlatPosition(m, d, k);
    forall i, c | 0 <= i < |m| && 0 <= c < d
      ensures m[i][c] <= m[RowOf(k, d)][ColOf(k, d)]
      ensures i < RowOf(k, d) ==> m[i][c] < m[RowOf(k, d)][ColOf(k, d)]
    {
      FlattenAt(m, d, i, c);
      if i < RowOf(k, d) {
        BeforeRow(i, c, k, d);
      }
    }
  }

  /**
   * The seed index as lipschitz.py:35 computes it: numpy's argmax over the
   * summed-gradient matrix, which is an index into the FLATTENED matrix.
   */
  function SeedIndexAsWritten(grads: seq<seq<real>>, d: nat): (k: nat)
    requires Rectangular(grads, d) && |grads| > 0 && d > 0
    ensures RowOf(k, d) < |grads|
    ensures forall i, c :: 0 <= i < |grads| && 0 <= c < d ==> grads[i][c] <= grads[RowOf(k, d)][ColOf(k, d)]
  {
    FlatArgMaxFacts(grads, d);
    FirstArgMax(Flatten(grads))
  }

  /**
   * The seed row as intended: the first training point (in row-major order)
   * whose summed gradient holds the largest entry.
   */
  function SeedRow(grads: seq<seq<real>>, d: nat): (r: nat)
    requires Rectangular(grads, d) && |grads| > 0 && d > 0
    ensures r < |grads|
    ensures exists c :: 0 <= c < d && forall i, c' :: 0 <= i < |grads| && 0 <= c' < d ==> grads[i][c'] <= grads[r][c]
    ensures forall i :: 0 <= i < r ==>
      exists c :: 0 <= c < d && forall c' :: 0 <= c' < d ==> grads[i][c'] < grads[r][c]
  {
    FlatArgMaxFacts(grads, d);
    var k := FirstArgMax(Flatten(grads));
    var r, c := RowOf(k, d), ColOf(k, d);
    assert forall i, c' :: 0 <= i < |grads| && 0 <= c' < d ==> grads[i][c'] <= grads[r][c];
    assert forall i :: 0 <= i < r ==> forall c' :: 0 <= c' < d ==> grads[i][c'] < grads[r][c];
    r
  }

  /** In one dimension the flat index is the row index, so the two agree. */
  lemma SeedAgreesInOneDimension(grads: seq<seq<real>>)
    requires Rectangular(grads, 1) && |grads| > 0
    ensures SeedIndexAsWritten(grads, 1) == SeedRow(grads, 1)
  {
    RowOfSingleColumn(SeedIndexAsWritten(grads, 1));
  }

  /**
   * With two training points in two dimensions whose largest summed-gradient
   * entry is the second coordinate of the first point, lipschitz.py:35-36
   * seeds at the second point (flat index 1), although the largest entry is
   * in the first.
   */
  lemma SeedIndexAsWrittenPicksWrongRow()
    ensures var g := [[0.0, 1.0], [0.0, 0.0]];
      SeedIndexAsWritten(g, 2) == 1 && SeedRow(g, 2) == 0
  {
    var g := [[0.0, 1.0], [0.0, 0.0]];
    assert Flatten(g) == [0.0, 1.0, 0.0, 0.0] by {
      assert Flatten(g[1..][1..]) == [];
    }
    assert FirstArgMax([0.0, 1.0, 0.0, 0.0]) == 1 by {
      assert FirstArgMax([0.0, 1.0, 0.0]) == 1 by {
        assert FirstArgMax([0.0, 1.0]) == 1;
      }
    }
  }

  /**
   * With one training point in two dimensions whose second coordinate has the
   * larger summed gradient, the flat index 1 is not a row of X at all.
   */
  lemma SeedIndexAsWrittenOutOfRange()
    ensures var g := [[0.0, 1.0]];
      SeedIndexAsWritten(g, 2) >= |g|
  {
  }

  // ---------------------------------------------------------------------------
  // estimate_lipschitz_constant and estimate_lipschitz_around_x

  /** The summed gradients at the training inputs, one row per point. */
  function TrainingGradients(s: Surrogate): (g: seq<seq<real>>)
    ensures |g| == |s.X|
    ensures forall i :: 0 <= i < |s.X| ==> g[i] == s.gradSum(s.X[i])
  {
    seq(|s.X|, i requires 0 <= i < |s.X| => s.gradSum(s.X[i]))
  }

  /** Every training input and every summed gradient has the dimension of X's first row. */
  ghost predicate WellShaped(s: Surrogate)
  {
    |s.X| > 0 ==>
      forall i :: 0 <= i < |s.X| ==> |s.X[i]| == |s.X[0]| && |s.gradSum(s.X[i])| == |s.X[0]|
  }

  /** Training point i carries an entry of summed gradient no other entry exceeds. */
  ghost predicate HoldsLargestGradient(s: Surrogate, i: nat)
    requires WellShaped(s) && i < |s.X|
  {
    exists c :: 0 <= c < |s.X[0]| &&
      forall j, c' :: 0 <= j < |s.X| && 0 <= c' < |s.X[0]| ==> s.gradSum(s.X[j])[c'] <= s.gradSum(s.X[i])[c]
  }

  /** The corrected seed is a training point holding the largest summed-gradient entry. */
  lemma SeedRowHoldsLargestGradient(s: Surrogate)
    requires WellShaped(s) && |s.X| > 0 && |s.X[0]| > 0
    ensures var r := SeedRow(TrainingGradients(s), |s.X[0]|);
      r < |s.X| && HoldsLargestGradient(s, r)
  {
    var g, d := TrainingGradients(s), |s.X[0]|;
    var r := SeedRow(g, d);
    var c :| 0 <= c < d && forall i, c' :: 0 <= i < |g| && 0 <= c' < d ==> g[i][c'] <= g[r][c];
    assert forall j, c' :: 0 <= j < |s.X| && 0 <= c' < d ==> s.gradSum(s.X[j])[c'] <= s.gradSum(s.X[r])[c];
  }

  /**
   * The Lipschitz estimate: over the given box with the restart optimiser, or,
   * without a box, with the local optimiser seeded at the training point of
   * largest summed gradient. Only the latter can fail, when there is no
   * gradient entry to take the argmax of.
   */
  function EstimateLipschitzConstant(s: Surrogate, bounds: Option<Box>, opt: Optimizers): (r: Result<real, EstimateError>)
    requires bounds.None? ==> WellShaped(s)
    ensures r.Success? ==> r.value >= FlatThreshold
    ensures r.Failure? <==> bounds.None? && (|s.X| == 0 || |s.X[0]| == 0)
    ensures bounds.Some? ==> r == Success(FromOptimum(opt.restartMin(bounds.value)))
    ensures bounds.None? && r.Success? ==>
      exists seed :: 0 <= seed < |s.X| && HoldsLargestGradient(s, seed) &&
        r.value == FromOptimum(opt.localMin(s.X[seed]))
  {
    match bounds
    case Some(box) => Success(FromOptimum(opt.restartMin(box)))
    case None =>
      if |s.X| == 0 || |s.X[0]| == 0 then Failure(EmptyGradients)
      else
        var grads := TrainingGradients(s);
        var seed := SeedRow(grads, |s.X[0]|);
        SeedRowHoldsLargestGradient(s);
        Success(FromOptimum(opt.localMin(s.X[seed])))
  }

  /** The length-scale of dimension i, broadcast when the kernel has only one. */
  function LengthscaleAt(theta: seq<real>, i: nat): real
    requires |theta| == 1 || i < |theta|
  {
    if |theta| == 1 then theta[0] else theta[i]
  }

  /**
   * The local search box around x: per dimension, the global interval
   * intersected with [x - theta, x + theta].
   */
  function LocalBox(x: seq<real>, theta: seq<real>, bounds: Box): (box: Box)
    requires |bounds| == |x| && (|theta| == 1 || |theta| == |x|)
    ensures |box| == |x|
    ensures forall i :: 0 <= i < |x| ==>
      box[i].lo >= bounds[i].lo && box[i].lo >= x[i] - LengthscaleAt(theta, i) &&
      (box[i].lo == bounds[i].lo || box[i].lo == x[i] - LengthscaleAt(theta, i))
    ensures forall i :: 0 <= i < |x| ==>
      box[i].hi <= bounds[i].hi && box[i].hi <= x[i] + LengthscaleAt(theta, i) &&
      (box[i].hi == bounds[i].hi || box[i].hi == x[i] + LengthscaleAt(theta, i))
    ensures forall i, y :: 0 <= i < |x| ==>
      (box[i].Contains(y) <==>
        bounds[i].Contains(y) && Interval(x[i] - LengthscaleAt(theta, i), x[i] + LengthscaleAt(theta, i)).Contains(y))
  {
    seq(|x|, i requires 0 <= i < |x| =>
      var t := LengthscaleAt(theta, i);
      Interval(if bounds[i].lo >= x[i] - t then bounds[i].lo else x[i] - t,
               if bounds[i].hi <= x[i] + t then bounds[i].hi else x[i] + t))
  }

  /** A point inside the global box stays inside its own local box. */
  lemma LocalBoxContainsCentre(x: seq<real>, theta: seq<real>, bounds: Box, i: nat)
    requires |bounds| == |x| && (|theta| == 1 || |theta| == |x|) && i < |x|
    requires bounds[i].Contains(x[i]) && LengthscaleAt(theta, i) >= 0.0
    ensures LocalBox(x, theta, bounds)[i].Contains(x[i])
  {
  }

  /** The Lipschitz constant estimated over the local box around x. */
  function EstimateLipschitzAroundX(x: seq<real>, s: Surrogate, bounds: Box, opt: Optimizers): (L: real)
    requires |bounds| == |x| && (|s.lengthscale| == 1 || |s.lengthscale| == |x|)
    ensures L >= FlatThreshold
    ensures L == FromOptimum(opt.restartMin(LocalBox(x, s.lengthscale, bounds)))
  {
    var r := EstimateLipschitzConstant(s, Some(LocalBox(x, s.lengthscale, bounds)), opt);
    r.value
  }
}
