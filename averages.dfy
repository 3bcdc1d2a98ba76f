/**
 * Sums, averages and squares over real sequences, used to state what the
 * ensemble's averaged predictions mean.
 */
module Averages {
  /** Reference definition: the sum of a sequence, first to last. */
  function Sum(xs: seq<real>): real
  {
    if xs == [] then 0.0 else xs[0] + Sum(xs[1..])
  }

  lemma {:induction false} SumSplitLast(xs: seq<real>)
    requires |xs| > 0
    ensures Sum(xs) == Sum(xs[..|xs| - 1]) + xs[|xs| - 1]
  {
    if |xs| > 1 {
      SumSplitLast(xs[1..]);
      assert xs[1..][..|xs[1..]| - 1] == xs[..|xs| - 1][1..];
    }
  }

  /** Entries in [lo, hi] sum to between |xs| * lo and |xs| * hi. */
  lemma {:induction false} SumBounds(xs: seq<real>, lo: real, hi: real)
    requires forall i :: 0 <= i < |xs| ==> lo <= xs[i] <= hi
    ensures |xs| as real * lo <= Sum(xs) <= |xs| as real * hi
  {
    if xs != [] {
      SumBounds(xs[1..], lo, hi);
    }
  }

  lemma DivideBounds(sum: real, n: real, lo: real, hi: real)
    requires n > 0.0 && n * lo <= sum <= n * hi
    ensures lo <= sum / n <= hi
  {
  }

  /** The average of entries in [lo, hi] lies in [lo, hi]. */
  lemma AverageBounds(xs: seq<real>, lo: real, hi: real)
    requires |xs| > 0
    requires forall i :: 0 <= i < |xs| ==> lo <= xs[i] <= hi
    ensures lo <= Sum(xs) / |xs| as real <= hi
  {
    SumBounds(xs, lo, hi);
    DivideBounds(Sum(xs), |xs| as real, lo, hi);
  }

  function Square(x: real): real
  {
    x * x
  }

  function Squares(xs: seq<real>): (r: seq<real>)
    ensures |r| == |xs|
  {
    seq(|xs|, i requires 0 <= i < |xs| => Square(xs[i]))
  }

  function Deviations(xs: seq<real>, c: real): (r: seq<real>)
    ensures |r| == |xs|
  {
    seq(|xs|, i requires 0 <= i < |xs| => Square(xs[i] - c))
  }

  /** sq - 2ct + nc^2: the sum of squared deviations from c, written out. */
  function Expanded(sq: real, t: real, n: real, c: real): real
  {
    sq - 2.0 * c * t + n * Square(c)
  }

  /**
   * The variance of the equal-weight mixture of Gaussians with means ms and
   * variances vs (law of total variance): mean variance plus spread of the means.
   */
  function MixtureVariance(ms: seq<real>, vs: seq<real>): real
    requires |ms| == |vs| > 0
  {
    var n := |ms| as real;
    Sum(vs) / n + (Sum(Squares(ms)) / n - Square(Sum(ms) / n))
  }

  /** Expanding the squared deviations from c, summed over xs. */
  lemma {:induction false} SumOfDeviations(xs: seq<real>, c: real)
    ensures Sum(Deviations(xs, c)) == Expanded(Sum(Squares(xs)), Sum(xs), |xs| as real, c)
  {
    if xs != [] {
      var rest := xs[1..];
      SumOfDeviations(rest, c);
      UnfoldSquareSums(xs, c);
      DeviationStep(xs[0], c, Sum(Deviations(rest, c)), Sum(Squares(rest)), Sum(rest), |rest| as real);
    }
  }

  lemma UnfoldSquareSums(xs: seq<real>, c: real)
    requires xs != []
    ensures Sum(Deviations(xs, c)) == Square(xs[0] - c) + Sum(Deviations(xs[1..], c))
    ensures Sum(Squares(xs)) == Square(xs[0]) + Sum(Squares(xs[1..]))
    ensures Sum(xs) == xs[0] + Sum(xs[1..]) && |xs| as real == |xs[1..]| as real + 1.0
  {
    SumOfDeviationsTail(xs, c);
    SumOfSquaresTail(xs);
  }

  lemma SumOfDeviationsTail(xs: seq<real>, c: real)
    requires xs != []
    ensures Sum(Deviations(xs, c)) == Square(xs[0] - c) + Sum(Deviations(xs[1..], c))
  {
    var dv := Deviations(xs, c);
    assert dv[1..] == Deviations(xs[1..], c);
    assert Sum(dv) == dv[0] + Sum(dv[1..]);
  }

  lemma SumOfSquaresTail(xs: seq<real>)
    requires xs != []
    ensures Sum(Squares(xs)) == Square(xs[0]) + Sum(Squares(xs[1..]))
  {
    var sq := Squares(xs);
    assert sq[1..] == Squares(xs[1..]);
    assert Sum(sq) == sq[0] + Sum(sq[1..]);
  }

  /** One step of the induction above, on plain numbers. */
  lemma DeviationStep(x: real, c: real, dev: real, sq: real, t: real, n: real)
    requires dev == Expanded(sq, t, n, c)
    ensures Square(x - c) + dev == Expanded(Square(x) + sq, x + t, n + 1.0, c)
  {
  }

  lemma SquareNonNegative(x: real)
    ensures Square(x) >= 0.0
  {
  }

  lemma {:induction false} SumNonNegative(xs: seq<real>)
    requires forall i :: 0 <= i < |xs| ==> xs[i] >= 0.0
    ensures Sum(xs) >= 0.0
  {
    if xs != [] {
      SumNonNegative(xs[1..]);
    }
  }

  lemma DeviationsNonNegative(xs: seq<real>, c: real)
    ensures Sum(Deviations(xs, c)) >= 0.0
  {
    var dv := Deviations(xs, c);
    forall i | 0 <= i < |xs|
      ensures dv[i] >= 0.0
    {
      SquareNonNegative(xs[i] - c);
    }
    SumNonNegative(dv);
  }

  /** The mean of the squares is at least the square of the mean. */
  lemma MeanSquareDominates(xs: seq<real>)
    requires |xs| > 0
    ensures Sum(Squares(xs)) / |xs| as real >= Square(Sum(xs) / |xs| as real)
  {
    var n, q, t := |xs| as real, Sum(Squares(xs)), Sum(xs);
    var c := t / n;
    var dv := Deviations(xs, c);
    var dev := Sum(dv);
    assert dev == Expanded(q, t, n, c) by {
      SumOfDeviations(xs, c);
    }
    DeviationsNonNegative(xs, c);
    DividedSquare(q, t, n, c, dev);
  }

  lemma DividedSquare(q: real, t: real, n: real, c: real, dev: real)
    requires n > 0.0 && c == t / n && dev == Expanded(q, t, n, c) && dev >= 0.0
    ensures q / n >= Square(c)
  {
    assert t == n * c;
    assert q >= n * (c * c);
    var m := q / n;
    assert m * n == q;
    assert (m - c * c) * n >= 0.0;
  }
}
