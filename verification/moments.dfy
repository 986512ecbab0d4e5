/** Sample moments as pandas' mean and standard-deviation aggregation
    computes them over the values that are present (missing values are
    skipped). */
module Moments {
  import opened Wrappers
  import opened Seqs

  /** The arithmetic mean; undefined for no values. */
  function Mean(xs: seq<real>): (m: Option<real>)
    ensures m.Some? <==> |xs| >= 1
    ensures m.Some? ==> m.value * (|xs| as real) == Sum(xs)
  {
    if |xs| == 0 then None else Some(Sum(xs) / (|xs| as real))
  }

  function Square(d: real): real
  {
    d * d
  }

  lemma SquareNonNegative(d: real)
    ensures Square(d) >= 0.0
  {
  }

  lemma SquarePositive(d: real)
    requires d != 0.0
    ensures Square(d) > 0.0
  {
    if d > 0.0 {
      calc {
        Square(d);
        d * d;
      >  { assert d * d > 0.0 * d; }
        0.0;
      }
    } else {
      calc {
        Square(d);
        (-d) * (-d);
      >  { assert (-d) * (-d) > 0.0 * (-d); }
        0.0;
      }
    }
  }

  /** Sum of squared deviations of `xs` from `c`. */
  function SquaredDeviation(xs: seq<real>, c: real): real
  {
    if |xs| == 0 then 0.0 else Square(xs[0] - c) + SquaredDeviation(xs[1..], c)
  }

  lemma {:induction false} SquaredDeviationNonNegative(xs: seq<real>, c: real)
    ensures SquaredDeviation(xs, c) >= 0.0
  {
    if |xs| > 0 {
      SquareNonNegative(xs[0] - c);
      SquaredDeviationNonNegative(xs[1..], c);
    }
  }

  /** The squared deviation vanishes exactly when every value equals `c`. */
  lemma {:induction false} SquaredDeviationZero(xs: seq<real>, c: real)
    ensures SquaredDeviation(xs, c) == 0.0 <==> forall i :: 0 <= i < |xs| ==> xs[i] == c
  {
    if |xs| > 0 {
      SquareNonNegative(xs[0] - c);
      if xs[0] != c {
        SquarePositive(xs[0] - c);
      }
      SquaredDeviationZero(xs[1..], c);
      SquaredDeviationNonNegative(xs[1..], c);
      assert forall i :: 1 <= i < |xs| ==> xs[i] == xs[1..][i - 1];
    }
  }

  /** The sample variance with the n - 1 denominator (pandas' default
      `ddof=1`); undefined for fewer than two values. */
  function SampleVariance(xs: seq<real>): (v: Option<real>)
    ensures v.Some? <==> |xs| >= 2
    ensures v.Some? ==> v.value >= 0.0
    ensures v.Some? ==> v.value * ((|xs| - 1) as real) == SquaredDeviation(xs, Mean(xs).value)
  {
    if |xs| < 2 then None
    else
      var ss := SquaredDeviation(xs, Mean(xs).value);
      assert ss >= 0.0 by { SquaredDeviationNonNegative(xs, Mean(xs).value); }
      Some(ss / ((|xs| - 1) as real))
  }

  /** The two statistics of one baseline group. The standard deviation is the
      square root of `variance`. */
  datatype Stats = Stats(mean: Option<real>, variance: Option<real>)

  function Describe(xs: seq<real>): Stats
  {
    Stats(Mean(xs), SampleVariance(xs))
  }

  /** `s` is the mean and sample variance of `xs` as pandas reports them:
      the mean exists iff there is a value and times the count is the total;
      the variance exists iff there are two values, is non-negative, and
      times (n - 1) is the squared deviation from the mean. */
  predicate Summarises(s: Stats, xs: seq<real>)
  {
    && (s.mean.Some? <==> |xs| >= 1)
    && (s.mean.Some? ==> s.mean.value * (|xs| as real) == Sum(xs))
    && (s.variance.Some? <==> |xs| >= 2)
    && (s.variance.Some? ==> s.variance.value >= 0.0 &&
                             s.variance.value * ((|xs| - 1) as real) == SquaredDeviation(xs, s.mean.value))
  }

  lemma DescribeSummarises(xs: seq<real>)
    ensures Summarises(Describe(xs), xs)
  {
  }

  /** The mean lies within any bounds of the values. */
  lemma MeanWithin(xs: seq<real>, lo: real, hi: real)
    requires |xs| >= 1
    requires forall i :: 0 <= i < |xs| ==> lo <= xs[i] <= hi
    ensures lo <= Mean(xs).value <= hi
  {
    SumBounds(xs, lo, hi);
  }

  /** The variance is zero exactly when all values are equal. */
  lemma VarianceZeroIff(xs: seq<real>)
    requires |xs| >= 2
    ensures SampleVariance(xs).value == 0.0 <==>
            forall i, j :: 0 <= i < |xs| && 0 <= j < |xs| ==> xs[i] == xs[j]
  {
    var m := Mean(xs).value;
    SquaredDeviationZero(xs, m);
    if forall i, j :: 0 <= i < |xs| && 0 <= j < |xs| ==> xs[i] == xs[j] {
      MeanWithin(xs, xs[0], xs[0]);
    }
  }

  /** A constant sample has that constant as mean and zero variance. */
  lemma ConstantSample(xs: seq<real>, c: real)
    requires |xs| >= 2
    requires forall i :: 0 <= i < |xs| ==> xs[i] == c
    ensures Describe(xs) == Stats(Some(c), Some(0.0))
  {
    MeanWithin(xs, c, c);
    SquaredDeviationZero(xs, c);
  }
}
