/** The z-score step of `filter_and_roll` (main.py:78-82): every row is
    joined with its (region, day-of-year) baseline entry, rows without one
    being dropped as by an inner merge, and scored as
    (rolling sum - baseline mean) / baseline standard deviation.

    Floating-point NaN is modelled as `None`. A division by a zero standard
    deviation, which pandas turns into NaN or an infinity, is also `None`:
    the model only claims a z-score where it is a real number. */
module Scoring {
  import opened Wrappers
  import opened Seqs
  import opened Records
  import opened Moments
  import opened Rolling
  import opened Baseline

  /** An output row: the loaded columns, the rolling sum, the group's
      baseline mean and standard deviation, and the z-score. */
  datatype Scored = Scored(row: Row, rollingSum: Option<real>, baseMean: Option<real>,
                           baseStd: Option<real>, z: Option<real>)

  /** pandas' `std` is the square root of the sample variance; the square
      root is supplied by the caller. */
  function StdDev(s: Stats, sqrt: real -> real): Option<real>
  {
    match s.variance
    case None => None
    case Some(v) => Some(sqrt(v))
  }

  /** The standard score of `x`: defined exactly when the rolling sum, the
      mean and a non-zero standard deviation are, and then scaling it back by
      the standard deviation and adding the mean recovers the rolling sum. */
  function ZScore(x: Option<real>, mean: Option<real>, std: Option<real>): (z: Option<real>)
    ensures z.Some? <==> x.Some? && mean.Some? && std.Some? && std.value != 0.0
    ensures z.Some? ==> z.value * std.value + mean.value == x.value
  {
    if x.Some? && mean.Some? && std.Some? && std.value != 0.0 then
      var d := x.value - mean.value;
      assert d / std.value * std.value == d;
      Some(d / std.value)
    else
      None
  }

  /** A baseline group whose two or more rolling sums are all equal has a
      zero standard deviation, so no rolling sum scored against it has a
      z-score (pandas gives NaN or an infinity there). */
  lemma ConstantGroupUnscored(x: Option<real>, xs: seq<real>, c: real, sqrt: real -> real)
    requires |xs| >= 2
    requires forall i :: 0 <= i < |xs| ==> xs[i] == c
    requires sqrt(0.0) == 0.0
    ensures ZScore(x, Describe(xs).mean, StdDev(Describe(xs), sqrt)) == None
  {
    ConstantSample(xs, c);
  }

  /** A rolling sum `k` standard deviations above the mean scores `k`. */
  lemma ZScoreOfDeviation(mean: real, std: real, k: real)
    requires std != 0.0
    ensures ZScore(Some(mean + k * std), Some(mean), Some(std)) == Some(k)
  {
    var z := ZScore(Some(mean + k * std), Some(mean), Some(std));
    assert z.value * std == k * std;
    assert (z.value - k) * std == 0.0;
  }

  /** Attaches a baseline entry and the resulting z-score to a row. */
  function Score(x: Rolled, s: Stats, sqrt: real -> real): Scored
  {
    var std := StdDev(s, sqrt);
    Scored(x.row, x.rollingSum, s.mean, std, ZScore(x.rollingSum, s.mean, std))
  }

  /** A scored row's z-score is defined exactly when its rolling sum,
      baseline mean and a non-zero baseline standard deviation are, and is
      then the number of standard deviations the rolling sum lies from the
      mean. */
  predicate Standardised(y: Scored)
  {
    && (y.z.Some? <==> y.rollingSum.Some? && y.baseMean.Some? && y.baseStd.Some? && y.baseStd.value != 0.0)
    && (y.z.Some? ==> y.z.value * y.baseStd.value + y.baseMean.value == y.rollingSum.value)
  }

  lemma ScoreStandardised(x: Rolled, s: Stats, sqrt: real -> real)
    ensures Standardised(Score(x, s, sqrt))
  {
  }

  /** The rolled row a scored row came from. */
  function Unscore(y: Scored): Rolled
  {
    Rolled(y.row, y.rollingSum)
  }

  function HasBaseline(table: map<Key, Stats>): Rolled -> bool
  {
    (x: Rolled) => KeyOf(x.row) in table
  }

  /** The inner merge on (region, doy) followed by the z-score column: every
      output row comes from an input row whose key has a baseline entry, and
      carries that entry's statistics and the z-score they give. */
  function Join(rows: seq<Rolled>, table: map<Key, Stats>, sqrt: real -> real): (out: seq<Scored>)
    ensures |out| <= |rows|
    ensures forall y :: y in out ==>
              && Unscore(y) in rows
              && KeyOf(y.row) in table
              && y == Score(Unscore(y), table[KeyOf(y.row)], sqrt)
  {
    if |rows| == 0 then []
    else
      var rest := Join(rows[1..], table, sqrt);
      assert forall x :: x in rows[1..] ==> x in rows;
      var key := KeyOf(rows[0].row);
      if key in table then [Score(rows[0], table[key], sqrt)] + rest else rest
  }

  /** The merge keeps, in order and once each, exactly the rows whose key has
      a baseline entry. */
  lemma {:induction false} JoinKeepsMatchedRows(rows: seq<Rolled>, table: map<Key, Stats>, sqrt: real -> real)
    ensures Map(Join(rows, table, sqrt), Unscore) == Filter(rows, HasBaseline(table))
  {
    if |rows| > 0 {
      JoinKeepsMatchedRows(rows[1..], table, sqrt);
      var rest := Join(rows[1..], table, sqrt);
      if KeyOf(rows[0].row) in table {
        var y := Score(rows[0], table[KeyOf(rows[0].row)], sqrt);
        assert Join(rows, table, sqrt) == [y] + rest;
        assert Unscore(y) == rows[0];
        assert Map([y] + rest, Unscore) == [Unscore(y)] + Map(rest, Unscore);
      }
    }
  }
}
