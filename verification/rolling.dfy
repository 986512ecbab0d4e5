/** The per-region trailing rolling sum of `filter_and_roll` (main.py:53-60):
    each region's amounts summed over an offset window of `window` days,
    with at least `int(window/3)` observations required.

    `RollingSum` is the reference definition: the sum of one region's amounts
    over the observations dated in the half-open day interval
    (at - window, at], defined only when that interval holds at least
    `int(window/3)` observations. `RollSeries` and `RollingIndex` compute it the
    way pandas' variable-width window does, by sliding two indices along each
    region's date-ordered series, and are proved to agree with it. */
module Rolling {
  import opened Wrappers
  import opened Seqs
  import opened Calendar
  import opened Records

  /** `int(window/3)`: for a non-negative window Python's truncation of the
      true quotient is the floor. */
  function MinPeriods(window: nat): (n: nat)
    ensures 3 * n <= window < 3 * n + 3
  {
    window / 3
  }

  /** A `'{window}d'` offset window is closed on the right and open on the
      left: it holds the timestamps of the last `window` days up to and
      including `at`. */
  predicate InWindow(at: int, window: nat, t: int)
  {
    at - window < t <= at
  }

  function WindowAt(at: int, window: nat): Row -> bool
  {
    (o: Row) => InWindow(at, window, o.stamp)
  }

  function InRegion(r: Region): Row -> bool
  {
    (o: Row) => o.region == r
  }

  function RegionWindow(r: Region, at: int, window: nat): Row -> bool
  {
    (o: Row) => o.region == r && InWindow(at, window, o.stamp)
  }

  /** The rows of one region, in their original order. */
  function RegionSeries(df: seq<Row>, r: Region): seq<Row>
  {
    Filter(df, InRegion(r))
  }

  function Amounts(s: seq<Row>): seq<real>
  {
    Map(s, Precip)
  }

  /** What a window yields: the sum of its amounts if it holds at least
      `min_periods` observations, and NaN (`None`) otherwise. */
  function WindowValue(w: seq<Row>, window: nat): Option<real>
  {
    if |w| >= MinPeriods(window) then Some(Sum(Amounts(w))) else None
  }

  /** A row with its rolling sum attached, as the merge on (region, date)
      leaves it (main.py:62-64). */
  datatype Rolled = Rolled(row: Row, rollingSum: Option<real>)

  /** Attaches to a row the rolling sum of its own region and date in `df`. */
  function RollOver(df: seq<Row>, window: nat): Row -> Rolled
  {
    (row: Row) => Rolled(row, RollingSum(df, row.region, row.stamp, window))
  }

  /** Reference definition of region `r`'s rolling sum at timestamp `at`. */
  function RollingSum(df: seq<Row>, r: Region, at: int, window: nat): Option<real>
  {
    WindowValue(Filter(df, RegionWindow(r, at, window)), window)
  }

  /** Timestamps strictly increase along `s`. */
  predicate Increasing(s: seq<Row>)
  {
    forall i, j :: 0 <= i < j < |s| ==> s[i].stamp < s[j].stamp
  }

  /** A row is in r's window exactly when it belongs to r and its timestamp
      lies in the half-open day interval ending at `at` (timestamps are day
      ordinals, so by `Calendar.NextDayOrdinal` these are the last `window`
      calendar days); the sum is defined exactly when the window holds at
      least `int(window/3)` rows. */
  lemma WindowMembership(df: seq<Row>, r: Region, at: int, window: nat, o: Row)
    ensures o in Filter(df, RegionWindow(r, at, window)) <==>
            o in df && o.region == r && at - window < o.stamp <= at
    ensures RollingSum(df, r, at, window).Some? <==>
            |Filter(df, RegionWindow(r, at, window))| >= window / 3
  {
  }

  /** Windowing a region's own series gives the region's window of the whole table. */
  lemma RegionWindowOfSeries(df: seq<Row>, r: Region, at: int, window: nat)
    ensures Filter(RegionSeries(df, r), WindowAt(at, window)) == Filter(df, RegionWindow(r, at, window))
  {
    FilterFilter(df, InRegion(r), WindowAt(at, window), RegionWindow(r, at, window));
  }

  /** A region's rolling sums depend on that region's rows only. */
  lemma RollingSumLocal(df1: seq<Row>, df2: seq<Row>, r: Region, at: int, window: nat)
    requires RegionSeries(df1, r) == RegionSeries(df2, r)
    ensures RollingSum(df1, r, at, window) == RollingSum(df2, r, at, window)
  {
    RegionWindowOfSeries(df1, r, at, window);
    RegionWindowOfSeries(df2, r, at, window);
  }

  lemma RegionSeriesIgnoresOtherRegions(a: seq<Row>, extra: seq<Row>, b: seq<Row>, r: Region)
    requires forall o :: o in extra ==> o.region != r
    ensures RegionSeries(a + extra + b, r) == RegionSeries(a + b, r)
  {
    FilterSkips(a, extra, b, InRegion(r));
  }

  /** Adding (or, read backwards, removing) rows of other regions anywhere in
      the table leaves region r's rolling sums unchanged. */
  lemma RollingSumIgnoresOtherRegions(a: seq<Row>, extra: seq<Row>, b: seq<Row>,
                                      r: Region, at: int, window: nat)
    requires forall o :: o in extra ==> o.region != r
    ensures RollingSum(a + extra + b, r, at, window) == RollingSum(a + b, r, at, window)
  {
    RegionSeriesIgnoresOtherRegions(a, extra, b, r);
    RollingSumLocal(a + extra + b, a + b, r, at, window);
  }

  /** Changing a row of another region (into a row of yet another region)
      leaves region r's rolling sums unchanged. */
  lemma RollingSumIgnoresOtherRegionUpdate(df: seq<Row>, i: int, o: Row,
                                           r: Region, at: int, window: nat)
    requires 0 <= i < |df|
    requires df[i].region != r && o.region != r
    ensures RollingSum(df[i := o], r, at, window) == RollingSum(df, r, at, window)
  {
    assert df == df[..i] + [df[i]] + df[i + 1..];
    assert df[i := o] == df[..i] + [o] + df[i + 1..];
    RollingSumIgnoresOtherRegions(df[..i], [df[i]], df[i + 1..], r, at, window);
    RollingSumIgnoresOtherRegions(df[..i], [o], df[i + 1..], r, at, window);
  }

  /** Each region's series of a well-formed table has increasing timestamps. */
  lemma RegionSeriesIncreasing(df: seq<Row>, r: Region)
    requires WellFormed(df)
    ensures Increasing(RegionSeries(df, r))
  {
    FilterWellFormed(df, InRegion(r));
    var s := RegionSeries(df, r);
    forall i, j | 0 <= i < j < |s|
      ensures s[i].stamp < s[j].stamp
    {
      assert s[i] in s && s[j] in s;
    }
  }

  /** On an increasing series, the window ending at `s[i]` is the contiguous
      run from the first date inside it up to `s[i]` itself. */
  lemma WindowIsSlice(s: seq<Row>, i: int, start: int, window: nat)
    requires Increasing(s)
    requires 0 <= i < |s| && 0 <= start <= i + 1
    requires forall j :: 0 <= j < start ==> s[j].stamp <= s[i].stamp - window
    requires start <= i ==> s[start].stamp > s[i].stamp - window
    ensures Filter(s, WindowAt(s[i].stamp, window)) == s[start..i + 1]
  {
    var p := WindowAt(s[i].stamp, window);
    WindowMissesEarlier(s, i, start, window);
    WindowKeepsRun(s, i, start, window);
    WindowMissesLater(s, i, window);
    SplitThree(s, start, i + 1);
    FilterMiddle(s[..start], s[start..i + 1], s[i + 1..], p);
  }

  lemma WindowMissesEarlier(s: seq<Row>, i: int, start: int, window: nat)
    requires 0 <= i < |s| && 0 <= start <= |s|
    requires forall j :: 0 <= j < start ==> s[j].stamp <= s[i].stamp - window
    ensures Filter(s[..start], WindowAt(s[i].stamp, window)) == []
  {
    var p := WindowAt(s[i].stamp, window);
    forall x | x in s[..start]
      ensures !p(x)
    {
      var j :| 0 <= j < start && s[j] == x;
    }
    FilterDropsAll(s[..start], p);
  }

  lemma WindowKeepsRun(s: seq<Row>, i: int, start: int, window: nat)
    requires Increasing(s)
    requires 0 <= i < |s| && 0 <= start <= i + 1
    requires start <= i ==> s[start].stamp > s[i].stamp - window
    ensures Filter(s[start..i + 1], WindowAt(s[i].stamp, window)) == s[start..i + 1]
  {
    var p := WindowAt(s[i].stamp, window);
    forall x | x in s[start..i + 1]
      ensures p(x)
    {
      var j :| start <= j <= i && s[j] == x;
    }
    FilterKeepsAll(s[start..i + 1], p);
  }

  lemma WindowMissesLater(s: seq<Row>, i: int, window: nat)
    requires Increasing(s)
    requires 0 <= i < |s|
    ensures Filter(s[i + 1..], WindowAt(s[i].stamp, window)) == []
  {
    var p := WindowAt(s[i].stamp, window);
    forall x | x in s[i + 1..]
      ensures !p(x)
    {
      var j :| i < j < |s| && s[j] == x;
    }
    FilterDropsAll(s[i + 1..], p);
  }

  /** Once the left edge has passed every row too old for the window ending
      at `s[i]`, the running count and total are the window's. */
  lemma WindowValueOfRun(s: seq<Row>, i: int, start: int, window: nat, total: real)
    requires Increasing(s)
    requires 0 <= i < |s| && 0 <= start <= i + 1
    requires forall j :: 0 <= j < start ==> s[j].stamp <= s[i].stamp - window
    requires start <= i ==> s[start].stamp > s[i].stamp - window
    requires total == RunSum(s, start, i + 1)
    ensures WindowValue(Filter(s, WindowAt(s[i].stamp, window)), window)
            == if i + 1 - start >= MinPeriods(window) then Some(total) else None
  {
    WindowIsSlice(s, i, start, window);
  }

  /** The total amount of the run s[lo..hi]. */
  function RunSum(s: seq<Row>, lo: int, hi: int): real
    requires 0 <= lo <= hi <= |s|
  {
    Sum(Amounts(s[lo..hi]))
  }

  /** Extending a run by the next row adds that row's amount. */
  lemma RunGrows(s: seq<Row>, lo: int, hi: int)
    requires 0 <= lo <= hi < |s|
    ensures RunSum(s, lo, hi + 1) == RunSum(s, lo, hi) + s[hi].precip
  {
    assert Amounts(s[lo..hi + 1]) == Amounts(s[lo..hi]) + [s[hi].precip];
    SumAppend(Amounts(s[lo..hi]), s[hi].precip);
  }

  /** Dropping the first row of a run removes that row's amount. */
  lemma RunShrinks(s: seq<Row>, lo: int, hi: int)
    requires 0 <= lo < hi <= |s|
    ensures RunSum(s, lo, hi) == s[lo].precip + RunSum(s, lo + 1, hi)
  {
    assert Amounts(s[lo..hi])[1..] == Amounts(s[lo + 1..hi]);
  }

  /** Moves the window's left edge past every row too old for the window
      ending at `s[i]`, taking their amounts out of the running total. */
  method AdvanceEdge(s: seq<Row>, i: int, start: int, total: real, window: nat)
    returns (edge: int, rest: real)
    requires Increasing(s)
    requires 0 <= start <= i < |s|
    requires total == RunSum(s, start, i + 1)
    requires forall j :: 0 <= j < start ==> s[j].stamp <= s[i].stamp - window
    ensures start <= edge <= i + 1
    ensures rest == RunSum(s, edge, i + 1)
    ensures forall j :: 0 <= j < edge ==> s[j].stamp <= s[i].stamp - window
    ensures edge <= i ==> s[edge].stamp > s[i].stamp - window
  {
    edge, rest := start, total;
    while edge <= i && s[edge].stamp <= s[i].stamp - window
      invariant start <= edge <= i + 1
      invariant rest == RunSum(s, edge, i + 1)
      invariant forall j :: 0 <= j < edge ==> s[j].stamp <= s[i].stamp - window
    {
      RunShrinks(s, edge, i + 1);
      rest := rest - s[edge].precip;
      edge := edge + 1;
    }
  }

  /** The rolling sum of every row of one increasing series, computed with a
      running total over a window whose left edge only moves forward. */
  method RollSeries(s: seq<Row>, window: nat) returns (sums: seq<Option<real>>)
    requires Increasing(s)
    ensures |sums| == |s|
    ensures forall i :: 0 <= i < |s| ==> sums[i] == WindowValue(Filter(s, WindowAt(s[i].stamp, window)), window)
  {
    sums := [];
    var start := 0;
    var total := 0.0;
    for i := 0 to |s|
      invariant |sums| == i
      invariant forall k :: 0 <= k < i ==> sums[k] == WindowValue(Filter(s, WindowAt(s[k].stamp, window)), window)
      invariant start <= i
      invariant total == RunSum(s, start, i)
      invariant i < |s| ==> forall j :: 0 <= j < start ==> s[j].stamp <= s[i].stamp - window
    {
      var value;
      start, total, value := SlideStep(s, window, i, start, total);
      ExtendSums(s, window, sums, value);
      sums := sums + [value];
    }
  }

  /** Appending row i's rolling sum to the sums of rows 0..i-1 gives the
      sums of rows 0..i. */
  lemma ExtendSums(s: seq<Row>, window: nat, sums: seq<Option<real>>, value: Option<real>)
    requires |sums| < |s|
    requires forall k :: 0 <= k < |sums| ==> sums[k] == WindowValue(Filter(s, WindowAt(s[k].stamp, window)), window)
    requires value == WindowValue(Filter(s, WindowAt(s[|sums|].stamp, window)), window)
    ensures forall k :: 0 <= k <= |sums| ==> (sums + [value])[k] == WindowValue(Filter(s, WindowAt(s[k].stamp, window)), window)
  {
    var next := sums + [value];
    forall k | 0 <= k <= |sums|
      ensures next[k] == WindowValue(Filter(s, WindowAt(s[k].stamp, window)), window)
    {
      if k < |sums| {
        assert next[k] == sums[k];
      }
    }
  }

  /** One step of the sliding pass: takes row i into the running total,
      moves the left edge past the rows too old for its window, and yields
      row i's rolling sum. */
  method SlideStep(s: seq<Row>, window: nat, i: int, start: int, total: real)
    returns (edge: int, rest: real, value: Option<real>)
    requires Increasing(s)
    requires 0 <= start <= i < |s|
    requires total == RunSum(s, start, i)
    requires forall j :: 0 <= j < start ==> s[j].stamp <= s[i].stamp - window
    ensures start <= edge <= i + 1
    ensures rest == RunSum(s, edge, i + 1)
    ensures value == WindowValue(Filter(s, WindowAt(s[i].stamp, window)), window)
    ensures i + 1 < |s| ==> forall j :: 0 <= j < edge ==> s[j].stamp <= s[i + 1].stamp - window
  {
    RunGrows(s, start, i);
    edge, rest := AdvanceEdge(s, i, start, total + s[i].precip, window);
    WindowValueOfRun(s, i, edge, window, rest);
    if i + 1 < |s| {
      EdgeStaysBehind(s, i, edge, window);
    }
    value := if i + 1 - edge >= MinPeriods(window) then Some(rest) else None;
  }

  /** Rows too old for the window ending at `s[i]` are too old for the one
      ending at the next row. */
  lemma EdgeStaysBehind(s: seq<Row>, i: int, start: int, window: nat)
    requires Increasing(s)
    requires 0 <= i && i + 1 < |s| && start <= i + 1
    requires forall j :: 0 <= j < start ==> s[j].stamp <= s[i].stamp - window
    ensures forall j :: 0 <= j < start ==> s[j].stamp <= s[i + 1].stamp - window
  {
    assert s[i].stamp < s[i + 1].stamp;
  }

  /** Rolls region r's series and records its values under (r, timestamp),
      leaving every other region's entries as they were. */
  method IndexRegion(df: seq<Row>, r: Region, window: nat, index: map<(Region, int), Option<real>>)
    returns (out: map<(Region, int), Option<real>>)
    requires WellFormed(df)
    ensures forall k :: k in index && k.0 != r ==> k in out && out[k] == index[k]
    ensures forall k :: k in out ==> k in index || (k.0 == r && exists o :: o in df && (o.region, o.stamp) == k)
    ensures forall o :: o in df && o.region == r ==>
              (r, o.stamp) in out && out[(r, o.stamp)] == RollingSum(df, r, o.stamp, window)
  {
    var series := RegionSeries(df, r);
    RegionSeriesIncreasing(df, r);
    var sums := RollSeries(series, window);
    out := index;
    for i := 0 to |series|
      invariant forall k :: k in index && k.0 != r ==> k in out && out[k] == index[k]
      invariant forall k :: k in out ==> k in index || (k.0 == r && exists o :: o in df && (o.region, o.stamp) == k)
      invariant forall k :: 0 <= k < i ==>
                  (r, series[k].stamp) in out && out[(r, series[k].stamp)] == RollingSum(df, r, series[k].stamp, window)
    {
      assert series[i] in series;
      RegionWindowOfSeries(df, r, series[i].stamp, window);
      out := out[(r, series[i].stamp) := sums[i]];
    }
    forall o | o in df && o.region == r
      ensures (r, o.stamp) in out && out[(r, o.stamp)] == RollingSum(df, r, o.stamp, window)
    {
      assert o in series;
      var k :| 0 <= k < |series| && series[k] == o;
    }
  }

  /** `index` holds row o's rolling sum under o's (region, timestamp). */
  predicate IndexedAt(index: map<(Region, int), Option<real>>, df: seq<Row>, window: nat, o: Row)
  {
    (o.region, o.stamp) in index && index[(o.region, o.stamp)] == RollingSum(df, o.region, o.stamp, window)
  }

  /** The rolling column indexed by (region, timestamp), as pandas returns
      it: one entry per row, each equal to the reference rolling sum. */
  method RollingIndex(df: seq<Row>, window: nat) returns (index: map<(Region, int), Option<real>>)
    requires WellFormed(df)
    ensures forall o :: o in df ==>
              (o.region, o.stamp) in index && index[(o.region, o.stamp)] == RollingSum(df, o.region, o.stamp, window)
    ensures forall k :: k in index ==> exists o :: o in df && (o.region, o.stamp) == k
  {
    index := map[];
    var todo := set o | o in df :: o.region;
    while todo != {}
      invariant forall o :: o in df && o.region !in todo ==> IndexedAt(index, df, window, o)
      invariant forall k :: k in index ==> k.0 !in todo && exists o :: o in df && (o.region, o.stamp) == k
      decreases todo
    {
      var r :| r in todo;
      var next := IndexRegion(df, r, window, index);
      forall o | o in df && o.region !in todo - {r}
        ensures IndexedAt(next, df, window, o)
      {
        if o.region != r {
          assert IndexedAt(index, df, window, o);
        }
      }
      index, todo := next, todo - {r};
    }
  }
}
