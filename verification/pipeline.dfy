/** `filter_and_roll` as a whole (main.py:51-84): select the regions, attach
    each row's rolling sum, build the baseline table from the rolled rows in
    the baseline years, join and score, and keep the rows in the display
    years.

    `Anomalies` is the reference composition of the steps; `FilterAndRoll`
    computes the same table with the sliding-window rolling sum of
    `Rolling.RollingIndex`. The lemmas state what the output is in terms of
    the loaded table alone. */
module Pipeline {
  import opened Wrappers
  import opened Seqs
  import opened Calendar
  import opened Records
  import opened Moments
  import opened Rolling
  import opened Baseline
  import opened Scoring

  /** Region selection: a row is kept when its region is one of those chosen. */
  function Selected(regions: set<Region>): Row -> bool
  {
    (o: Row) => o.region in regions
  }

  /** The display range: a row is shown when its year lies in [lo, hi], both ends included. */
  function InDisplay(lo: int, hi: int): Scored -> bool
  {
    (y: Scored) => InYears(y.row.year, lo, hi)
  }

  function RowOf(y: Scored): Row
  {
    y.row
  }

  function Anomalies(df: seq<Row>, regions: set<Region>, years: (int, int), baseline: (int, int),
                     window: nat, sqrt: real -> real): seq<Scored>
  {
    var kept := Filter(df, Selected(regions));
    var rolled := Map(kept, RollOver(kept, window));
    var table := BaselineTable(rolled, baseline.0, baseline.1);
    Filter(Join(rolled, table, sqrt), InDisplay(years.0, years.1))
  }

  /** The algorithm: the rolling sums come from one sliding-window pass per
      region instead of a window filter per row. */
  method FilterAndRoll(df: seq<Row>, regions: set<Region>, years: (int, int), baseline: (int, int),
                       window: nat, sqrt: real -> real) returns (out: seq<Scored>)
    requires WellFormed(df)
    ensures out == Anomalies(df, regions, years, baseline, window, sqrt)
  {
    var kept := Filter(df, Selected(regions));
    FilterWellFormed(df, Selected(regions));
    var index := RollingIndex(kept, window);
    var rolled := seq(|kept|, i requires 0 <= i < |kept| => Rolled(kept[i], index[(kept[i].region, kept[i].stamp)]));
    assert rolled == Map(kept, RollOver(kept, window));
    var table := BaselineTable(rolled, baseline.0, baseline.1);
    out := Filter(Join(rolled, table, sqrt), InDisplay(years.0, years.1));
  }

  /** The keys of the baseline-year rows of the whole table. */
  function BaselineKeys(df: seq<Row>, lo: int, hi: int): set<Key>
  {
    set o | o in df && InYears(o.year, lo, hi) :: KeyOf(o)
  }

  /** A row reaches the output exactly when its region is selected, its year
      is displayed, and some row of its region and day of year lies in the
      baseline years. */
  function Survives(df: seq<Row>, regions: set<Region>, years: (int, int), baseline: (int, int)): Row -> bool
  {
    (o: Row) => o.region in regions && InYears(o.year, years.0, years.1) &&
                KeyOf(o) in BaselineKeys(df, baseline.0, baseline.1)
  }

  /** Selecting regions does not change a selected region's series. */
  lemma SelectedSeries(df: seq<Row>, regions: set<Region>, r: Region)
    requires r in regions
    ensures RegionSeries(Filter(df, Selected(regions)), r) == RegionSeries(df, r)
  {
    FilterFilter(df, Selected(regions), InRegion(r), InRegion(r));
  }

  /** Hence a selected region's rolling sums are those of the full table. */
  lemma SelectedRollingSum(df: seq<Row>, regions: set<Region>, r: Region, at: int, window: nat)
    requires r in regions
    ensures RollingSum(Filter(df, Selected(regions)), r, at, window) == RollingSum(df, r, at, window)
  {
    SelectedSeries(df, regions, r);
    RollingSumLocal(Filter(df, Selected(regions)), df, r, at, window);
  }

  /** Attaching values to rows keeps the rows, so every baseline key of
      the rows has an entry in the rolled rows' baseline table ... */
  lemma RolledKeysCovered(kept: seq<Row>, f: Row -> Rolled, lo: int, hi: int, k: Key)
    requires forall o :: f(o).row == o
    requires k in BaselineKeys(kept, lo, hi)
    ensures k in BaselineTable(Map(kept, f), lo, hi)
  {
    var rolled := Map(kept, f);
    var o :| o in kept && InYears(o.year, lo, hi) && KeyOf(o) == k;
    var i :| 0 <= i < |kept| && kept[i] == o;
    assert rolled[i].row == o;
    assert rolled[i] in rolled && InGroup(k, lo, hi)(rolled[i]);
  }

  /** ... and every entry of that table is a baseline key of the rows. */
  lemma RolledKeysFromRows(kept: seq<Row>, f: Row -> Rolled, lo: int, hi: int, k: Key)
    requires forall o :: f(o).row == o
    requires k in BaselineTable(Map(kept, f), lo, hi)
    ensures k in BaselineKeys(kept, lo, hi)
  {
    var rolled := Map(kept, f);
    var x :| x in rolled && InGroup(k, lo, hi)(x);
    var i :| 0 <= i < |rolled| && rolled[i] == x;
    assert kept[i] in kept && x.row == kept[i];
  }

  /** The table of the selected rows has an entry for a selected key exactly
      when the whole table has a row with that key in the baseline years. */
  lemma SelectedKeys(df: seq<Row>, regions: set<Region>, window: nat, lo: int, hi: int, k: Key)
    requires k.0 in regions
    ensures k in BaselineTable(Map(Filter(df, Selected(regions)), RollOver(Filter(df, Selected(regions)), window)), lo, hi)
            <==> k in BaselineKeys(df, lo, hi)
  {
    var kept := Filter(df, Selected(regions));
    var f := RollOver(kept, window);
    if k in BaselineKeys(df, lo, hi) {
      var o :| o in df && InYears(o.year, lo, hi) && KeyOf(o) == k;
      assert o in kept;
      RolledKeysCovered(kept, f, lo, hi, k);
    }
    if k in BaselineTable(Map(kept, f), lo, hi) {
      RolledKeysFromRows(kept, f, lo, hi, k);
    }
  }

  /** Joining and display-filtering rolled rows keeps, in order, the rows
      whose key has an entry and whose year is displayed. */
  lemma {:induction false} JoinDisplayRows(s: seq<Row>, f: Row -> Rolled, table: map<Key, Stats>,
                                           sqrt: real -> real, lo: int, hi: int)
    requires forall o :: f(o).row == o
    ensures Map(Filter(Join(Map(s, f), table, sqrt), InDisplay(lo, hi)), RowOf) ==
            Filter(s, (o: Row) => KeyOf(o) in table && InYears(o.year, lo, hi))
  {
    if |s| > 0 {
      JoinDisplayRows(s[1..], f, table, sqrt, lo, hi);
      var rolled := Map(s, f);
      assert rolled[1..] == Map(s[1..], f);
      var rest := Join(rolled[1..], table, sqrt);
      var o := s[0];
      if KeyOf(o) in table {
        var y := Score(rolled[0], table[KeyOf(o)], sqrt);
        assert y.row == o;
        assert Join(rolled, table, sqrt) == [y] + rest;
        var shown := Filter(rest, InDisplay(lo, hi));
        if InYears(o.year, lo, hi) {
          assert Filter([y] + rest, InDisplay(lo, hi)) == [y] + shown;
          assert Map([y] + shown, RowOf) == [o] + Map(shown, RowOf);
        } else {
          assert Filter([y] + rest, InDisplay(lo, hi)) == shown;
        }
      } else {
        assert Join(rolled, table, sqrt) == rest;
      }
    }
  }

  /** The output rows are, in order and once each, exactly the rows of the
      loaded table that survive: a selected region, a displayed year, and a
      baseline group. */
  lemma OutputRows(df: seq<Row>, regions: set<Region>, years: (int, int), baseline: (int, int),
                   window: nat, sqrt: real -> real)
    ensures Map(Anomalies(df, regions, years, baseline, window, sqrt), RowOf) ==
            Filter(df, Survives(df, regions, years, baseline))
  {
    var kept := Filter(df, Selected(regions));
    var rolled := Map(kept, RollOver(kept, window));
    var table := BaselineTable(rolled, baseline.0, baseline.1);
    var q := (o: Row) => KeyOf(o) in table && InYears(o.year, years.0, years.1);
    JoinDisplayRows(kept, RollOver(kept, window), table, sqrt, years.0, years.1);
    forall o
      ensures Survives(df, regions, years, baseline)(o) == (Selected(regions)(o) && q(o))
    {
      if o.region in regions {
        SelectedKeys(df, regions, window, baseline.0, baseline.1, KeyOf(o));
      }
    }
    FilterFilter(df, Selected(regions), q, Survives(df, regions, years, baseline));
  }

  /** Every output row is a row of the loaded table, of a selected region,
      dated in the display years, with a baseline group. */
  lemma OutputSelection(df: seq<Row>, regions: set<Region>, years: (int, int), baseline: (int, int),
                        window: nat, sqrt: real -> real)
    ensures forall y :: y in Anomalies(df, regions, years, baseline, window, sqrt) ==>
              && y.row in df
              && y.row.region in regions
              && InYears(y.row.year, years.0, years.1)
              && KeyOf(y.row) in BaselineKeys(df, baseline.0, baseline.1)
  {
    OutputRows(df, regions, years, baseline, window, sqrt);
    RowsOfFiltered(Anomalies(df, regions, years, baseline, window, sqrt), df, Survives(df, regions, years, baseline));
  }

  lemma RowsOfFiltered(out: seq<Scored>, s: seq<Row>, p: Row -> bool)
    requires Map(out, RowOf) == Filter(s, p)
    ensures forall y :: y in out ==> y.row in s && p(y.row)
  {
    forall y | y in out
      ensures y.row in Filter(s, p)
    {
      var i :| 0 <= i < |out| && out[i] == y;
      assert Map(out, RowOf)[i] == y.row;
    }
  }

  /** Every output row carries the rolling sum of its own region and date in
      the whole loaded table: the choice of other regions has no effect. */
  lemma OutputRollingSums(df: seq<Row>, regions: set<Region>, years: (int, int), baseline: (int, int),
                          window: nat, sqrt: real -> real)
    ensures forall y :: y in Anomalies(df, regions, years, baseline, window, sqrt) ==>
              y.rollingSum == RollingSum(df, y.row.region, y.row.stamp, window)
  {
    var kept := Filter(df, Selected(regions));
    var rolled := Map(kept, RollOver(kept, window));
    var table := BaselineTable(rolled, baseline.0, baseline.1);
    forall y | y in Anomalies(df, regions, years, baseline, window, sqrt)
      ensures y.rollingSum == RollingSum(df, y.row.region, y.row.stamp, window)
    {
      assert y in Join(rolled, table, sqrt);
      var i :| 0 <= i < |rolled| && rolled[i] == Unscore(y);
      assert kept[i] in kept;
      SelectedRollingSum(df, regions, y.row.region, y.row.stamp, window);
    }
  }

  /** The rows of the loaded table in group `k`'s baseline. */
  function RowInGroup(k: Key, lo: int, hi: int): Row -> bool
  {
    (o: Row) => KeyOf(o) == k && InYears(o.year, lo, hi)
  }

  /** Group `k`'s baseline sample read off the whole loaded table: the
      defined rolling sums, over the whole table, of its rows with key `k` in
      the baseline years. */
  function BaselineSample(df: seq<Row>, k: Key, lo: int, hi: int, window: nat): seq<real>
  {
    Present(Map(Filter(df, RowInGroup(k, lo, hi)), RollOver(df, window)))
  }

  /** For a selected region, the group sample the pipeline builds from the
      selected rows is the sample read off the whole table. */
  lemma SelectedGroup(df: seq<Row>, regions: set<Region>, window: nat, lo: int, hi: int, k: Key)
    requires k.0 in regions
    ensures GroupValues(Map(Filter(df, Selected(regions)), RollOver(Filter(df, Selected(regions)), window)), k, lo, hi)
            == BaselineSample(df, k, lo, hi, window)
  {
    var kept := Filter(df, Selected(regions));
    var group := Filter(df, RowInGroup(k, lo, hi));
    FilterMap(kept, RollOver(kept, window), InGroup(k, lo, hi), RowInGroup(k, lo, hi));
    FilterFilter(df, Selected(regions), RowInGroup(k, lo, hi), RowInGroup(k, lo, hi));
    forall o | o in group
      ensures RollOver(kept, window)(o) == RollOver(df, window)(o)
    {
      SelectedRollingSum(df, regions, o.region, o.stamp, window);
    }
    MapAgree(group, RollOver(kept, window), RollOver(df, window));
  }

  /** Every output row carries the baseline mean and standard deviation of
      its (region, day-of-year) group, computed from the whole loaded table:
      rows of other regions and of years outside the baseline play no part. */
  lemma OutputBaseline(df: seq<Row>, regions: set<Region>, years: (int, int), baseline: (int, int),
                       window: nat, sqrt: real -> real)
    ensures forall y :: y in Anomalies(df, regions, years, baseline, window, sqrt) ==>
              var sample := BaselineSample(df, KeyOf(y.row), baseline.0, baseline.1, window);
              y.baseMean == Mean(sample) && y.baseStd == StdDev(Describe(sample), sqrt)
  {
    var kept := Filter(df, Selected(regions));
    var rolled := Map(kept, RollOver(kept, window));
    var table := BaselineTable(rolled, baseline.0, baseline.1);
    OutputSelection(df, regions, years, baseline, window, sqrt);
    forall y | y in Anomalies(df, regions, years, baseline, window, sqrt)
      ensures var sample := BaselineSample(df, KeyOf(y.row), baseline.0, baseline.1, window);
              y.baseMean == Mean(sample) && y.baseStd == StdDev(Describe(sample), sqrt)
    {
      assert y in Join(rolled, table, sqrt);
      var k := KeyOf(y.row);
      assert table[k] == Describe(GroupValues(rolled, k, baseline.0, baseline.1));
      SelectedGroup(df, regions, window, baseline.0, baseline.1, k);
    }
  }

  /** Every output row's z-score is defined exactly when its rolling sum,
      baseline mean and a non-zero baseline standard deviation are, and it
      is then the number of standard deviations the rolling sum lies from
      the mean. */
  lemma OutputScores(df: seq<Row>, regions: set<Region>, years: (int, int), baseline: (int, int),
                     window: nat, sqrt: real -> real)
    ensures forall y :: y in Anomalies(df, regions, years, baseline, window, sqrt) ==> Standardised(y)
  {
    var kept := Filter(df, Selected(regions));
    var rolled := Map(kept, RollOver(kept, window));
    var table := BaselineTable(rolled, baseline.0, baseline.1);
    forall y | y in Anomalies(df, regions, years, baseline, window, sqrt)
      ensures Standardised(y)
    {
      assert y in Join(rolled, table, sqrt);
      ScoreStandardised(Unscore(y), table[KeyOf(y.row)], sqrt);
    }
  }

  /** On a loaded table every output row has the calendar columns of its
      date: its year, a day of year in 1..366 that is 366 only in a leap
      year, and a timestamp that counts days since the start of the proleptic
      Gregorian calendar. */
  lemma OutputCalendar(obs: seq<Observation>, regions: set<Region>, years: (int, int), baseline: (int, int),
                       window: nat, sqrt: real -> real)
    ensures forall y :: y in Anomalies(Load(obs), regions, years, baseline, window, sqrt) ==>
              y.row in Load(obs) && Calendared(y.row)
  {
    OutputSelection(Load(obs), regions, years, baseline, window, sqrt);
    LoadCalendared(obs);
  }
}
