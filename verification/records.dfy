/** The unified daily table the pipeline reads (main.py:37-43): one row per
    region and date, carrying the columns loading derives from the date. */
module Records {
  import opened Seqs
  import opened Calendar

  /** Regions are opaque names such as "scotland". */
  type Region = string

  /** One parsed line of a region's file, tagged with its region. */
  datatype Observation = Observation(region: Region, date: Date, precip: real)

  /** A row of the unified table. `stamp` is the date as pandas holds it, a
      count of days on a fixed axis; `doy`, `month` and `year` are the derived
      calendar columns. */
  datatype Row = Row(region: Region, date: Date, stamp: int, precip: real, doy: int, month: int, year: int)

  /** Derives a row's columns from its date (main.py:41-43). */
  function Annotate(o: Observation): (row: Row)
    ensures row.region == o.region && row.date == o.date && row.precip == o.precip
    ensures row.stamp == Ordinal(o.date)
    ensures row.year == o.date.year && row.month == o.date.month
    ensures 1 <= row.doy <= 366
    ensures row.doy == 366 ==> IsLeapYear(row.year)
    ensures row.doy == row.stamp - DaysBeforeYear(row.year)
  {
    Row(o.region, o.date, Ordinal(o.date), o.precip, DayOfYear(o.date), o.date.month, o.date.year)
  }

  /** The whole table: every observation with its derived columns. */
  function Load(obs: seq<Observation>): seq<Row>
  {
    Map(obs, Annotate)
  }

  /** The derived columns of a row agree with its date. */
  predicate Calendared(row: Row)
  {
    && row.year == row.date.year
    && row.month == row.date.month
    && row.stamp == Ordinal(row.date)
    && 1 <= row.doy <= 366
    && (row.doy == 366 ==> IsLeapYear(row.year))
    && row.doy == row.stamp - DaysBeforeYear(row.year)
  }

  /** Every loaded row carries the calendar columns of its date. */
  lemma LoadCalendared(obs: seq<Observation>)
    ensures forall row :: row in Load(obs) ==> Calendared(row)
  {
    forall row | row in Load(obs)
      ensures Calendared(row)
    {
      var i :| 0 <= i < |obs| && Load(obs)[i] == row;
    }
  }

  function Precip(row: Row): real
  {
    row.precip
  }

  /** The baseline grouping key: region and day of year. */
  function KeyOf(row: Row): (Region, int)
  {
    (row.region, row.doy)
  }

  /** A year in the range [lo, hi], both ends included. */
  predicate InYears(y: int, lo: int, hi: int)
  {
    lo <= y <= hi
  }

  /** What the data source delivers: within each region the dates strictly
      increase along the sequence. */
  predicate DatesIncrease(obs: seq<Observation>)
  {
    forall i, j :: 0 <= i < j < |obs| && obs[i].region == obs[j].region ==> Precedes(obs[i].date, obs[j].date)
  }

  /** What the rolling step needs of the table: within each region the
      timestamps strictly increase, so no region has two rows for one date. */
  predicate WellFormed(df: seq<Row>)
  {
    forall i, j :: 0 <= i < j < |df| && df[i].region == df[j].region ==> df[i].stamp < df[j].stamp
  }

  lemma WellFormedTail(df: seq<Row>)
    requires WellFormed(df) && |df| > 0
    ensures WellFormed(df[1..])
    ensures forall x :: x in df[1..] && x.region == df[0].region ==> df[0].stamp < x.stamp
  {
    var tail := df[1..];
    forall i, j | 0 <= i < j < |tail| && tail[i].region == tail[j].region
      ensures tail[i].stamp < tail[j].stamp
    {
      assert tail[i] == df[i + 1] && tail[j] == df[j + 1];
    }
    forall x | x in tail && x.region == df[0].region
      ensures df[0].stamp < x.stamp
    {
      var j :| 0 <= j < |tail| && tail[j] == x;
      assert df[j + 1] == x;
    }
  }

  lemma WellFormedCons(x: Row, rest: seq<Row>)
    requires WellFormed(rest)
    requires forall y :: y in rest && y.region == x.region ==> x.stamp < y.stamp
    ensures WellFormed([x] + rest)
  {
    var s := [x] + rest;
    forall i, j | 0 <= i < j < |s| && s[i].region == s[j].region
      ensures s[i].stamp < s[j].stamp
    {
      assert s[j] == rest[j - 1] && s[j] in rest;
      if i > 0 {
        assert s[i] == rest[i - 1];
      }
    }
  }

  /** Dropping rows keeps each region's timestamps increasing. */
  lemma {:induction false} FilterWellFormed(df: seq<Row>, p: Row -> bool)
    requires WellFormed(df)
    ensures WellFormed(Filter(df, p))
  {
    if |df| > 0 {
      WellFormedTail(df);
      FilterWellFormed(df[1..], p);
      var rest := Filter(df[1..], p);
      if p(df[0]) {
        assert Filter(df, p) == [df[0]] + rest;
        WellFormedCons(df[0], rest);
      } else {
        assert Filter(df, p) == rest;
      }
    }
  }

  /** Loading a source whose dates increase per region yields a well-formed table. */
  lemma LoadWellFormed(obs: seq<Observation>)
    requires DatesIncrease(obs)
    ensures WellFormed(Load(obs))
  {
    var df := Load(obs);
    forall i, j | 0 <= i < j < |df| && df[i].region == df[j].region
      ensures df[i].stamp < df[j].stamp
    {
      OrdinalOrder(obs[i].date, obs[j].date);
    }
  }
}
