/** The climate baseline of `filter_and_roll` (main.py:66-76): the rows whose
    year lies in the inclusive baseline range are grouped by (region,
    day-of-year), and each group's rolling sums are summarised by their mean
    and sample variance. As in pandas' mean and standard-deviation
    aggregation, missing rolling sums are skipped, and a group exists as soon
    as one baseline row has its key, even if none of its rolling sums is
    defined. */
module Baseline {
  import opened Wrappers
  import opened Seqs
  import opened Records
  import opened Moments
  import opened Rolling

  /** A baseline group key: (region, day of year). */
  type Key = (Region, int)

  /** The rows that feed the group `k`: its key, and a year in [lo, hi]. */
  function InGroup(k: Key, lo: int, hi: int): Rolled -> bool
  {
    (x: Rolled) => KeyOf(x.row) == k && InYears(x.row.year, lo, hi)
  }

  /** The defined rolling sums, in order; a missing one is skipped. */
  function Present(rows: seq<Rolled>): (xs: seq<real>)
    ensures |xs| <= |rows|
    ensures forall v :: v in xs <==> exists x :: x in rows && x.rollingSum == Some(v)
  {
    if |rows| == 0 then []
    else
      var rest := Present(rows[1..]);
      assert forall x :: x in rows[1..] ==> x in rows;
      assert forall x :: x in rows ==> x == rows[0] || x in rows[1..];
      match rows[0].rollingSum
      case None => rest
      case Some(v) => [v] + rest
  }

  /** Whether a rolled row's rolling sum is defined. */
  function Defined(): Rolled -> bool
  {
    (x: Rolled) => x.rollingSum.Some?
  }

  /** A rolled row's rolling sum, read only where `Defined` holds. */
  function ValueOf(): Rolled -> real
  {
    (x: Rolled) => if x.rollingSum.Some? then x.rollingSum.value else 0.0
  }

  /** The sample is the defined rolling sums in row order, each as many
      times as it occurs, so a repeated value weighs in the mean and the
      variance once per row. */
  lemma {:induction false} PresentIsDefinedValues(rows: seq<Rolled>)
    ensures Present(rows) == Map(Filter(rows, Defined()), ValueOf())
  {
    if |rows| > 0 {
      PresentIsDefinedValues(rows[1..]);
    }
  }

  /** The sample the group `k` is summarised over. */
  function GroupValues(rows: seq<Rolled>, k: Key, lo: int, hi: int): seq<real>
  {
    Present(Filter(rows, InGroup(k, lo, hi)))
  }

  /** The keys of the baseline rows. */
  function GroupKeys(rows: seq<Rolled>, lo: int, hi: int): set<Key>
  {
    set x | x in rows && InYears(x.row.year, lo, hi) :: KeyOf(x.row)
  }

  /** `base_period`: for each group key, the mean and variance of its sample. */
  function BaselineTable(rows: seq<Rolled>, lo: int, hi: int): (table: map<Key, Stats>)
    ensures forall k :: k in table <==> exists x :: x in rows && InGroup(k, lo, hi)(x)
  {
    map k | k in GroupKeys(rows, lo, hi) :: Describe(GroupValues(rows, k, lo, hi))
  }

  /** A group's sample is non-empty exactly when one of its rows has a
      defined rolling sum. */
  lemma GroupValuesNonEmpty(rows: seq<Rolled>, k: Key, lo: int, hi: int)
    ensures |GroupValues(rows, k, lo, hi)| >= 1 <==>
            exists x :: x in rows && InGroup(k, lo, hi)(x) && x.rollingSum.Some?
  {
    var xs := GroupValues(rows, k, lo, hi);
    if exists x :: x in rows && InGroup(k, lo, hi)(x) && x.rollingSum.Some? {
      var x :| x in rows && InGroup(k, lo, hi)(x) && x.rollingSum.Some?;
      assert x in Filter(rows, InGroup(k, lo, hi));
      assert x.rollingSum.value in xs;
    }
    if |xs| >= 1 {
      assert xs[0] in xs;
    }
  }

  /** Each entry of the table summarises exactly the group's defined
      rolling sums, and its mean is defined exactly when one of the group's
      rows has a defined rolling sum. */
  lemma BaselineEntry(rows: seq<Rolled>, lo: int, hi: int, k: Key)
    requires k in BaselineTable(rows, lo, hi)
    ensures Summarises(BaselineTable(rows, lo, hi)[k], GroupValues(rows, k, lo, hi))
    ensures BaselineTable(rows, lo, hi)[k].mean.Some? <==>
            exists x :: x in rows && InGroup(k, lo, hi)(x) && x.rollingSum.Some?
  {
    var xs := GroupValues(rows, k, lo, hi);
    DescribeSummarises(xs);
    GroupValuesNonEmpty(rows, k, lo, hi);
  }

  /** Rows outside a group leave the group's sample unchanged. */
  lemma GroupIgnoresOtherRows(a: seq<Rolled>, extra: seq<Rolled>, b: seq<Rolled>, k: Key, lo: int, hi: int)
    requires forall x :: x in extra ==> !InGroup(k, lo, hi)(x)
    ensures GroupValues(a + extra + b, k, lo, hi) == GroupValues(a + b, k, lo, hi)
  {
    FilterSkips(a, extra, b, InGroup(k, lo, hi));
  }

  /** Adding, anywhere, rows that do not belong to group `k` leaves the
      group's existence and its statistics unchanged. */
  lemma BaselineIgnoresOtherRows(a: seq<Rolled>, extra: seq<Rolled>, b: seq<Rolled>, k: Key, lo: int, hi: int)
    requires forall x :: x in extra ==> !InGroup(k, lo, hi)(x)
    ensures k in BaselineTable(a + extra + b, lo, hi) <==> k in BaselineTable(a + b, lo, hi)
    ensures k in BaselineTable(a + b, lo, hi) ==>
            BaselineTable(a + extra + b, lo, hi)[k] == BaselineTable(a + b, lo, hi)[k]
  {
    GroupIgnoresOtherRows(a, extra, b, k, lo, hi);
    if exists x :: x in a + extra + b && InGroup(k, lo, hi)(x) {
      var x :| x in a + extra + b && InGroup(k, lo, hi)(x);
      assert x in a + b;
    }
    if exists x :: x in a + b && InGroup(k, lo, hi)(x) {
      var x :| x in a + b && InGroup(k, lo, hi)(x);
      assert x in a + extra + b;
    }
  }

  /** Rows dated outside the baseline years change nothing in the table. */
  lemma BaselineIgnoresOtherYears(a: seq<Rolled>, extra: seq<Rolled>, b: seq<Rolled>, lo: int, hi: int)
    requires forall x :: x in extra ==> !InYears(x.row.year, lo, hi)
    ensures BaselineTable(a + extra + b, lo, hi) == BaselineTable(a + b, lo, hi)
  {
    var t1 := BaselineTable(a + extra + b, lo, hi);
    var t2 := BaselineTable(a + b, lo, hi);
    forall k | k in t1 || k in t2
      ensures k in t1 && k in t2 && t1[k] == t2[k]
    {
      BaselineIgnoresOtherRows(a, extra, b, k, lo, hi);
    }
    assert t1.Keys == t2.Keys;
  }
}
