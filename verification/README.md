# UK precipitation anomalies: a Dafny model of `filter_and_roll`

The app shows daily UK regional precipitation as z-scores against a climate
baseline. Its core is `filter_and_roll` in `main.py`, together with the
calendar columns that `get_data` attaches to each observation. The model covers
that core:

1. keep the selected regions;
2. for each region, sum the precipitation over a trailing window of `window`
   calendar days, defined only when the window holds at least `int(window/3)`
   observations;
3. merge that rolling sum back onto its row;
4. group the rows in the baseline years by (region, day of year) and take the
   mean and sample standard deviation of each group's rolling sums;
5. inner-join each row with its group;
6. score it as `(rolling_sum - mean) / std`;
7. keep the rows in the display years.

The modules follow those steps:

- `Wrappers`: `Option`, used for pandas' NaN.
- `Seqs`: filtering, mapping and summing sequences, plus their algebra.
- `Calendar`: the proleptic Gregorian calendar, day of year, and day ordinals.
- `Records`: observations and loaded rows with their derived `doy`, `month`,
  `year` and day-number `stamp` columns. Also the input condition that each
  region's dates increase.
- `Moments`: mean, and sample variance with the n - 1 divisor.
- `Rolling`: the reference rolling sum, plus the sliding-window algorithm
  `RollSeries` / `RollingIndex`, which is proved equal to it.
- `Baseline`: the baseline table.
- `Scoring`: the z-score and the inner join.
- `Pipeline`: the whole function. It has two forms:
  - `Anomalies`, the composition of the steps;
  - `FilterAndRoll`, computed with `RollingIndex`.

  The `Pipeline` lemmas state what the output is in terms of the loaded table
  alone.

Two consequences of the code are worth stating:

- A row whose rolling sum is NaN is kept. Its z-score is NaN, and the
  baseline statistics skip it.
- The model lists output rows in the order of the loaded table. That order
  is the model's own choice. The code promises none, because the row order
  of pandas' inner merge at main.py:78-79 depends on the pandas version.

## Model

| member | source | states |
|---|---|---|
| Calendar.DayOfYear | main.py:41 | the day of year lies in 1..365 in a common year and 1..366 in a leap year, so day 366 occurs only in leap years |
| Calendar.NextDayOrdinal | main.py:57 | consecutive calendar days have consecutive day numbers, so a window of `window` day numbers is `window` calendar days, across month and year ends |
| Calendar.OrdinalOrder | main.py:55-57 | day numbers order dates exactly as the calendar does, and equal day numbers mean the same date |
| Records.Annotate | main.py:41-43 | a loaded row keeps region, date and amount; its year and month are the date's; its day of year is in 1..366 and is 366 only in a leap year; it is the day number minus the days before the year |
| Records.LoadCalendared | main.py:41-43 | every row of the loaded table has calendar columns that agree with its date |
| Records.LoadWellFormed | main.py:55-57 | if each region's dates increase in the source, each region's day numbers strictly increase in the loaded table, which is the ordered, duplicate-free time index a time-based window needs |
| Records.FilterWellFormed | main.py:52 | selecting rows keeps every region's day numbers strictly increasing |
| Moments.Mean | main.py:71-72 | the mean exists iff the sample is non-empty, and the mean times the count is the sum |
| Moments.SampleVariance | main.py:71-72 | the variance exists iff there are at least two values; it is non-negative; times (n - 1) it equals the squared deviation from the mean |
| Moments.SquaredDeviationZero | main.py:71-72 | the squared deviation from c is zero iff every value equals c |
| Moments.VarianceZeroIff | main.py:71-72 | with two or more values, the variance is zero iff all values are equal |
| Moments.MeanWithin | main.py:71-72 | the mean lies within any bounds of the values |
| Moments.ConstantSample | main.py:71-72 | a constant non-singleton sample has that constant as mean and zero variance |
| Rolling.MinPeriods | main.py:57 | `int(window/3)` is the largest n with 3n <= window |
| Rolling.WindowMembership | main.py:53-60 | a row is in r's window at day `at` iff it is r's and its day number lies in (at - window, at]; the sum is defined iff that window holds at least `int(window/3)` rows |
| Rolling.RegionWindowOfSeries | main.py:55-57 | windowing a region's own series gives that region's window of the whole table |
| Rolling.RollingSumLocal | main.py:56 | two tables with the same series for region r give r the same rolling sums |
| Rolling.RegionSeriesIgnoresOtherRegions | main.py:56 | inserting rows of other regions anywhere leaves r's series unchanged |
| Rolling.RollingSumIgnoresOtherRegions | main.py:56 | inserting rows of other regions anywhere leaves r's rolling sums unchanged |
| Rolling.RollingSumIgnoresOtherRegionUpdate | main.py:56 | replacing a row of another region by any row of another region leaves r's rolling sums unchanged |
| Rolling.RegionSeriesIncreasing | main.py:55-57 | a region's series in a well-formed table has strictly increasing day numbers |
| Rolling.WindowIsSlice | main.py:57 | on an increasing series, the window at row i is the contiguous run from the first row inside the window up to row i |
| Rolling.WindowValueOfRun | main.py:57-58 | the value at row i is the run's total when the run holds at least `int(window/3)` rows, and undefined otherwise |
| Rolling.AdvanceEdge | main.py:57 | moving the left edge past the rows that fell out of the window keeps the running total equal to the sum of the run |
| Rolling.SlideStep | main.py:57-58 | taking row i into the running total and moving the left edge keeps the total equal to the run's sum and yields row i's reference rolling sum |
| Rolling.RollSeries | main.py:53-60 | the sliding pass yields, for every row of an increasing series, exactly the reference rolling sum of its window |
| Rolling.IndexRegion | main.py:53-64 | one region's pass stores every row's reference rolling sum under (region, date) and keeps the other regions' entries |
| Rolling.RollingIndex | main.py:53-64 | the rolling sums indexed by (region, date) give every row of a well-formed table the reference rolling sum of its region and date, and index nothing else |
| Baseline.Present | main.py:71-72 | the sample holds a value iff some row's rolling sum is defined and equal to it, so NaN values are skipped; it is no longer than the rows, and `PresentIsDefinedValues` fixes its order and multiplicity |
| Baseline.PresentIsDefinedValues | main.py:71-72 | the sample is the defined rolling sums in row order, each as often as it occurs, so repeated values weigh in the mean and variance once per row |
| Baseline.BaselineTable | main.py:66-76 | a key has an entry iff some row has that (region, doy) and a year in the inclusive baseline range |
| Baseline.GroupValuesNonEmpty | main.py:66-72 | a group's sample is non-empty iff one of its baseline rows has a defined rolling sum |
| Baseline.BaselineEntry | main.py:66-76 | each entry is the mean and sample variance of its group's defined rolling sums, and its mean is defined iff one of them is defined |
| Baseline.GroupIgnoresOtherRows | main.py:66-72 | rows outside a group, inserted anywhere, leave the group's sample unchanged |
| Baseline.BaselineIgnoresOtherRows | main.py:66-76 | rows outside a group, inserted anywhere, leave that group's entry (and whether it exists) unchanged |
| Baseline.BaselineIgnoresOtherYears | main.py:66-76 | rows dated outside the baseline years, inserted anywhere, leave the whole table unchanged |
| Scoring.ZScore | main.py:81-82 | z is defined iff the rolling sum, mean and standard deviation are defined and the deviation is non-zero; then z times std plus mean gives back the rolling sum |
| Scoring.ConstantGroupUnscored | main.py:71-82 | a baseline group of two or more equal rolling sums has standard deviation zero (given that the square root of zero is zero), so no row scored against it gets a z-score |
| Scoring.ZScoreOfDeviation | main.py:81-82 | a value k standard deviations above the mean scores exactly k |
| Scoring.ScoreStandardised | main.py:78-82 | a scored row's z-score satisfies the definedness condition and the round trip above |
| Scoring.Join | main.py:78-79 | every joined row comes from an input row whose (region, doy) has an entry, and carries that entry's mean and deviation and the resulting z-score |
| Scoring.JoinKeepsMatchedRows | main.py:78-79 | the join keeps, in order and once each, exactly the rows whose key has an entry |
| Pipeline.FilterAndRoll | main.py:51-84 | the table computed with the sliding-window index equals `Anomalies`, the composition of the steps, so the `Pipeline` lemmas about `Anomalies` hold for it |
| Pipeline.SelectedSeries | main.py:52-56 | selecting regions leaves a selected region's series unchanged |
| Pipeline.SelectedRollingSum | main.py:52-60 | a selected region's rolling sums are those of the whole table |
| Pipeline.RolledKeysCovered | main.py:62-76 | every baseline key of the rows has an entry in the table of the rolled rows |
| Pipeline.RolledKeysFromRows | main.py:62-76 | every entry of that table is a baseline key of the rows |
| Pipeline.SelectedKeys | main.py:52-76 | a selected key has an entry iff the whole table has a row with that key in the baseline years |
| Pipeline.JoinDisplayRows | main.py:78-84 | joining and year-filtering keeps, in order, exactly the rows whose key has an entry and whose year is displayed |
| Pipeline.OutputRows | main.py:51-84 | the output rows are, in order and once each, exactly the input rows with a selected region, a displayed year and a baseline group |
| Pipeline.RowsOfFiltered | main.py:84 | scored rows whose rows form a filtered table all come from it and pass the filter |
| Pipeline.OutputSelection | main.py:52-84 | every output row is an input row of a selected region, in the inclusive display years, with a baseline group |
| Pipeline.OutputRollingSums | main.py:52-64 | every output row's rolling sum is its region's over the whole table, whichever other regions are selected |
| Pipeline.SelectedGroup | main.py:52-76 | for a selected region, the group sample built from the selected rows equals the sample read off the whole table |
| Pipeline.OutputBaseline | main.py:66-79 | every output row carries the mean and standard deviation of its group's defined rolling sums over the whole table in the baseline years |
| Pipeline.OutputScores | main.py:81-82 | every output row's z-score is defined exactly when its inputs are and the deviation is non-zero, and then recovers the rolling sum |
| Pipeline.OutputCalendar | main.py:41-84 | on a loaded table, every output row's year, month, day of year (1..366, 366 only in leap years) and day number agree with its date |

## Left out

- Fetching, parsing and caching the regional series (main.py:22-40) are left out, because they are I/O. The model starts from the concatenated observations, in `Records.Load`.
- The table of region names and file codes (main.py:7-19) is left out, because it is reference data.
- The Streamlit form (main.py:87-114) is left out, because it is UI. It bounds the window to 7..180 days; the model accepts any non-negative window.
- The charts and page text (main.py:115-173) are left out, because they are presentation.
- Floating point is not modelled. Amounts and statistics are exact reals, and NaN is `None`.
- Rolling.RollSeries: the sliding total is an exact real sum. pandas' floating-point running add/subtract, and its compensation, are not modelled.
- Scoring.StdDev: `std` is the square root of the sample variance. The square root is a parameter `sqrt: real -> real` of the pipeline, because Dafny has no real square root. No property of it is assumed.
- Scoring.ZScore: a zero standard deviation gives `None`, where pandas gives an infinity or NaN. The model claims a z-score only where it is a real number.
- Pipeline.FilterAndRoll: the input must be well formed, meaning that each region's day numbers strictly increase. pandas needs a monotonic time index for an offset window, and duplicate (region, date) rows would make the merge at main.py:62-64 multiply rows. The source is one row per day per region.
- Output row order: the model keeps the loaded table's order. This is a choice of the model. Older pandas versions group the rows of an inner merge by join key, so the code's order can differ, and the properties here are about which rows are output and what they carry.
- Sub-day timestamps: dates are calendar days, and a `'{window}d'` offset over midnight timestamps is `window` day numbers.
