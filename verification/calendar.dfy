/** The proleptic Gregorian calendar behind pandas' `dt.day_of_year`,
    `dt.month` and `dt.year`, and the day count that a time-based rolling
    window such as `'30d'` measures. */
module Calendar {

  datatype Ymd = Ymd(year: int, month: int, day: int)

  predicate IsLeapYear(y: int)
  {
    y % 4 == 0 && (y % 100 != 0 || y % 400 == 0)
  }

  function DaysInYear(y: int): int
  {
    if IsLeapYear(y) then 366 else 365
  }

  function DaysInMonth(y: int, m: int): int
    requires 1 <= m <= 12
  {
    if m == 2 then (if IsLeapYear(y) then 29 else 28)
    else if m == 4 || m == 6 || m == 9 || m == 11 then 30
    else 31
  }

  predicate IsValid(d: Ymd)
  {
    1 <= d.month <= 12 && 1 <= d.day <= DaysInMonth(d.year, d.month)
  }

  /** A calendar date that exists. */
  type Date = d: Ymd | IsValid(d) witness Ymd(1970, 1, 1)

  /** Days of a common year before the first of month `m`. */
  function CommonDaysBefore(m: int): int
    requires 1 <= m <= 12
  {
    if m == 1 then 0 else if m == 2 then 31 else if m == 3 then 59
    else if m == 4 then 90 else if m == 5 then 120 else if m == 6 then 151
    else if m == 7 then 181 else if m == 8 then 212 else if m == 9 then 243
    else if m == 10 then 273 else if m == 11 then 304 else 334
  }

  /** Days of year `y` before the first of month `m`. */
  function DaysBeforeMonth(y: int, m: int): int
    requires 1 <= m <= 12
  {
    CommonDaysBefore(m) + (if m > 2 && IsLeapYear(y) then 1 else 0)
  }

  /** The months of a year follow one another without gap or overlap and
      together make up the year. */
  lemma MonthsTile(y: int, m: int)
    requires 1 <= m <= 12
    ensures DaysBeforeMonth(y, m) + DaysInMonth(y, m)
            == if m == 12 then DaysInYear(y) else DaysBeforeMonth(y, m + 1)
  {
  }

  lemma {:induction false} MonthsOrdered(y: int, m1: int, m2: int)
    requires 1 <= m1 < m2 <= 12
    ensures DaysBeforeMonth(y, m1) + DaysInMonth(y, m1) <= DaysBeforeMonth(y, m2)
  {
    MonthsTile(y, m1);
    if m2 > m1 + 1 {
      MonthsOrdered(y, m1, m2 - 1);
      MonthsTile(y, m2 - 1);
    }
  }

  lemma MonthFitsYear(y: int, m: int)
    requires 1 <= m <= 12
    ensures DaysBeforeMonth(y, m) + DaysInMonth(y, m) <= DaysInYear(y)
  {
    MonthsTile(y, 12);
    if m < 12 {
      MonthsOrdered(y, m, 12);
    }
  }

  /** The 1-based day of the year (pandas `dt.day_of_year`). */
  function DayOfYear(d: Date): (doy: int)
    ensures 1 <= doy <= DaysInYear(d.year)
    ensures 1 <= doy <= 366
    ensures doy == 366 ==> IsLeapYear(d.year)
  {
    MonthFitsYear(d.year, d.month);
    DaysBeforeMonth(d.year, d.month) + d.day
  }

  /** Days before 1 January of year `y`, counting from 1 January of year 1
      (the convention of Python's `date.toordinal`). Dafny's `/` rounds down
      for a positive divisor, which is what the Gregorian count needs for
      years before 1 as well. */
  function DaysBeforeYear(y: int): int
  {
    365 * (y - 1) + (y - 1) / 4 - (y - 1) / 100 + (y - 1) / 400
  }

  /** The day number of a date: consecutive dates have consecutive numbers. */
  function Ordinal(d: Date): int
  {
    DaysBeforeYear(d.year) + DayOfYear(d)
  }

  lemma DivisorsNest(y: int)
    ensures y % 400 == 0 ==> y % 100 == 0
    ensures y % 100 == 0 ==> y % 4 == 0
  {
  }

  lemma YearStep(y: int)
    ensures DaysBeforeYear(y + 1) == DaysBeforeYear(y) + DaysInYear(y)
  {
    // Going from y - 1 to y passes a multiple of k exactly when k divides y.
    assert y / 4 - (y - 1) / 4 == if y % 4 == 0 then 1 else 0;
    assert y / 100 - (y - 1) / 100 == if y % 100 == 0 then 1 else 0;
    assert y / 400 - (y - 1) / 400 == if y % 400 == 0 then 1 else 0;
    DivisorsNest(y);
  }

  lemma {:induction false} YearsOrdered(a: int, b: int)
    requires a < b
    ensures DaysBeforeYear(a) + DaysInYear(a) <= DaysBeforeYear(b)
    decreases b - a
  {
    YearStep(a);
    if a + 1 < b {
      YearsOrdered(a + 1, b);
    }
  }

  /** The date after `d`. */
  function NextDay(d: Date): Date
  {
    if d.day < DaysInMonth(d.year, d.month) then Ymd(d.year, d.month, d.day + 1)
    else if d.month < 12 then Ymd(d.year, d.month + 1, 1)
    else Ymd(d.year + 1, 1, 1)
  }

  /** The ordinal counts calendar days: the next date is one day later. */
  lemma NextDayOrdinal(d: Date)
    ensures Ordinal(NextDay(d)) == Ordinal(d) + 1
  {
    MonthsTile(d.year, d.month);
    if d.day == DaysInMonth(d.year, d.month) && d.month == 12 {
      YearStep(d.year);
    }
  }

  /** Chronological order of dates: by year, then month, then day. */
  predicate Precedes(d1: Date, d2: Date)
  {
    || d1.year < d2.year
    || (d1.year == d2.year && d1.month < d2.month)
    || (d1.year == d2.year && d1.month == d2.month && d1.day < d2.day)
  }

  lemma PrecedesOrdinal(d1: Date, d2: Date)
    requires Precedes(d1, d2)
    ensures Ordinal(d1) < Ordinal(d2)
  {
    if d1.year < d2.year {
      YearsOrdered(d1.year, d2.year);
    } else if d1.month < d2.month {
      MonthsOrdered(d1.year, d1.month, d2.month);
    }
  }

  /** The ordinal orders dates chronologically and tells distinct dates
      apart, so comparing ordinals is comparing dates. */
  lemma OrdinalOrder(d1: Date, d2: Date)
    ensures Precedes(d1, d2) <==> Ordinal(d1) < Ordinal(d2)
    ensures d1 == d2 <==> Ordinal(d1) == Ordinal(d2)
  {
    if Precedes(d1, d2) {
      PrecedesOrdinal(d1, d2);
    } else if Precedes(d2, d1) {
      PrecedesOrdinal(d2, d1);
    }
  }
}
