/** Proleptic Gregorian calendar dates, as Python's `datetime.date`, with the three
    kinds of step the recurring scheduler takes: `timedelta(days=n)` and
    `relativedelta(months=k)` / `relativedelta(years=k)` from dateutil. */
module Calendar {
  import opened Wrappers

  datatype Date = Date(year: int, month: int, day: int)

  /** Gregorian leap-year rule (ISO 8601, section 3.2.1). */
  predicate IsLeapYear(y: int) {
    y % 4 == 0 && (y % 100 != 0 || y % 400 == 0)
  }

  function DaysInYear(y: int): int {
    if IsLeapYear(y) then 366 else 365
  }

  function DaysInMonth(y: int, m: int): (n: int)
    ensures 28 <= n <= 31
    ensures m == 2 ==> (n == 29 <==> IsLeapYear(y))
  {
    if m == 2 then (if IsLeapYear(y) then 29 else 28)
    else if m == 4 || m == 6 || m == 9 || m == 11 then 30
    else 31
  }

  predicate Valid(d: Date) {
    1 <= d.month <= 12 && 1 <= d.day <= DaysInMonth(d.year, d.month)
  }

  /** Python's date ordering: lexicographic on (year, month, day). */
  predicate Le(a: Date, b: Date) {
    a.year < b.year || (a.year == b.year && (a.month < b.month || (a.month == b.month && a.day <= b.day)))
  }

  predicate Lt(a: Date, b: Date) {
    Le(a, b) && a != b
  }

  lemma LeTransitive(a: Date, b: Date, c: Date)
    requires Le(a, b) && Le(b, c)
    ensures Le(a, c)
  {
  }

  // ---------------------------------------------------------------------------
  // Day counting: the ordinal of a date (0001-01-01 is day 1), as `date.toordinal`.

  function DaysBeforeYear(y: int): int {
    365 * (y - 1) + (y - 1) / 4 - (y - 1) / 100 + (y - 1) / 400
  }

  /** Days in the months of year `y` that come before month `m`. */
  function DaysBeforeMonth(y: int, m: int): int
    requires 1 <= m <= 13
  {
    var base :=
      if m == 1 then 0 else if m == 2 then 31 else if m == 3 then 59
      else if m == 4 then 90 else if m == 5 then 120 else if m == 6 then 151
      else if m == 7 then 181 else if m == 8 then 212 else if m == 9 then 243
      else if m == 10 then 273 else if m == 11 then 304 else if m == 12 then 334
      else 365;
    if m > 2 && IsLeapYear(y) then base + 1 else base
  }

  function Ordinal(d: Date): int
    requires Valid(d)
  {
    DaysBeforeYear(d.year) + DaysBeforeMonth(d.year, d.month) + d.day
  }

  lemma DaysBeforeMonthStep(y: int, m: int)
    requires 1 <= m <= 12
    ensures DaysBeforeMonth(y, m + 1) == DaysBeforeMonth(y, m) + DaysInMonth(y, m)
  {
  }

  lemma DaysBeforeYearStep(y: int)
    ensures DaysBeforeYear(y + 1) == DaysBeforeYear(y) + DaysInYear(y)
  {
    var x := y - 1;
    assert y / 4 == x / 4 + (if y % 4 == 0 then 1 else 0);
    assert y / 100 == x / 100 + (if y % 100 == 0 then 1 else 0);
    assert y / 400 == x / 400 + (if y % 400 == 0 then 1 else 0);
  }

  /** The day of the year, counted from 1, stays within the year's length. */
  lemma DayOfYearBounds(d: Date)
    requires Valid(d)
    ensures 1 <= DaysBeforeMonth(d.year, d.month) + d.day <= DaysInYear(d.year)
  {
    DaysBeforeMonthStep(d.year, d.month);
  }

  lemma {:induction false} DaysBeforeYearMonotone(y: int, z: int)
    requires y < z
    ensures DaysBeforeYear(y) + DaysInYear(y) <= DaysBeforeYear(z)
    decreases z - y
  {
    DaysBeforeYearStep(y);
    if y + 1 < z {
      DaysBeforeYearMonotone(y + 1, z);
    }
  }

  lemma DaysBeforeMonthMonotone(y: int, m: int, n: int)
    requires 1 <= m < n <= 12
    ensures DaysBeforeMonth(y, m) + DaysInMonth(y, m) <= DaysBeforeMonth(y, n)
  {
  }

  /** Python's date comparison and the day count agree: a date is earlier exactly
      when its ordinal is smaller. */
  lemma OrdinalOrder(a: Date, b: Date)
    requires Valid(a) && Valid(b)
    ensures Lt(a, b) <==> Ordinal(a) < Ordinal(b)
    ensures a == b <==> Ordinal(a) == Ordinal(b)
  {
    if a.year != b.year {
      var (lo, hi) := if a.year < b.year then (a, b) else (b, a);
      DayOfYearBounds(lo);
      DayOfYearBounds(hi);
      DaysBeforeYearMonotone(lo.year, hi.year);
    } else if a.month != b.month {
      var (lo, hi) := if a.month < b.month then (a, b) else (b, a);
      DaysBeforeMonthMonotone(a.year, lo.month, hi.month);
    }
  }

  // ---------------------------------------------------------------------------
  // Single-day steps and `timedelta(days=n)`.

  function NextDay(d: Date): Date {
    if d.day < DaysInMonth(d.year, d.month) then Date(d.year, d.month, d.day + 1)
    else if d.month < 12 then Date(d.year, d.month + 1, 1)
    else Date(d.year + 1, 1, 1)
  }

  function PrevDay(d: Date): Date {
    if d.day > 1 then Date(d.year, d.month, d.day - 1)
    else if d.month > 1 then Date(d.year, d.month - 1, DaysInMonth(d.year, d.month - 1))
    else Date(d.year - 1, 12, 31)
  }

  lemma NextDayOrdinal(d: Date)
    requires Valid(d)
    ensures Valid(NextDay(d)) && Ordinal(NextDay(d)) == Ordinal(d) + 1
    ensures Lt(d, NextDay(d))
  {
    if d.day < DaysInMonth(d.year, d.month) {
    } else if d.month < 12 {
      DaysBeforeMonthStep(d.year, d.month);
    } else {
      DaysBeforeMonthStep(d.year, 12);
      DaysBeforeYearStep(d.year);
    }
  }

  lemma PrevDayOrdinal(d: Date)
    requires Valid(d)
    ensures Valid(PrevDay(d)) && Ordinal(PrevDay(d)) == Ordinal(d) - 1
    ensures Lt(PrevDay(d), d)
  {
    if d.day > 1 {
    } else if d.month > 1 {
      DaysBeforeMonthStep(d.year, d.month - 1);
    } else {
      DaysBeforeMonthStep(d.year - 1, 12);
      DaysBeforeYearStep(d.year - 1);
    }
  }

  /** `d + timedelta(days=n)`, one day at a time. */
  function AddDays(d: Date, n: int): Date
    decreases if n >= 0 then n else -n
  {
    if n == 0 then d
    else if n > 0 then AddDays(NextDay(d), n - 1)
    else AddDays(PrevDay(d), n + 1)
  }

  /** Adding n days moves the ordinal by exactly n: the meaning of `timedelta(days=n)`. */
  lemma {:induction false} AddDaysOrdinal(d: Date, n: int)
    requires Valid(d)
    ensures Valid(AddDays(d, n)) && Ordinal(AddDays(d, n)) == Ordinal(d) + n
    decreases if n >= 0 then n else -n
  {
    if n > 0 {
      NextDayOrdinal(d);
      AddDaysOrdinal(NextDay(d), n - 1);
    } else if n < 0 {
      PrevDayOrdinal(d);
      AddDaysOrdinal(PrevDay(d), n + 1);
    }
  }

  /** A positive number of days lands strictly later. */
  lemma {:induction false} AddDaysLater(d: Date, n: int)
    requires Valid(d) && n >= 1
    ensures Lt(d, AddDays(d, n))
    decreases n
  {
    NextDayOrdinal(d);
    if n > 1 {
      AddDaysLater(NextDay(d), n - 1);
      LeTransitive(d, NextDay(d), AddDays(d, n));
    }
  }

  // ---------------------------------------------------------------------------
  // `relativedelta(months=k)` and `relativedelta(years=k)`: move the month (or
  // year), then clamp the day to the last day of the target month.

  /** Months since year 0, January: the quantity relativedelta shifts. */
  function MonthIndex(d: Date): int { d.year * 12 + (d.month - 1) }

  function AddMonths(d: Date, k: int): (r: Date)
    requires Valid(d)
    ensures Valid(r)
    ensures MonthIndex(r) == MonthIndex(d) + k
    ensures r.day == Min(d.day, DaysInMonth(r.year, r.month))
  {
    var total := MonthIndex(d) + k;
    var y := total / 12;
    var m := total % 12 + 1;
    Date(y, m, Min(d.day, DaysInMonth(y, m)))
  }

  function AddYears(d: Date, k: int): (r: Date)
    requires Valid(d)
    ensures Valid(r)
    ensures r.year == d.year + k && r.month == d.month
    ensures r.day == Min(d.day, DaysInMonth(r.year, r.month))
  {
    var y := d.year + k;
    Date(y, d.month, Min(d.day, DaysInMonth(y, d.month)))
  }

  /** The day survives a month step exactly when the target month is long enough. */
  lemma AddMonthsKeepsDay(d: Date, k: int)
    requires Valid(d)
    ensures AddMonths(d, k).day == d.day <==> d.day <= DaysInMonth(AddMonths(d, k).year, AddMonths(d, k).month)
  {
  }

  /** A positive month step lands strictly later. */
  lemma AddMonthsLater(d: Date, k: int)
    requires Valid(d) && k >= 1
    ensures Lt(d, AddMonths(d, k))
  {
    var r := AddMonths(d, k);
    assert MonthIndex(r) > MonthIndex(d);
    if r.year == d.year {
      assert r.month > d.month;
    }
  }

  /** A positive year step lands strictly later. */
  lemma AddYearsLater(d: Date, k: int)
    requires Valid(d) && k >= 1
    ensures Lt(d, AddYears(d, k))
  {
  }

  /** Python's `date.isoformat()` digits need a year between 1 and 9999. */
  predicate InPythonRange(d: Date) {
    Valid(d) && 1 <= d.year <= 9999
  }
}
