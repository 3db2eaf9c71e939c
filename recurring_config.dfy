/** The recurring-transaction schedule row and its date rule: from the current
    cursor `next_occurrence`, step by `period_length` days, weeks, months or years.
    Month and year steps clamp the day to the end of the target month, with
    February's length given by the Gregorian leap-year rule. */
module RecurringConfigModel {
  import opened Wrappers
  import opened Calendar
  import opened DateTimes
  import opened Uuid

  /** The stored `RecurrenceType` values. The enum derives from `str`, so any string
      equal to one of these names selects the same branch of the date rule. */
  const Daily: string := "daily"
  const Weekly: string := "weekly"
  const Monthly: string := "monthly"
  const Yearly: string := "yearly"

  predicate KnownUnit(u: string) {
    u == Daily || u == Weekly || u == Monthly || u == Yearly
  }

  /** A `recurring_configs` row; its id is the key of the table that holds it. */
  datatype RecurringConfig = RecurringConfig(
    userId: Id,
    baseTransactionId: Id,
    periodLength: int,
    reoccurrence: string,
    startDate: Date,
    endDate: Option<Date>,
    nextOccurrence: Date,
    isActive: bool,
    createdAt: Instant)

  /** `calculate_next_occurrence`: the step is taken from `next_occurrence`, never
      from `start_date`. */
  function CalculateNextOccurrence(c: RecurringConfig): (r: Date)
    requires Valid(c.nextOccurrence)
    ensures Valid(r)
    ensures c.reoccurrence == Daily ==> Ordinal(r) == Ordinal(c.nextOccurrence) + c.periodLength
    ensures c.reoccurrence == Weekly ==> Ordinal(r) == Ordinal(c.nextOccurrence) + 7 * c.periodLength
    ensures c.reoccurrence == Monthly ==>
      MonthIndex(r) == MonthIndex(c.nextOccurrence) + c.periodLength
      && r.day == Min(c.nextOccurrence.day, DaysInMonth(r.year, r.month))
    ensures c.reoccurrence == Yearly ==>
      r.year == c.nextOccurrence.year + c.periodLength && r.month == c.nextOccurrence.month
      && r.day == Min(c.nextOccurrence.day, DaysInMonth(r.year, r.month))
    ensures !KnownUnit(c.reoccurrence) ==> r == c.nextOccurrence
  {
    var current := c.nextOccurrence;
    if c.reoccurrence == Daily then
      AddDaysOrdinal(current, c.periodLength);
      AddDays(current, c.periodLength)
    else if c.reoccurrence == Weekly then
      AddDaysOrdinal(current, 7 * c.periodLength);
      AddDays(current, 7 * c.periodLength)
    else if c.reoccurrence == Monthly then
      AddMonths(current, c.periodLength)
    else if c.reoccurrence == Yearly then
      AddYears(current, c.periodLength)
    else
      current
  }

  /** With a period of at least one and a known unit the cursor moves strictly
      forward; with an unknown unit or a zero period it stays where it is. */
  lemma NextOccurrenceAdvances(c: RecurringConfig)
    requires Valid(c.nextOccurrence)
    ensures c.periodLength >= 1 && KnownUnit(c.reoccurrence) ==> Lt(c.nextOccurrence, CalculateNextOccurrence(c))
    ensures c.periodLength == 0 || !KnownUnit(c.reoccurrence) ==> CalculateNextOccurrence(c) == c.nextOccurrence
  {
    var cur := c.nextOccurrence;
    var r := CalculateNextOccurrence(c);
    if c.periodLength >= 1 {
      if c.reoccurrence == Daily || c.reoccurrence == Weekly {
        OrdinalOrder(cur, r);
      } else if c.reoccurrence == Monthly {
        AddMonthsLater(cur, c.periodLength);
      } else if c.reoccurrence == Yearly {
        AddYearsLater(cur, c.periodLength);
      }
    } else if c.periodLength == 0 && KnownUnit(c.reoccurrence) {
      OrdinalOrder(cur, r);
      if c.reoccurrence == Monthly {
        assert r.year * 12 + (r.month - 1) == cur.year * 12 + (cur.month - 1);
      }
    }
  }

  function MonthlyFrom(d: Date): RecurringConfig {
    RecurringConfig(0, 0, 1, Monthly, d, None, d, true, 0)
  }

  /** Month steps clamp to the last day of February by the leap-year rule, and year
      steps move February 29 to February 28 in a common year. */
  lemma ClampExamples()
    ensures CalculateNextOccurrence(MonthlyFrom(Date(2024, 1, 31))) == Date(2024, 2, 29)
    ensures CalculateNextOccurrence(MonthlyFrom(Date(2023, 1, 31))) == Date(2023, 2, 28)
    ensures CalculateNextOccurrence(MonthlyFrom(Date(2024, 2, 29)).(reoccurrence := Yearly)) == Date(2025, 2, 28)
  {
  }

  /** A clamped day persists: the rule steps from the cursor, so Jan 31 becomes
      Feb 28 and then Mar 28, not Mar 31. */
  lemma ClampPersists()
    ensures var c := MonthlyFrom(Date(2023, 1, 31));
      var feb := CalculateNextOccurrence(c);
      feb == Date(2023, 2, 28)
      && CalculateNextOccurrence(c.(nextOccurrence := feb)) == Date(2023, 3, 28)
  {
  }

  /** `is_ended`: false without an end date, otherwise whether today is past it. */
  predicate IsEnded(c: RecurringConfig, today: Date) {
    c.endDate.Some? && Lt(c.endDate.value, today)
  }

  /** `has_pending_occurrences`. */
  predicate HasPendingOccurrences(c: RecurringConfig, today: Date) {
    c.isActive && !IsEnded(c, today) && Le(c.nextOccurrence, today)
  }

  /** A pending schedule's cursor is within its end date, so the materialiser's end
      check lets its first occurrence through. */
  lemma PendingWithinEnd(c: RecurringConfig, today: Date)
    requires HasPendingOccurrences(c, today)
    ensures c.endDate.Some? ==> Le(c.nextOccurrence, c.endDate.value)
  {
  }
}
