/** Python's `datetime.datetime` values: a calendar date, a time of day to the
    microsecond, and either no time zone (naive) or a fixed UTC offset. Also the
    ISO 8601 calendar-date text of `date.isoformat()` (ISO 8601:2004, section
    4.1.2.2, extended format) and its reading back. */
module DateTimes {
  import opened Wrappers
  import opened Calendar
  import opened Text

  const SecondsPerDay: int := 86400

  /** A reading of `utc_now()` (or any stored timestamp compared with one), as a
      count of microseconds; only its order matters to the model. */
  type Instant = int

  /** The midnight that a `date` becomes when stored in a `DateTime` column. */
  function Midnight(d: Date): DateTime {
    DateTime(d, 0, 0, 0, 0, None)
  }

  /** Chronological order of two naive datetimes. */
  predicate DateTimeLe(a: DateTime, b: DateTime) {
    Lt(a.date, b.date) || (a.date == b.date && !ClockLt(b, a))
  }

  predicate ClockLt(a: DateTime, b: DateTime) {
    a.hour < b.hour
    || (a.hour == b.hour && (a.minute < b.minute
      || (a.minute == b.minute && (a.second < b.second
        || (a.second == b.second && a.microsecond < b.microsecond)))))
  }

  /** `offset` is the UTC offset in seconds east of Greenwich; `None` is a naive datetime. */
  datatype DateTime = DateTime(
    date: Date, hour: int, minute: int, second: int, microsecond: int, offset: Option<int>)

  /** What Python's constructors guarantee of every datetime object: years 1 to 9999,
      a valid time of day, and an offset strictly within one day. */
  predicate ValidDateTime(dt: DateTime) {
    InPythonRange(dt.date)
    && 0 <= dt.hour < 24 && 0 <= dt.minute < 60 && 0 <= dt.second < 60
    && 0 <= dt.microsecond < 1000000
    && (dt.offset.Some? ==> -SecondsPerDay < dt.offset.value < SecondsPerDay)
  }

  function SecondOfDay(dt: DateTime): int {
    dt.hour * 3600 + dt.minute * 60 + dt.second
  }

  /** Seconds since the start of day 0 of the proleptic calendar, UTC; a naive value
      is read as UTC, which is how the whole backend treats naive datetimes. */
  function UtcSeconds(dt: DateTime): int
    requires Valid(dt.date)
  {
    Ordinal(dt.date) * SecondsPerDay + SecondOfDay(dt) - (if dt.offset.Some? then dt.offset.value else 0)
  }

  /** `dt.astimezone(timezone.utc)` for an aware datetime with a fixed offset: the
      same instant, expressed with offset zero. */
  function ToUtc(dt: DateTime): (r: DateTime)
    requires ValidDateTime(dt)
    ensures Valid(r.date) && r.offset == Some(0)
    ensures 0 <= r.hour < 24 && 0 <= r.minute < 60 && 0 <= r.second < 60
    ensures r.microsecond == dt.microsecond
    ensures UtcSeconds(r) == UtcSeconds(dt)
  {
    var off := if dt.offset.Some? then dt.offset.value else 0;
    var total := SecondOfDay(dt) - off;
    var shift := total / SecondsPerDay;
    var rest := total % SecondsPerDay;
    AddDaysOrdinal(dt.date, shift);
    ClockSplit(rest);
    DateTime(AddDays(dt.date, shift), rest / 3600, rest % 3600 / 60, rest % 60, dt.microsecond, Some(0))
  }

  /** Splitting a second of the day into hour, minute and second. */
  lemma ClockSplit(rest: int)
    requires 0 <= rest < 86400
    ensures 0 <= rest / 3600 < 24 && 0 <= rest % 3600 / 60 < 60 && 0 <= rest % 60 < 60
    ensures rest == rest / 3600 * 3600 + rest % 3600 / 60 * 60 + rest % 60
  {
  }

  lemma ClockJoin(h: int, m: int, s: int)
    requires 0 <= h < 24 && 0 <= m < 60 && 0 <= s < 60
    ensures var rest := h * 3600 + m * 60 + s;
      rest / 3600 == h && rest % 3600 / 60 == m && rest % 60 == s
  {
    var rest := h * 3600 + m * 60 + s;
    assert rest == 3600 * h + (60 * m + s) && 0 <= 60 * m + s < 3600;
    assert rest % 3600 == 60 * m + s;
  }

  /** A naive or zero-offset datetime is already in UTC: conversion keeps its fields. */
  lemma ToUtcOfUtc(dt: DateTime)
    requires ValidDateTime(dt) && (dt.offset == None || dt.offset == Some(0))
    ensures ToUtc(dt) == dt.(offset := Some(0))
  {
    ClockJoin(dt.hour, dt.minute, dt.second);
    var total := SecondOfDay(dt);
    assert 0 <= total < SecondsPerDay;
    assert total / SecondsPerDay == 0 && total % SecondsPerDay == total;
  }

  // ---------------------------------------------------------------------------
  // `date.isoformat()`: "YYYY-MM-DD".

  function DateIso(d: Date): (r: string)
    requires InPythonRange(d)
  {
    ZeroPad(d.year as nat, 4) + "-" + ZeroPad(d.month as nat, 2) + "-" + ZeroPad(d.day as nat, 2)
  }

  /** `date.fromisoformat` for the "YYYY-MM-DD" form. */
  function ParseDateIso(s: string): Option<Date> {
    if |s| == 10 && s[4] == '-' && s[7] == '-'
       && AllDigits(s[0..4]) && AllDigits(s[5..7]) && AllDigits(s[8..10])
    then
      var d := Date(ParseNat(s[0..4]), ParseNat(s[5..7]), ParseNat(s[8..10]));
      if InPythonRange(d) then Some(d) else None
    else None
  }

  /** The date text is ten characters, "YYYY-MM-DD", and reads back to the date. */
  lemma {:induction false} DateIsoRoundTrip(d: Date)
    requires InPythonRange(d)
    ensures |DateIso(d)| == 10 && DateIso(d)[4] == '-' && DateIso(d)[7] == '-'
    ensures ParseDateIso(DateIso(d)) == Some(d)
  {
    Pow10Values();
    ZeroPadSpec(d.year as nat, 4);
    ZeroPadSpec(d.month as nat, 2);
    ZeroPadSpec(d.day as nat, 2);
    var y, m, dd := ZeroPad(d.year as nat, 4), ZeroPad(d.month as nat, 2), ZeroPad(d.day as nat, 2);
    var s := DateIso(d);
    assert s == y + "-" + m + "-" + dd;
    assert s[0..4] == y;
    assert s[5..7] == m;
    assert s[8..10] == dd;
  }

  // ---------------------------------------------------------------------------
  // `datetime.isoformat()`: "YYYY-MM-DDTHH:MM:SS", then ".ffffff" only when the
  // microsecond is not zero, then "+HH:MM" (with ":SS" when needed) for an aware value.

  function Isoformat(dt: DateTime): (r: string)
    requires ValidDateTime(dt)
  {
    DateIso(dt.date) + "T" + ZeroPad(dt.hour as nat, 2) + ":" + ZeroPad(dt.minute as nat, 2) + ":"
    + ZeroPad(dt.second as nat, 2)
    + (if dt.microsecond == 0 then "" else "." + ZeroPad(dt.microsecond as nat, 6))
    + (if dt.offset.None? then "" else OffsetText(dt.offset.value))
  }

  function OffsetText(off: int): string {
    var a := if off < 0 then -off else off;
    (if off < 0 then "-" else "+") + ZeroPad(a / 3600, 2) + ":" + ZeroPad(a % 3600 / 60, 2)
    + (if a % 60 == 0 then "" else ":" + ZeroPad(a % 60, 2))
  }

  /** The text of a naive datetime is its date text, a `T` and the time of day:
      19 characters on a whole second, 26 otherwise. */
  lemma IsoformatShape(dt: DateTime)
    requires ValidDateTime(dt) && dt.offset.None?
    ensures var s := Isoformat(dt);
      |s| == (if dt.microsecond == 0 then 19 else 26)
      && s[..10] == DateIso(dt.date) && s[10] == 'T' && s[13] == ':' && s[16] == ':'
  {
    Pow10Values();
    DateIsoRoundTrip(dt.date);
    ZeroPadSpec(dt.hour as nat, 2);
    ZeroPadSpec(dt.minute as nat, 2);
    ZeroPadSpec(dt.second as nat, 2);
    ZeroPadSpec(dt.microsecond as nat, 6);
    assert Pow10(6) == 1000000 by { assert Pow10(6) == Pow10(3) * 1000; }
    var head := DateIso(dt.date) + "T" + ZeroPad(dt.hour as nat, 2) + ":" + ZeroPad(dt.minute as nat, 2) + ":"
      + ZeroPad(dt.second as nat, 2);
    assert Isoformat(dt) == head + (if dt.microsecond == 0 then "" else "." + ZeroPad(dt.microsecond as nat, 6));
    assert head[..10] == DateIso(dt.date);
  }

  lemma Pow10Values()
    ensures Pow10(2) == 100 && Pow10(3) == 1000 && Pow10(4) == 10000
  {
    assert Pow10(1) == 10;
  }
}
