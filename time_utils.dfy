/** The timestamp helpers every response goes through: `to_utc_isoformat`
    renders a datetime as an ISO 8601:2004 complete representation in extended
    format (section 4.3.2) with the `Z` UTC designator (section 4.2.4) and
    milliseconds, and `ensure_utc` tags or converts a datetime to UTC. */
module TimeUtils {
  import opened Wrappers
  import opened Calendar
  import opened Text
  import opened DateTimes

  /** `dt.replace(tzinfo=timezone.utc)` for a naive value, `dt.astimezone(timezone.utc)`
      for an aware one. */
  function AsUtc(dt: DateTime): (r: DateTime)
    requires ValidDateTime(dt)
    ensures Valid(r.date) && 0 <= r.hour < 24 && 0 <= r.minute < 60 && 0 <= r.second < 60
    ensures r.microsecond == dt.microsecond
    ensures r.offset == Some(0) && UtcSeconds(r) == UtcSeconds(dt)
    ensures dt.offset.None? ==> r == dt.(offset := Some(0))
  {
    if dt.offset.None? then dt.(offset := Some(0)) else ToUtc(dt)
  }

  /** The UTC value lies in Python's year range (otherwise `astimezone` overflows). */
  predicate Representable(dt: DateTime) {
    ValidDateTime(dt) && InPythonRange(AsUtc(dt).date)
  }

  /** "YYYY-MM-DDTHH:MM:SS.mmmZ" of a UTC datetime. */
  function FormatUtc(u: DateTime): string
    requires InPythonRange(u.date) && 0 <= u.hour && 0 <= u.minute && 0 <= u.second && 0 <= u.microsecond
  {
    DateIso(u.date) + "T" + ZeroPad(u.hour as nat, 2) + ":" + ZeroPad(u.minute as nat, 2) + ":"
    + ZeroPad(u.second as nat, 2) + "." + ZeroPad((u.microsecond / 1000) as nat, 3) + "Z"
  }

  /** `to_utc_isoformat(dt)`. */
  function ToUtcIsoformat(dt: Option<DateTime>): (r: Option<string>)
    requires dt.Some? ==> Representable(dt.value)
    ensures r.None? <==> dt.None?
  {
    match dt
    case None => None
    case Some(d) =>
      var u := AsUtc(d);
      Some(FormatUtc(u))
  }

  /** The text has the fixed shape "YYYY-MM-DDTHH:MM:SS.mmmZ", 24 characters long,
      its fields read back to the UTC value's date, hour, minute and second, and its
      milliseconds are the microseconds divided by 1000, truncated. */
  lemma {:induction false} FormatUtcShape(u: DateTime)
    requires InPythonRange(u.date)
    requires 0 <= u.hour < 24 && 0 <= u.minute < 60 && 0 <= u.second < 60 && 0 <= u.microsecond < 1000000
    ensures var s := FormatUtc(u);
      |s| == 24 && s[10] == 'T' && s[13] == ':' && s[16] == ':' && s[19] == '.' && s[23] == 'Z'
      && ParseDateIso(s[0..10]) == Some(u.date)
      && AllDigits(s[11..13]) && ParseNat(s[11..13]) == u.hour
      && AllDigits(s[14..16]) && ParseNat(s[14..16]) == u.minute
      && AllDigits(s[17..19]) && ParseNat(s[17..19]) == u.second
      && AllDigits(s[20..23]) && ParseNat(s[20..23]) == u.microsecond / 1000
  {
    Pow10Values();
    DateIsoRoundTrip(u.date);
    ZeroPadSpec(u.hour as nat, 2);
    ZeroPadSpec(u.minute as nat, 2);
    ZeroPadSpec(u.second as nat, 2);
    ZeroPadSpec((u.microsecond / 1000) as nat, 3);
    FieldsAt(DateIso(u.date), ZeroPad(u.hour as nat, 2), ZeroPad(u.minute as nat, 2),
      ZeroPad(u.second as nat, 2), ZeroPad((u.microsecond / 1000) as nat, 3));
  }

  /** Where each field of the timestamp layout sits, whatever its characters. */
  lemma FieldsAt(d: string, h: string, m: string, sec: string, ms: string)
    requires |d| == 10 && |h| == 2 && |m| == 2 && |sec| == 2 && |ms| == 3
    ensures var s := d + "T" + h + ":" + m + ":" + sec + "." + ms + "Z";
      |s| == 24 && s[10] == 'T' && s[13] == ':' && s[16] == ':' && s[19] == '.' && s[23] == 'Z'
      && s[0..10] == d && s[11..13] == h && s[14..16] == m && s[17..19] == sec && s[20..23] == ms
  {
    var s := d + "T" + h + ":" + m + ":" + sec + "." + ms + "Z";
    assert s[0..10] == d;
    assert s[11..13] == h;
    assert s[14..16] == m;
    assert s[17..19] == sec;
    assert s[20..23] == ms;
  }

  /** A naive datetime is taken to be UTC already: the text shows its own fields. */
  lemma NaiveIsoformatKeepsFields(dt: DateTime)
    requires Representable(dt) && dt.offset.None?
    ensures ToUtcIsoformat(Some(dt)) == Some(FormatUtc(dt))
  {
  }

  /** An aware datetime is rendered at the same instant, in UTC. */
  lemma AwareIsoformatSameInstant(dt: DateTime)
    requires Representable(dt) && dt.offset.Some?
    ensures exists u: DateTime ::
      (u.offset == Some(0) && Representable(u) && UtcSeconds(u) == UtcSeconds(dt)
       && ToUtcIsoformat(Some(dt)) == Some(FormatUtc(u)))
  {
    var u := AsUtc(dt);
    ToUtcOfUtc(u);
    assert u.offset == Some(0) && Representable(u) && UtcSeconds(u) == UtcSeconds(dt);
  }

  /** `ensure_utc(dt)`. */
  function EnsureUtc(dt: Option<DateTime>): (r: Option<DateTime>)
    requires dt.Some? ==> Representable(dt.value)
    ensures r.None? <==> dt.None?
    ensures r.Some? ==> Valid(r.value.date) && r.value.offset == Some(0) && UtcSeconds(r.value) == UtcSeconds(dt.value)
    ensures r.Some? && dt.value.offset.None? ==> r.value == dt.value.(offset := Some(0))
  {
    match dt
    case None => None
    case Some(d) => Some(AsUtc(d))
  }

  /** Applying `ensure_utc` to its own result changes nothing. */
  lemma EnsureUtcIdempotent(dt: Option<DateTime>)
    requires dt.Some? ==> Representable(dt.value)
    ensures EnsureUtc(dt).Some? ==> Representable(EnsureUtc(dt).value)
    ensures EnsureUtc(EnsureUtc(dt)) == EnsureUtc(dt)
  {
    if dt.Some? {
      var u := AsUtc(dt.value);
      ToUtcOfUtc(u);
    }
  }
}
