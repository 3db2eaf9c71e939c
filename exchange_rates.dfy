/** The exchange-rate endpoints: a per-user table of rates keyed on the upper-cased
    (from, to) currency pair, an upsert, a bulk refresh of USD-based rates from an
    external feed, clearing a custom override, and conversion, which takes the
    direct pair's rate and otherwise goes through USD. Decimal rates are exact
    reals; the rounding of the decimal context is not modelled. */
module ExchangeRatesApi {
  import opened Wrappers
  import opened Fields
  import opened DateTimes
  import opened Text
  import opened Uuid
  import opened Store

  // ---------------------------------------------------------------------------
  // Looking a pair up.

  predicate IsPair(r: ExchangeRate, userId: Id, from: string, to: string) {
    r.userId == userId && r.fromCurrency == from && r.toCurrency == to
  }

  function PairIds(rates: map<Id, ExchangeRate>, userId: Id, from: string, to: string): set<Id> {
    set k | k in rates && IsPair(rates[k], userId, from, to)
  }

  /** `.filter(user_id, from_currency, to_currency).first()`. */
  function FindPair(rates: map<Id, ExchangeRate>, userId: Id, from: string, to: string): (r: Option<Id>)
    ensures r.Some? <==> exists k :: k in rates && IsPair(rates[k], userId, from, to)
    ensures r.Some? ==> r.value in rates && IsPair(rates[r.value], userId, from, to)
  {
    var ids := PairIds(rates, userId, from, to);
    if ids == {} then
      assert forall k :: k in rates && IsPair(rates[k], userId, from, to) ==> k in ids;
      None
    else
      var k := MinId(ids);
      assert k in ids;
      Some(k)
  }

  /** The unique constraint on (user_id, from_currency, to_currency). */
  predicate UniquePairs(rates: map<Id, ExchangeRate>) {
    forall a, b :: a in rates && b in rates && IsPair(rates[b], rates[a].userId, rates[a].fromCurrency, rates[a].toCurrency) ==> a == b
  }

  /** Under the constraint, the row found is the only row with that key. */
  lemma FindPairUnique(rates: map<Id, ExchangeRate>, userId: Id, from: string, to: string, k: Id)
    requires UniquePairs(rates) && k in rates && IsPair(rates[k], userId, from, to)
    ensures FindPair(rates, userId, from, to) == Some(k)
  {
    var r := FindPair(rates, userId, from, to);
    assert r.Some?;
    assert IsPair(rates[k], rates[r.value].userId, rates[r.value].fromCurrency, rates[r.value].toCurrency);
  }

  /** A write that keeps every row's key, and adds no row, keeps the constraint. */
  lemma SameKeysUnique(rates: map<Id, ExchangeRate>, rates': map<Id, ExchangeRate>)
    requires UniquePairs(rates) && rates'.Keys <= rates.Keys
    requires forall k :: k in rates' ==>
      IsPair(rates'[k], rates[k].userId, rates[k].fromCurrency, rates[k].toCurrency)
    ensures UniquePairs(rates')
  {
    forall a, b | a in rates' && b in rates' && IsPair(rates'[b], rates'[a].userId, rates'[a].fromCurrency, rates'[a].toCurrency)
      ensures a == b
    {
      assert IsPair(rates[b], rates[a].userId, rates[a].fromCurrency, rates[a].toCurrency);
    }
  }

  /** Adding a row under a fresh id whose key no row has keeps the constraint. */
  lemma AddFreshUnique(rates: map<Id, ExchangeRate>, id: Id, r: ExchangeRate)
    requires UniquePairs(rates) && id !in rates
    requires FindPair(rates, r.userId, r.fromCurrency, r.toCurrency).None?
    ensures UniquePairs(rates[id := r])
  {
    forall k | k in rates
      ensures !IsPair(rates[k], r.userId, r.fromCurrency, r.toCurrency)
    {
    }
  }

  // ---------------------------------------------------------------------------
  // Upsert: `create_or_update_exchange_rate`.

  /** `ExchangeRateCreate`: the rates and the fetch time may be left out, sent as
      null or given. `use_custom_rate` is a plain `bool` in the schema, which refuses
      a null before the endpoint runs, so its `None` means not sent. The codes are
      three characters long. */
  datatype RateCreate = RateCreate(
    id: Option<Id>,
    fromCurrency: string,
    toCurrency: string,
    apiRate: Field<real>,
    customRate: Field<real>,
    useCustomRate: Option<bool>,
    apiRateFetchedAt: Field<Instant>)

  function OrElse<T>(f: Option<T>, dflt: T): T {
    if f.Some? then f.value else dflt
  }

  /** The existing row with every sent field written, an explicit null clearing its
      column, and the version bumped; the codes written are the upper-cased ones it
      was found by. */
  function Merged(r: ExchangeRate, b: RateCreate): ExchangeRate {
    r.(fromCurrency := Upper(b.fromCurrency), toCurrency := Upper(b.toCurrency),
       apiRate := Assign(b.apiRate, r.apiRate),
       customRate := Assign(b.customRate, r.customRate),
       useCustomRate := OrElse(b.useCustomRate, r.useCustomRate),
       apiRateFetchedAt := Assign(b.apiRateFetchedAt, r.apiRateFetchedAt),
       version := r.version + 1)
  }

  /** A new row: upper-cased codes, `use_custom_rate` false unless sent, version 1. */
  function NewRate(userId: Id, b: RateCreate, now: Instant): ExchangeRate {
    ExchangeRate(userId, Upper(b.fromCurrency), Upper(b.toCurrency), Assign(b.apiRate, None),
                 Assign(b.customRate, None), OrElse(b.useCustomRate, false), Assign(b.apiRateFetchedAt, None), 1, now)
  }

  /** The table and the row id after an upsert. A new row takes the client's id when
      one was sent, else `newId`; a client id already in use fails the primary key. */
  function Upsert(rates: map<Id, ExchangeRate>, userId: Id, b: RateCreate, newId: Id, now: Instant)
    : Result<(map<Id, ExchangeRate>, Id)>
  {
    var found := FindPair(rates, userId, Upper(b.fromCurrency), Upper(b.toCurrency));
    if found.Some? then Ok((rates[found.value := Merged(rates[found.value], b)], found.value))
    else
      var id := OrElse(b.id, newId);
      if id in rates then Err(ServerError("duplicate key value violates unique constraint"))
      else Ok((rates[id := NewRate(userId, b, now)], id))
  }

  /** After an upsert the pair, upper-cased, has exactly one row: the one returned;
      the table gains at most that row, and the rest is untouched. On an existing row
      each sent field is written, an explicit null included, and the others kept. */
  lemma UpsertSpec(rates: map<Id, ExchangeRate>, userId: Id, b: RateCreate, newId: Id, now: Instant)
    requires UniquePairs(rates) && newId !in rates
    ensures var r := Upsert(rates, userId, b, newId, now);
      var (f, t) := (Upper(b.fromCurrency), Upper(b.toCurrency));
      (r.Err? <==> FindPair(rates, userId, f, t).None? && b.id.Some? && b.id.value in rates)
      && (r.Ok? ==>
            var (m, id) := r.value;
            UniquePairs(m) && FindPair(m, userId, f, t) == Some(id)
            && m.Keys == rates.Keys + {id}
            && (forall k :: k in rates && k != id ==> m[k] == rates[k])
            && (id in rates ==>
                  m[id].version == rates[id].version + 1
                  && m[id].apiRate == Assign(b.apiRate, rates[id].apiRate)
                  && m[id].customRate == Assign(b.customRate, rates[id].customRate)
                  && m[id].apiRateFetchedAt == Assign(b.apiRateFetchedAt, rates[id].apiRateFetchedAt)
                  && m[id].useCustomRate == OrElse(b.useCustomRate, rates[id].useCustomRate))
            && (id !in rates ==> m[id].version == 1 && m[id] == NewRate(userId, b, now)))
  {
    var (f, t) := (Upper(b.fromCurrency), Upper(b.toCurrency));
    var found := FindPair(rates, userId, f, t);
    if found.Some? {
      var k := found.value;
      var m := rates[k := Merged(rates[k], b)];
      SameKeysUnique(rates, m);
      FindPairUnique(m, userId, f, t, k);
    } else {
      var id := OrElse(b.id, newId);
      if id !in rates {
        var m := rates[id := NewRate(userId, b, now)];
        AddFreshUnique(rates, id, NewRate(userId, b, now));
        FindPairUnique(m, userId, f, t, id);
      }
    }
  }

  /** Sending the same pair twice does not add a row the second time: codes that
      differ only in case name the same row. */
  lemma UpsertTwiceNoDuplicate(rates: map<Id, ExchangeRate>, userId: Id, b: RateCreate, b2: RateCreate, newId: Id, newId2: Id, now: Instant)
    requires UniquePairs(rates) && newId !in rates
    requires Upper(b2.fromCurrency) == Upper(b.fromCurrency) && Upper(b2.toCurrency) == Upper(b.toCurrency)
    requires Upsert(rates, userId, b, newId, now).Ok?
    ensures var (m, id) := Upsert(rates, userId, b, newId, now).value;
      var r2 := Upsert(m, userId, b2, newId2, now);
      r2.Ok? && r2.value.1 == id && r2.value.0.Keys == m.Keys
  {
    UpsertSpec(rates, userId, b, newId, now);
  }

  /** Sending a stored pair again with `custom_rate: null` and `use_custom_rate:
      true` clears the override, and the row then offers no rate at all. */
  lemma UpsertNullCustomOffersNothing(rates: map<Id, ExchangeRate>, userId: Id, b: RateCreate, newId: Id, now: Instant, k: Id)
    requires UniquePairs(rates) && newId !in rates
    requires k in rates && IsPair(rates[k], userId, Upper(b.fromCurrency), Upper(b.toCurrency))
    requires b.customRate.Null? && b.useCustomRate == Some(true)
    ensures var r := Upsert(rates, userId, b, newId, now);
      r.Ok? && r.value.1 == k && r.value.0[k].customRate.None?
      && PairRate(r.value.0, userId, Upper(b.fromCurrency), Upper(b.toCurrency)).None?
  {
    var (f, t) := (Upper(b.fromCurrency), Upper(b.toCurrency));
    FindPairUnique(rates, userId, f, t, k);
    UpsertSpec(rates, userId, b, newId, now);
    var m := Upsert(rates, userId, b, newId, now).value.0;
    FindPairUnique(m, userId, f, t, k);
  }

  method CreateOrUpdateExchangeRate(db: Db, userId: Id, b: RateCreate, now: Instant) returns (r: Result<Id>)
    requires db.Valid()
    modifies db`exchangeRates, db`nextId
    ensures db.Valid() && db.nextId >= old(db.nextId)
    ensures var u := Upsert(old(db.exchangeRates), userId, b, old(db.nextId), now);
      (r.Err? <==> u.Err?)
      && (r.Err? ==> r == Err(u.error) && db.exchangeRates == old(db.exchangeRates))
      && (r.Ok? ==> db.exchangeRates == u.value.0 && r.value == u.value.1)
  {
    var f := Upper(b.fromCurrency);
    var t := Upper(b.toCurrency);
    var found := FindPair(db.exchangeRates, userId, f, t);
    if found.Some? {
      var k := found.value;
      db.exchangeRates := db.exchangeRates[k := Merged(db.exchangeRates[k], b)];
      return Ok(k);
    }
    var id: Id;
    if b.id.Some? {
      id := b.id.value;
      if id in db.exchangeRates {
        return Err(ServerError("duplicate key value violates unique constraint"));
      }
      if id >= db.nextId {
        db.nextId := id + 1;
      }
    } else {
      id := db.NewId();
    }
    db.exchangeRates := db.exchangeRates[id := NewRate(userId, b, now)];
    r := Ok(id);
  }

  // ---------------------------------------------------------------------------
  // `update_exchange_rate`: by id, for the owner.

  /** `ExchangeRateUpdate`: each field left out, sent as null or given. It carries
      no currency code. */
  datatype RateUpdate = RateUpdate(
    apiRate: Field<real>,
    customRate: Field<real>,
    useCustomRate: Field<bool>,
    apiRateFetchedAt: Field<Instant>)

  /** The table after a PUT: every sent field is written, a null clearing a nullable
      column, and the version bumped. A null `use_custom_rate` lands on a NOT NULL
      column and fails the commit. */
  function UpdateRate(rates: map<Id, ExchangeRate>, userId: Id, id: Id, u: RateUpdate): (r: Result<map<Id, ExchangeRate>>)
  {
    if id !in rates || rates[id].userId != userId then Err(NotFound("Exchange rate not found"))
    else if u.useCustomRate.Null? then Err(ServerError("Internal server error"))
    else
      var x := rates[id];
      Ok(rates[id := x.(apiRate := Assign(u.apiRate, x.apiRate),
                       customRate := Assign(u.customRate, x.customRate),
                       useCustomRate := Put(u.useCustomRate, x.useCustomRate),
                       apiRateFetchedAt := Assign(u.apiRateFetchedAt, x.apiRateFetchedAt),
                       version := x.version + 1)])
  }

  /** An update by id finds only the caller's row; a null flag fails; otherwise each
      sent field is written (a null rate clears it), the version is bumped, the pair
      and so the constraint are kept, and no other row changes. */
  lemma UpdateRateSpec(rates: map<Id, ExchangeRate>, userId: Id, id: Id, u: RateUpdate)
    requires UniquePairs(rates)
    ensures var r := UpdateRate(rates, userId, id, u);
      var owned := id in rates && rates[id].userId == userId;
      (r.Ok? <==> owned && !u.useCustomRate.Null?)
      && (!owned ==> r == Err(NotFound("Exchange rate not found")))
      && (owned && u.useCustomRate.Null? ==> r == Err(ServerError("Internal server error")))
      && (r.Ok? ==>
            var x := r.value[id];
            r.value.Keys == rates.Keys && UniquePairs(r.value)
            && x.version == rates[id].version + 1
            && x.apiRate == Assign(u.apiRate, rates[id].apiRate)
            && x.customRate == Assign(u.customRate, rates[id].customRate)
            && x.apiRateFetchedAt == Assign(u.apiRateFetchedAt, rates[id].apiRateFetchedAt)
            && x.useCustomRate == (if u.useCustomRate.Given? then u.useCustomRate.value else rates[id].useCustomRate)
            && IsPair(x, userId, rates[id].fromCurrency, rates[id].toCurrency)
            && forall k :: k in rates && k != id ==> r.value[k] == rates[k])
  {
    var r := UpdateRate(rates, userId, id, u);
    if r.Ok? {
      SameKeysUnique(rates, r.value);
    }
  }

  method UpdateExchangeRate(db: Db, userId: Id, id: Id, u: RateUpdate) returns (r: Result<ExchangeRate>)
    modifies db`exchangeRates
    ensures var m := UpdateRate(old(db.exchangeRates), userId, id, u);
      (r.Err? <==> m.Err?)
      && (r.Err? ==> r == Err(m.error) && db.exchangeRates == old(db.exchangeRates))
      && (r.Ok? ==> db.exchangeRates == m.value && r.value == m.value[id])
  {
    var m := UpdateRate(db.exchangeRates, userId, id, u);
    if m.Err? {
      return Err(m.error);
    }
    db.exchangeRates := m.value;
    r := Ok(db.exchangeRates[id]);
  }

  // ---------------------------------------------------------------------------
  // `clear_custom_rate`.

  function ClearCustom(rates: map<Id, ExchangeRate>, userId: Id, from: string, to: string): map<Id, ExchangeRate> {
    var found := FindPair(rates, userId, Upper(from), Upper(to));
    if found.None? then rates
    else
      var x := rates[found.value];
      rates[found.value := x.(customRate := None, useCustomRate := false, version := x.version + 1)]
  }

  /** Clearing finds the upper-cased pair: its custom rate is dropped, the API rate
      is back in use and the version goes up by one; a missing pair leaves the table
      as it was. No row is added or removed and the constraint is kept. */
  lemma ClearCustomSpec(rates: map<Id, ExchangeRate>, userId: Id, from: string, to: string)
    requires UniquePairs(rates)
    ensures var m := ClearCustom(rates, userId, from, to);
      var found := FindPair(rates, userId, Upper(from), Upper(to));
      m.Keys == rates.Keys && UniquePairs(m)
      && (found.None? ==> m == rates)
      && (found.Some? ==>
            var x := m[found.value];
            x.customRate.None? && !x.useCustomRate && Effective(x) == Effective(rates[found.value].(useCustomRate := false))
            && x.version == rates[found.value].version + 1
            && IsPair(x, userId, Upper(from), Upper(to))
            && forall k :: k in rates && k != found.value ==> m[k] == rates[k])
  {
    SameKeysUnique(rates, ClearCustom(rates, userId, from, to));
  }

  method ClearCustomRate(db: Db, userId: Id, from: string, to: string)
    modifies db`exchangeRates
    ensures db.exchangeRates == ClearCustom(old(db.exchangeRates), userId, from, to)
  {
    var found := FindPair(db.exchangeRates, userId, Upper(from), Upper(to));
    if found.Some? {
      var x := db.exchangeRates[found.value];
      db.exchangeRates := db.exchangeRates[found.value := x.(customRate := None, useCustomRate := false, version := x.version + 1)];
    }
  }

  // ---------------------------------------------------------------------------
  // Conversion: `convert_currency`.

  /** The rate a row offers: the custom one when `use_custom_rate`, else the API
      one; a missing or zero rate is falsy and offers nothing. */
  function Effective(r: ExchangeRate): (x: Option<real>)
    ensures x.Some? ==> x.value != 0.0
    ensures x.Some? ==> x == (if r.useCustomRate then r.customRate else r.apiRate)
    ensures x.None? ==> var c := if r.useCustomRate then r.customRate else r.apiRate; c.None? || c.value == 0.0
  {
    var c := if r.useCustomRate then r.customRate else r.apiRate;
    if c.Some? && c.value != 0.0 then c else None
  }

  /** The usable rate of a stored pair, if any. */
  function PairRate(rates: map<Id, ExchangeRate>, userId: Id, from: string, to: string): Option<real> {
    var k := FindPair(rates, userId, from, to);
    if k.Some? then Effective(rates[k.value]) else None
  }

  /** USD per unit of `code` as the USD-based table gives it; USD itself is 1. */
  function UsdRate(rates: map<Id, ExchangeRate>, userId: Id, code: string): (x: Option<real>)
    ensures x.Some? ==> x.value != 0.0
  {
    if code == "USD" then Some(1.0) else PairRate(rates, userId, "USD", code)
  }

  datatype Conversion = Conversion(
    originalAmount: real,
    convertedAmount: real,
    fromCurrency: string,
    toCurrency: string,
    rateUsed: real,
    isCustomRate: bool)

  function Convert(rates: map<Id, ExchangeRate>, userId: Id, amount: real, from: string, to: string): Result<Conversion> {
    var (f, t) := (Upper(from), Upper(to));
    if f == t then Ok(Conversion(amount, amount, f, t, 1.0, false))
    else
      var direct := FindPair(rates, userId, f, t);
      if direct.Some? && Effective(rates[direct.value]).Some? then
        var rate := Effective(rates[direct.value]).value;
        Ok(Conversion(amount, amount * rate, f, t, rate, rates[direct.value].useCustomRate))
      else
        var (fromUsd, toUsd) := (UsdRate(rates, userId, f), UsdRate(rates, userId, t));
        if fromUsd.Some? && toUsd.Some? then
          var rate := toUsd.value / fromUsd.value;
          Ok(Conversion(amount, amount * rate, f, t, rate, false))
        else Err(BadRequest("No exchange rate available for " + f + " to " + t))
  }

  /** Codes equal up to case convert at rate 1, unchanged, and not as a custom rate. */
  lemma ConvertSameCurrency(rates: map<Id, ExchangeRate>, userId: Id, amount: real, from: string, to: string)
    requires Upper(from) == Upper(to)
    ensures Convert(rates, userId, amount, from, to) == Ok(Conversion(amount, amount, Upper(from), Upper(to), 1.0, false))
  {
  }

  /** The answer in every case: the direct pair's usable rate when there is one
      (custom if the row says so), else the USD cross rate `to / from`, else an error. */
  lemma ConvertCases(rates: map<Id, ExchangeRate>, userId: Id, amount: real, from: string, to: string)
    requires Upper(from) != Upper(to)
    ensures var (f, t) := (Upper(from), Upper(to));
      var r := Convert(rates, userId, amount, from, to);
      var direct := PairRate(rates, userId, f, t);
      var (a, b) := (UsdRate(rates, userId, f), UsdRate(rates, userId, t));
      (direct.Some? ==>
         r.Ok? && r.value.rateUsed == direct.value && r.value.convertedAmount == amount * direct.value
         && r.value.isCustomRate == rates[FindPair(rates, userId, f, t).value].useCustomRate)
      && (direct.None? && a.Some? && b.Some? ==>
            r.Ok? && r.value.rateUsed == b.value / a.value && r.value.convertedAmount == amount * (b.value / a.value)
            && !r.value.isCustomRate)
      && (r.Err? <==> direct.None? && (a.None? || b.None?))
      && (r.Err? ==> r.error == BadRequest("No exchange rate available for " + f + " to " + t))
  {
  }

  /** Through USD, converting there and back returns the amount: the two cross
      rates are each other's inverse. This holds over exact reals; the source's
      `Decimal` division rounds each cross rate to 28 significant digits, so there
      the round trip can miss by one unit in the last digit (rates 3 and 1 give
      0.999...9 for 1). */
  lemma ConvertViaUsdRoundTrip(rates: map<Id, ExchangeRate>, userId: Id, amount: real, from: string, to: string)
    requires Upper(from) != Upper(to)
    requires PairRate(rates, userId, Upper(from), Upper(to)).None?
    requires PairRate(rates, userId, Upper(to), Upper(from)).None?
    requires Convert(rates, userId, amount, from, to).Ok?
    ensures var there := Convert(rates, userId, amount, from, to).value;
      var back := Convert(rates, userId, there.convertedAmount, to, from);
      back.Ok? && back.value.convertedAmount == amount
  {
    var (f, t) := (Upper(from), Upper(to));
    UpperIsUpper(from);
    UpperIsUpper(to);
    var there := Convert(rates, userId, amount, from, to).value;
    var (a, b) := (UsdRate(rates, userId, f).value, UsdRate(rates, userId, t).value);
    assert there.convertedAmount == amount * (b / a);
    var back := Convert(rates, userId, there.convertedAmount, to, from);
    assert back.Ok? && back.value.convertedAmount == there.convertedAmount * (a / b);
    assert (b / a) * (a / b) == 1.0;
    assert (amount * (b / a)) * (a / b) == amount * ((b / a) * (a / b));
  }

  /** Once a custom rate is cleared, the pair converts at its API rate again, and not
      as a custom rate. */
  lemma ClearThenConvert(rates: map<Id, ExchangeRate>, userId: Id, amount: real, from: string, to: string, k: Id)
    requires UniquePairs(rates) && Upper(from) != Upper(to)
    requires k in rates && IsPair(rates[k], userId, Upper(from), Upper(to))
    requires rates[k].apiRate.Some? && rates[k].apiRate.value != 0.0
    ensures var c := Convert(ClearCustom(rates, userId, from, to), userId, amount, from, to);
      c.Ok? && c.value == Conversion(amount, amount * rates[k].apiRate.value, Upper(from), Upper(to), rates[k].apiRate.value, false)
  {
    var (f, t) := (Upper(from), Upper(to));
    FindPairUnique(rates, userId, f, t, k);
    var m := ClearCustom(rates, userId, from, to);
    SameKeysUnique(rates, m);
    FindPairUnique(m, userId, f, t, k);
  }

  // ---------------------------------------------------------------------------
  // `bulk_update_api_rates`.

  /** The running state of the bulk refresh: the table, the id counter and the two
      counters the response reports. */
  datatype Refresh = Refresh(rates: map<Id, ExchangeRate>, next: Id, updated: nat, created: nat)

  /** One (code, rate) entry: USD is skipped; the USD→code row gets the API rate and
      fetch time, or is created with them. */
  function RefreshStep(s: Refresh, userId: Id, fetchedAt: Instant, now: Instant, entry: (string, real)): Refresh {
    var code := Upper(entry.0);
    if code == "USD" then s
    else
      var found := FindPair(s.rates, userId, "USD", code);
      if found.Some? then
        var x := s.rates[found.value];
        Refresh(s.rates[found.value := x.(apiRate := Some(entry.1), apiRateFetchedAt := Some(fetchedAt), version := x.version + 1)],
                s.next, s.updated + 1, s.created)
      else
        Refresh(s.rates[s.next := ExchangeRate(userId, "USD", code, Some(entry.1), None, false, Some(fetchedAt), 1, now)],
                s.next + 1, s.updated, s.created + 1)
  }

  function RefreshAll(s: Refresh, userId: Id, fetchedAt: Instant, now: Instant, entries: seq<(string, real)>): Refresh
    decreases |entries|
  {
    if entries == [] then s
    else RefreshStep(RefreshAll(s, userId, fetchedAt, now, entries[..|entries| - 1]), userId, fetchedAt, now, entries[|entries| - 1])
  }

  /** The entries other than USD. */
  function NonUsd(entries: seq<(string, real)>): nat
    decreases |entries|
  {
    if entries == [] then 0
    else NonUsd(entries[..|entries| - 1]) + (if Upper(entries[|entries| - 1].0) == "USD" then 0 else 1)
  }

  ghost predicate RefreshOk(s: Refresh) {
    UniquePairs(s.rates) && KeysBelow(s.rates.Keys, s.next)
  }

  /** Every entry other than USD is counted once, as an update or a creation; the
      constraint holds throughout; and every such code ends with a USD-based row. */
  lemma {:induction false} RefreshSpec(s: Refresh, userId: Id, fetchedAt: Instant, now: Instant, entries: seq<(string, real)>)
    requires RefreshOk(s)
    ensures var r := RefreshAll(s, userId, fetchedAt, now, entries);
      RefreshOk(r)
      && r.updated + r.created == s.updated + s.created + NonUsd(entries)
      && r.next == s.next + (r.created - s.created)
      && s.rates.Keys <= r.rates.Keys
      && forall i :: 0 <= i < |entries| && Upper(entries[i].0) != "USD" ==>
           FindPair(r.rates, userId, "USD", Upper(entries[i].0)).Some?
    decreases |entries|
  {
    if entries != [] {
      var n := |entries| - 1;
      RefreshSpec(s, userId, fetchedAt, now, entries[..n]);
      var p := RefreshAll(s, userId, fetchedAt, now, entries[..n]);
      RefreshStepSpec(p, userId, fetchedAt, now, entries[n]);
      var r := RefreshAll(s, userId, fetchedAt, now, entries);
      forall i | 0 <= i < |entries| && Upper(entries[i].0) != "USD"
        ensures FindPair(r.rates, userId, "USD", Upper(entries[i].0)).Some?
      {
        if i < n {
          assert entries[..n][i] == entries[i];
        }
      }
    }
  }

  /** One step keeps the constraint, keeps every pair that had a row, and leaves the
      entry's code with a USD-based row. */
  lemma RefreshStepSpec(s: Refresh, userId: Id, fetchedAt: Instant, now: Instant, entry: (string, real))
    requires RefreshOk(s)
    ensures var r := RefreshStep(s, userId, fetchedAt, now, entry);
      var code := Upper(entry.0);
      RefreshOk(r)
      && r.updated + r.created == s.updated + s.created + (if code == "USD" then 0 else 1)
      && r.created >= s.created && r.next == s.next + (r.created - s.created)
      && s.rates.Keys <= r.rates.Keys
      && (forall u, f, t :: FindPair(s.rates, u, f, t).Some? ==> FindPair(r.rates, u, f, t).Some?)
      && (code != "USD" ==> FindPair(r.rates, userId, "USD", code).Some?)
  {
    var code := Upper(entry.0);
    var r := RefreshStep(s, userId, fetchedAt, now, entry);
    if code != "USD" {
      var found := FindPair(s.rates, userId, "USD", code);
      if found.Some? {
        SameKeysUnique(s.rates, r.rates);
        assert IsPair(r.rates[found.value], userId, "USD", code);

        forall u, f, t | FindPair(s.rates, u, f, t).Some? ensures FindPair(r.rates, u, f, t).Some? {
          var k := FindPair(s.rates, u, f, t).value;
          assert IsPair(r.rates[k], u, f, t);
        }
      } else {
        var row := ExchangeRate(userId, "USD", code, Some(entry.1), None, false, Some(fetchedAt), 1, now);
        AddFreshUnique(s.rates, s.next, row);
        assert IsPair(r.rates[s.next], userId, "USD", code);

        forall u, f, t | FindPair(s.rates, u, f, t).Some? ensures FindPair(r.rates, u, f, t).Some? {
          var k := FindPair(s.rates, u, f, t).value;
          assert IsPair(r.rates[k], u, f, t);
        }
      }
    }
  }

  /** The row an entry other than USD leaves behind carries the entry's rate and the
      fetch time: an existing row with its version bumped, or a new row at version 1
      that does not use a custom rate. */
  lemma RefreshStepRow(s: Refresh, userId: Id, fetchedAt: Instant, now: Instant, entry: (string, real))
    requires RefreshOk(s) && Upper(entry.0) != "USD"
    ensures var r := RefreshStep(s, userId, fetchedAt, now, entry);
      var k := FindPair(r.rates, userId, "USD", Upper(entry.0));
      k.Some? && r.rates[k.value].apiRate == Some(entry.1)
      && r.rates[k.value].apiRateFetchedAt == Some(fetchedAt)
      && (k.value in s.rates ==> r.rates[k.value].version == s.rates[k.value].version + 1)
      && (k.value !in s.rates ==> k.value == s.next && r.rates[k.value].version == 1 && !r.rates[k.value].useCustomRate)
  {
    var code := Upper(entry.0);
    var r := RefreshStep(s, userId, fetchedAt, now, entry);
    var found := FindPair(s.rates, userId, "USD", code);
    if found.Some? {
      SameKeysUnique(s.rates, r.rates);
      assert IsPair(r.rates[found.value], userId, "USD", code);
      FindPairUnique(r.rates, userId, "USD", code, found.value);
    } else {
      var row := ExchangeRate(userId, "USD", code, Some(entry.1), None, false, Some(fetchedAt), 1, now);
      AddFreshUnique(s.rates, s.next, row);
      FindPairUnique(r.rates, userId, "USD", code, s.next);
    }
  }

  /** What `bulk_update_api_rates` reports. */
  datatype RefreshReport = RefreshReport(updated: nat, created: nat, total: nat)

  method BulkUpdateApiRates(db: Db, userId: Id, entries: seq<(string, real)>, fetchedAt: Instant, now: Instant)
    returns (report: RefreshReport)
    requires db.Valid()
    modifies db`exchangeRates, db`nextId
    ensures db.Valid()
    ensures var r := RefreshAll(Refresh(old(db.exchangeRates), old(db.nextId), 0, 0), userId, fetchedAt, now, entries);
      db.exchangeRates == r.rates && db.nextId == r.next
      && report == RefreshReport(r.updated, r.created, |entries|)
  {
    var updated, created := 0, 0;
    ghost var s0 := Refresh(db.exchangeRates, db.nextId, 0, 0);
    var i := 0;
    while i < |entries|
      invariant 0 <= i <= |entries| && db.Valid()
      invariant Refresh(db.exchangeRates, db.nextId, updated, created) == RefreshAll(s0, userId, fetchedAt, now, entries[..i])
    {
      assert entries[..i + 1][..i] == entries[..i];
      var code := Upper(entries[i].0);
      if code != "USD" {
        var found := FindPair(db.exchangeRates, userId, "USD", code);
        if found.Some? {
          var x := db.exchangeRates[found.value];
          db.exchangeRates := db.exchangeRates[found.value :=
            x.(apiRate := Some(entries[i].1), apiRateFetchedAt := Some(fetchedAt), version := x.version + 1)];
          updated := updated + 1;
        } else {
          var id := db.NewId();
          db.exchangeRates := db.exchangeRates[id := ExchangeRate(userId, "USD", code, Some(entries[i].1), None, false, Some(fetchedAt), 1, now)];
          created := created + 1;
        }
      }
      i := i + 1;
    }
    assert entries[..i] == entries;
    report := RefreshReport(updated, created, |entries|);
  }
}
