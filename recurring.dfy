/** The recurring-transaction endpoints and the materialiser behind them.
    `process_single_recurring` walks the cursor of one schedule up to today,
    adding one transaction per occurrence; its meaning is the function `Run`,
    whose properties are proved here once and hold of every call. */
module RecurringApi {
  import opened Wrappers
  import opened Calendar
  import opened DateTimes
  import opened Uuid
  import opened RecurringConfigModel
  import opened RecurringSchemas
  import opened Store

  /** The loop condition of the materialiser. */
  predicate Due(c: RecurringConfig, today: Date) {
    c.isActive && Le(c.nextOccurrence, today)
  }

  /** Days left until the cursor passes today: the loop's variant. */
  function DaysLeft(c: RecurringConfig, today: Date): nat
    requires Valid(c.nextOccurrence) && Valid(today)
  {
    if Due(c, today) then
      OrdinalOrder(c.nextOccurrence, today);
      Ordinal(today) - Ordinal(c.nextOccurrence) + 1
    else 0
  }

  /** The outcome of one run: the occurrence dates materialised, in order, and the
      configuration as the run leaves it. */
  datatype Outcome = Outcome(dates: seq<Date>, config: RecurringConfig)

  /** One run of the materialiser over configuration `c`, where `baseFound` says
      whether the base transaction exists and is not deleted. */
  function Run(c: RecurringConfig, baseFound: bool, today: Date): (r: Outcome)
    requires Schedulable(c) && Valid(today)
    ensures Schedulable(r.config)
    ensures r.config == c.(nextOccurrence := r.config.nextOccurrence, isActive := r.config.isActive)
    decreases DaysLeft(c, today)
  {
    if !Due(c, today) then Outcome([], c)
    else if c.endDate.Some? && Lt(c.endDate.value, c.nextOccurrence) then Outcome([], c.(isActive := false))
    else if !baseFound then Outcome([], c.(isActive := false))
    else
      var next := c.(nextOccurrence := CalculateNextOccurrence(c));
      NextStepShrinks(c, today);
      var rest := Run(next, baseFound, today);
      Outcome([c.nextOccurrence] + rest.dates, rest.config)
  }

  lemma NextStepShrinks(c: RecurringConfig, today: Date)
    requires Schedulable(c) && Valid(today) && Due(c, today)
    ensures DaysLeft(c.(nextOccurrence := CalculateNextOccurrence(c)), today) < DaysLeft(c, today)
  {
    var next := c.(nextOccurrence := CalculateNextOccurrence(c));
    NextOccurrenceAdvances(c);
    OrdinalOrder(c.nextOccurrence, next.nextOccurrence);
    OrdinalOrder(c.nextOccurrence, today);
    if Due(next, today) {
      OrdinalOrder(next.nextOccurrence, today);
    }
  }

  /** On return the schedule is inactive or its cursor is past today. */
  lemma {:induction false} RunStops(c: RecurringConfig, baseFound: bool, today: Date)
    requires Schedulable(c) && Valid(today)
    ensures var r := Run(c, baseFound, today);
      !r.config.isActive || Lt(today, r.config.nextOccurrence)
    decreases DaysLeft(c, today)
  {
    if Due(c, today) && !(c.endDate.Some? && Lt(c.endDate.value, c.nextOccurrence)) && baseFound {
      NextStepShrinks(c, today);
      RunStops(c.(nextOccurrence := CalculateNextOccurrence(c)), baseFound, today);
    }
  }

  /** The rule applied to cursor `d` under the settings of `c`. */
  function Step(c: RecurringConfig, d: Date): Date
    requires Valid(d)
  {
    CalculateNextOccurrence(c.(nextOccurrence := d))
  }

  /** Every date is a valid date within today and within the end date, if any. */
  predicate Within(dates: seq<Date>, today: Date, end: Option<Date>) {
    forall i :: 0 <= i < |dates| ==>
      Valid(dates[i]) && Le(dates[i], today) && (end.Some? ==> Le(dates[i], end.value))
  }

  /** Every date materialised is a valid date within today and within the end date. */
  lemma {:induction false} RunDatesBounded(c: RecurringConfig, baseFound: bool, today: Date)
    requires Schedulable(c) && Valid(today)
    ensures Within(Run(c, baseFound, today).dates, today, c.endDate)
    decreases DaysLeft(c, today)
  {
    if Due(c, today) && !(c.endDate.Some? && Lt(c.endDate.value, c.nextOccurrence)) && baseFound {
      var next := c.(nextOccurrence := CalculateNextOccurrence(c));
      NextStepShrinks(c, today);
      RunDatesBounded(next, baseFound, today);
      var rest := Run(next, baseFound, today).dates;
      assert Run(c, baseFound, today).dates == [c.nextOccurrence] + rest;
      WithinCons(c.nextOccurrence, rest, today, c.endDate);
    }
  }

  lemma WithinCons(d: Date, rest: seq<Date>, today: Date, end: Option<Date>)
    requires Valid(d) && Le(d, today) && (end.Some? ==> Le(d, end.value))
    requires Within(rest, today, end)
    ensures Within([d] + rest, today, end)
  {
    var s := [d] + rest;
    forall i | 0 <= i < |s|
      ensures Valid(s[i]) && Le(s[i], today) && (end.Some? ==> Le(s[i], end.value))
    {
      if i > 0 { assert s[i] == rest[i - 1]; }
    }
  }

  /** The first date is the starting cursor and the final cursor is the rule applied
      to the last date; with no dates the cursor has not moved. */
  lemma {:induction false} RunEnds(c: RecurringConfig, baseFound: bool, today: Date)
    requires Schedulable(c) && Valid(today)
    ensures var r := Run(c, baseFound, today);
      (|r.dates| == 0 ==> r.config.nextOccurrence == c.nextOccurrence)
      && (|r.dates| > 0 ==>
        r.dates[0] == c.nextOccurrence && Valid(r.dates[|r.dates| - 1])
        && r.config.nextOccurrence == Step(c, r.dates[|r.dates| - 1]))
    decreases DaysLeft(c, today)
  {
    if Due(c, today) && !(c.endDate.Some? && Lt(c.endDate.value, c.nextOccurrence)) && baseFound {
      var next := c.(nextOccurrence := CalculateNextOccurrence(c));
      NextStepShrinks(c, today);
      RunEnds(next, baseFound, today);
      assert next.(nextOccurrence := c.nextOccurrence) == c;
      var rest := Run(next, baseFound, today);
      if |rest.dates| > 0 {
        var last := rest.dates[|rest.dates| - 1];
        assert next.(nextOccurrence := last) == c.(nextOccurrence := last);
      }
    }
  }

  /** Each date is the rule applied to the one before it, so the dates strictly
      increase. */
  lemma {:induction false} RunSteps(c: RecurringConfig, baseFound: bool, today: Date)
    requires Schedulable(c) && Valid(today)
    ensures var r := Run(c, baseFound, today);
      forall i :: 0 <= i < |r.dates| - 1 ==>
        Valid(r.dates[i]) && r.dates[i + 1] == Step(c, r.dates[i]) && Lt(r.dates[i], r.dates[i + 1])
    decreases DaysLeft(c, today)
  {
    var r := Run(c, baseFound, today);
    RunDatesBounded(c, baseFound, today);
    if Due(c, today) && !(c.endDate.Some? && Lt(c.endDate.value, c.nextOccurrence)) && baseFound {
      var next := c.(nextOccurrence := CalculateNextOccurrence(c));
      NextStepShrinks(c, today);
      RunSteps(next, baseFound, today);
      RunEnds(next, baseFound, today);
      NextOccurrenceAdvances(c);
      var rest := Run(next, baseFound, today);
      assert r.dates == [c.nextOccurrence] + rest.dates;
      forall i | 0 <= i < |r.dates| - 1
        ensures r.dates[i + 1] == Step(c, r.dates[i]) && Lt(r.dates[i], r.dates[i + 1])
      {
        if i == 0 {
          assert c.(nextOccurrence := c.nextOccurrence) == c;
        } else {
          assert r.dates[i] == rest.dates[i - 1] && r.dates[i + 1] == rest.dates[i];
          assert next.(nextOccurrence := rest.dates[i - 1]) == c.(nextOccurrence := r.dates[i]);
        }
      }
    }
  }

  /** A second run on the same day creates nothing and changes nothing. */
  lemma RunIdempotent(c: RecurringConfig, baseFound: bool, today: Date)
    requires Schedulable(c) && Valid(today)
    ensures var r := Run(c, baseFound, today);
      Run(r.config, baseFound, today) == Outcome([], r.config)
  {
    RunStops(c, baseFound, today);
    var r := Run(c, baseFound, today);
    if r.config.isActive {
      OrdinalOrder(today, r.config.nextOccurrence);
      OrdinalOrder(r.config.nextOccurrence, today);
    }
  }

  /** Afterwards the schedule has no pending occurrences. */
  lemma RunClearsPending(c: RecurringConfig, baseFound: bool, today: Date)
    requires Schedulable(c) && Valid(today)
    ensures !HasPendingOccurrences(Run(c, baseFound, today).config, today)
  {
    RunIdempotent(c, baseFound, today);
  }

  /** A pending schedule with its base transaction in place yields at least one
      transaction, dated at the cursor. */
  lemma PendingCreates(c: RecurringConfig, today: Date)
    requires Schedulable(c) && Valid(today) && HasPendingOccurrences(c, today)
    ensures |Run(c, true, today).dates| >= 1 && Run(c, true, today).dates[0] == c.nextOccurrence
  {
    PendingWithinEnd(c, today);
  }

  /** A cursor equal to the end date still produces its occurrence; a cursor past
      the end date, or a missing base transaction, deactivates the schedule and
      produces nothing. */
  lemma EndDateBoundary(c: RecurringConfig, baseFound: bool, today: Date)
    requires Schedulable(c) && Valid(today) && Due(c, today)
    ensures c.endDate == Some(c.nextOccurrence) && baseFound ==>
      |Run(c, baseFound, today).dates| >= 1
    ensures c.endDate.Some? && Lt(c.endDate.value, c.nextOccurrence) ==>
      Run(c, baseFound, today) == Outcome([], c.(isActive := false))
    ensures !baseFound ==>
      Run(c, baseFound, today) == Outcome([], c.(isActive := false))
  {
  }

  /** A monthly schedule started on 2024-01-01, run on 2024-03-15, yields the first
      of January, February and March, and leaves the cursor at 2024-04-01. */
  lemma MonthlyExample()
    ensures Run(MonthlyFrom(Date(2024, 1, 1)), true, Date(2024, 3, 15))
         == Outcome([Date(2024, 1, 1), Date(2024, 2, 1), Date(2024, 3, 1)],
                    MonthlyFrom(Date(2024, 1, 1)).(nextOccurrence := Date(2024, 4, 1)))
  {
    var today := Date(2024, 3, 15);
    var c0 := MonthlyFrom(Date(2024, 1, 1));
    var c1 := c0.(nextOccurrence := Date(2024, 2, 1));
    var c2 := c0.(nextOccurrence := Date(2024, 3, 1));
    var c3 := c0.(nextOccurrence := Date(2024, 4, 1));
    assert CalculateNextOccurrence(c0) == Date(2024, 2, 1);
    assert CalculateNextOccurrence(c1) == Date(2024, 3, 1);
    assert CalculateNextOccurrence(c2) == Date(2024, 4, 1);
    assert Run(c3, true, today) == Outcome([], c3);
    assert Run(c2, true, today) == Outcome([Date(2024, 3, 1)], c3);
    assert Run(c1, true, today) == Outcome([Date(2024, 2, 1), Date(2024, 3, 1)], c3);
  }

  // ---------------------------------------------------------------------------
  // The materialiser over the database.

  /** The base-transaction lookup of the loop: by id and not deleted, with no
      filter on the owner. */
  function FindBase(txs: map<Id, Transaction>, id: Id): Option<Transaction> {
    if id in txs && txs[id].deletedAt.None? then Some(txs[id]) else None
  }

  /** The transaction added for one occurrence: the base's wallet, category,
      payment method, amount, title, notes and direction, dated at the occurrence
      (a `date` stored in a `DateTime` column is its midnight). */
  function Instance(base: Transaction, userId: Id, configId: Id, d: Date, now: Instant): Transaction {
    Transaction(userId, base.walletId, base.categoryId, base.paymentMethodId, base.amount, base.title,
      base.notes, Midnight(d), base.isIncome, RecurringInstance, None, Some(configId), None, now, None)
  }

  /** The rows a run adds: the i-th date under id `first + i`. */
  function Instances(base: Transaction, userId: Id, configId: Id, first: Id, dates: seq<Date>, now: Instant): map<Id, Transaction>
    decreases |dates|
  {
    if dates == [] then map[]
    else
      Instances(base, userId, configId, first, dates[..|dates| - 1], now)
        [first + |dates| - 1 := Instance(base, userId, configId, dates[|dates| - 1], now)]
  }

  /** `process_single_recurring`. The schedule must have a period of at least one
      and a known unit: with a zero period or an unknown unit the cursor never
      moves and the loop does not end. */
  method ProcessSingleRecurring(db: Db, configId: Id, today: Date, now: Instant) returns (created: seq<Id>)
    requires db.Valid() && configId in db.recurringConfigs
    requires Schedulable(db.recurringConfigs[configId]) && Valid(today)
    modifies db`transactions, db`recurringConfigs, db`nextId
    ensures db.Valid()
    ensures db.wallets == old(db.wallets)
    ensures var c := old(db.recurringConfigs[configId]);
      var base := FindBase(old(db.transactions), c.baseTransactionId);
      var r := Run(c, base.Some?, today);
      db.recurringConfigs == old(db.recurringConfigs)[configId := r.config]
      && db.nextId == old(db.nextId) + |r.dates|
      && |created| == |r.dates| && (forall i :: 0 <= i < |created| ==> created[i] == old(db.nextId) + i)
      && db.transactions == old(db.transactions)
           + (if base.Some? then Instances(base.value, c.userId, configId, old(db.nextId), r.dates, now) else map[])
  {
    var c := db.recurringConfigs[configId];
    c, created := GenerateInstances(db, configId, c, today, now);
    db.PutRecurringConfig(configId, c);
  }

  /** The loop of `ProcessSingleRecurring`: one instance per due occurrence, the
      configuration advancing as it goes; returns the configuration as it ends. */
  method GenerateInstances(db: Db, configId: Id, c0: RecurringConfig, today: Date, now: Instant)
    returns (c: RecurringConfig, created: seq<Id>)
    requires db.Valid() && Schedulable(c0) && Valid(today)
    modifies db`transactions, db`nextId
    ensures db.Valid()
    ensures var base := FindBase(old(db.transactions), c0.baseTransactionId);
      var r := Run(c0, base.Some?, today);
      c == r.config
      && db.nextId == old(db.nextId) + |r.dates|
      && |created| == |r.dates| && (forall i :: 0 <= i < |created| ==> created[i] == old(db.nextId) + i)
      && db.transactions == old(db.transactions)
           + (if base.Some? then Instances(base.value, c0.userId, configId, old(db.nextId), r.dates, now) else map[])
  {
    ghost var base0 := FindBase(db.transactions, c0.baseTransactionId);
    ghost var first := db.nextId;
    ghost var txs0 := db.transactions;
    ghost var dates: seq<Date> := [];
    c := c0;
    created := [];
    RunBegin(c0, base0.Some?, today);
    while c.isActive && Le(c.nextOccurrence, today)
      invariant Schedulable(c) && c.userId == c0.userId && c.baseTransactionId == c0.baseTransactionId
      invariant Run(c0, base0.Some?, today)
        == Outcome(dates + Run(c, base0.Some?, today).dates, Run(c, base0.Some?, today).config)
      invariant db.nextId == first + |dates| && |created| == |dates|
      invariant forall i :: 0 <= i < |created| ==> created[i] == first + i
      invariant db.transactions
        == txs0 + (if base0.Some? then Instances(base0.value, c0.userId, configId, first, dates, now) else map[])
      invariant |dates| > 0 ==> base0.Some?
      invariant KeysBelow(txs0.Keys, first)
      invariant db.Valid()
      decreases DaysLeft(c, today)
    {
      if c.endDate.Some? && Lt(c.endDate.value, c.nextOccurrence) {
        RunHalt(c0, c, dates, base0.Some?, today);
        c := c.(isActive := false);
        break;
      }
      var base := FindBase(db.transactions, c.baseTransactionId);
      if base0.Some? { InstancesAbove(base0.value, c0.userId, configId, first, dates, now); }
      LookupUnchanged(txs0, c0.baseTransactionId, first, db.transactions,
        if base0.Some? then Instances(base0.value, c0.userId, configId, first, dates, now) else map[]);
      if base.None? {
        RunHalt(c0, c, dates, base0.Some?, today);
        c := c.(isActive := false);
        break;
      }
      created := AddInstance(db, txs0, first, base.value, c0.userId, configId, dates, c.nextOccurrence, now, created);
      RunAdvance(c0, c, dates, base0.Some?, today);
      NextStepShrinks(c, today);
      dates := dates + [c.nextOccurrence];
      c := c.(nextOccurrence := CalculateNextOccurrence(c));
    }
    RunDone(c0, c, dates, base0.Some?, today);
  }

  // The loop invariant of `ProcessSingleRecurring`: the run from the original
  // configuration is the dates produced so far followed by the run from `c`.

  lemma RunBegin(c0: RecurringConfig, b: bool, today: Date)
    requires Schedulable(c0) && Valid(today)
    ensures Run(c0, b, today) == Outcome([] + Run(c0, b, today).dates, Run(c0, b, today).config)
  {
    assert [] + Run(c0, b, today).dates == Run(c0, b, today).dates;
  }

  lemma RunAdvance(c0: RecurringConfig, c: RecurringConfig, dates: seq<Date>, b: bool, today: Date)
    requires Schedulable(c0) && Schedulable(c) && Valid(today) && Due(c, today) && b
    requires !(c.endDate.Some? && Lt(c.endDate.value, c.nextOccurrence))
    requires Run(c0, b, today) == Outcome(dates + Run(c, b, today).dates, Run(c, b, today).config)
    ensures var next := c.(nextOccurrence := CalculateNextOccurrence(c));
      Run(c0, b, today) == Outcome((dates + [c.nextOccurrence]) + Run(next, b, today).dates, Run(next, b, today).config)
  {
    var next := c.(nextOccurrence := CalculateNextOccurrence(c));
    assert Run(c, b, today).dates == [c.nextOccurrence] + Run(next, b, today).dates;
    assert dates + ([c.nextOccurrence] + Run(next, b, today).dates)
      == (dates + [c.nextOccurrence]) + Run(next, b, today).dates;
  }

  lemma RunHalt(c0: RecurringConfig, c: RecurringConfig, dates: seq<Date>, b: bool, today: Date)
    requires Schedulable(c0) && Schedulable(c) && Valid(today) && Due(c, today)
    requires (c.endDate.Some? && Lt(c.endDate.value, c.nextOccurrence)) || !b
    requires Run(c0, b, today) == Outcome(dates + Run(c, b, today).dates, Run(c, b, today).config)
    ensures var off := c.(isActive := false);
      Run(c0, b, today) == Outcome(dates + Run(off, b, today).dates, Run(off, b, today).config)
      && Run(off, b, today) == Outcome([], off)
  {
    assert dates + [] == dates;
  }

  lemma RunDone(c0: RecurringConfig, c: RecurringConfig, dates: seq<Date>, b: bool, today: Date)
    requires Schedulable(c0) && Schedulable(c) && Valid(today) && !Due(c, today)
    requires Run(c0, b, today) == Outcome(dates + Run(c, b, today).dates, Run(c, b, today).config)
    ensures Run(c0, b, today) == Outcome(dates, c)
  {
    assert dates + [] == dates;
  }

  /** Rows added under ids from `first` on leave the lookup of an older id alone. */
  lemma LookupUnchanged(txs0: map<Id, Transaction>, id: Id, first: Id, txs: map<Id, Transaction>, added: map<Id, Transaction>)
    requires KeysBelow(txs0.Keys, first) && KeysFrom(added.Keys, first)
    requires txs == txs0 + added
    ensures id in txs0 ==> FindBase(txs, id) == FindBase(txs0, id)
    ensures id !in txs0 && added == map[] ==> FindBase(txs, id) == None
  {
  }

  /** A run's rows take exactly the ids from `first` on, one per date, the i-th
      date's row under `first + i`. */
  lemma {:induction false} InstancesKeys(base: Transaction, userId: Id, configId: Id, first: Id, dates: seq<Date>, now: Instant)
    ensures forall k :: k in Instances(base, userId, configId, first, dates, now) <==> first <= k < first + |dates|
    ensures forall i :: 0 <= i < |dates| ==>
      first + i in Instances(base, userId, configId, first, dates, now)
      && Instances(base, userId, configId, first, dates, now)[first + i] == Instance(base, userId, configId, dates[i], now)
    decreases |dates|
  {
    if dates != [] {
      var init := dates[..|dates| - 1];
      InstancesKeys(base, userId, configId, first, init, now);
      forall i | 0 <= i < |dates| - 1
        ensures first + i in Instances(base, userId, configId, first, dates, now)
        ensures Instances(base, userId, configId, first, dates, now)[first + i] == Instance(base, userId, configId, dates[i], now)
      {
        assert init[i] == dates[i];
      }
    }
  }

  predicate KeysFrom(s: set<Id>, n: Id) {
    forall k :: k in s ==> k >= n
  }

  lemma InstancesAbove(base: Transaction, userId: Id, configId: Id, first: Id, dates: seq<Date>, now: Instant)
    ensures KeysFrom(Instances(base, userId, configId, first, dates, now).Keys, first)
  {
    InstancesKeys(base, userId, configId, first, dates, now);
  }

  /** Stores one more generated instance: the store grows by the instance for `d`,
      under the next id. */
  method AddInstance(db: Db, ghost txs0: map<Id, Transaction>, ghost first: Id, base: Transaction,
                     userId: Id, configId: Id, ghost dates: seq<Date>, d: Date, now: Instant, created: seq<Id>)
    returns (created': seq<Id>)
    requires db.Valid() && db.nextId == first + |dates| && |created| == |dates|
    requires forall i :: 0 <= i < |created| ==> created[i] == first + i
    requires db.transactions == txs0 + Instances(base, userId, configId, first, dates, now)
    modifies db`transactions, db`nextId
    ensures db.Valid() && db.nextId == first + |dates| + 1 && |created'| == |dates| + 1
    ensures forall i :: 0 <= i < |created'| ==> created'[i] == first + i
    ensures db.transactions == txs0 + Instances(base, userId, configId, first, dates + [d], now)
  {
    var id := db.AddTransaction(Instance(base, userId, configId, d, now));
    created' := created + [id];
    InstancesSnoc(txs0, base, userId, configId, first, dates, d, now);
  }

  lemma InstancesSnoc(txs0: map<Id, Transaction>, base: Transaction, userId: Id, configId: Id, first: Id,
                      dates: seq<Date>, d: Date, now: Instant)
    ensures (txs0 + Instances(base, userId, configId, first, dates, now))[first + |dates| := Instance(base, userId, configId, d, now)]
      == txs0 + Instances(base, userId, configId, first, dates + [d], now)
  {
    assert (dates + [d])[..|dates|] == dates;
  }

  // ---------------------------------------------------------------------------
  // `create_recurring_config`, `update_recurring_config`, `delete_recurring_config`.

  /** The base lookup of `create_recurring_config`: the transaction exists, belongs
      to the caller and is not deleted. */
  predicate OwnedLive(txs: map<Id, Transaction>, userId: Id, id: Id) {
    id in txs && txs[id].userId == userId && txs[id].deletedAt.None?
  }

  /** The row `create_recurring_config` inserts: the validated body, owned by the
      caller, active, with its first occurrence at the start date. */
  function NewConfig(userId: Id, b: RecurringConfigCreate, now: Instant): RecurringConfig {
    RecurringConfig(userId, b.baseTransactionId, b.periodLength, UnitName(b.reoccurrence),
      b.startDate, b.endDate, b.startDate, true, now)
  }

  /** A schedule created through the schema can be materialised: its period is at
      least one, its unit is one of the four and its cursor is its start date. */
  lemma NewConfigSchedulable(userId: Id, body: CreateBody, now: Instant)
    requires ValidateCreate(body).Ok? && Valid(body.startDate)
    ensures var c := NewConfig(userId, ValidateCreate(body).value, now);
      Schedulable(c) && c.nextOccurrence == c.startDate == body.startDate && c.isActive
  {
  }

  /** The first instance of a new schedule is dated at its start date, once today
      has reached it and unless the end date is before it. */
  lemma NewConfigFirstOccurrence(userId: Id, b: RecurringConfigCreate, now: Instant, today: Date)
    requires b.periodLength >= 1 && Valid(b.startDate) && Valid(today)
    requires Le(b.startDate, today) && (b.endDate.Some? ==> Le(b.startDate, b.endDate.value))
    ensures var r := Run(NewConfig(userId, b, now), true, today);
      |r.dates| >= 1 && r.dates[0] == b.startDate
  {
    var c := NewConfig(userId, b, now);
    assert KnownUnit(c.reoccurrence) by { var _ := UnitName(b.reoccurrence); }
    assert Schedulable(c) && Due(c, today);
    var next := c.(nextOccurrence := CalculateNextOccurrence(c));
    NextStepShrinks(c, today);
    assert Run(c, true, today).dates == [c.nextOccurrence] + Run(next, true, today).dates;
  }

  method CreateRecurringConfig(db: Db, userId: Id, body: RecurringConfigCreate, now: Instant)
    returns (r: Result<Id>)
    requires db.Valid()
    modifies db`recurringConfigs, db`nextId
    ensures db.Valid()
    ensures r.Ok? <==> OwnedLive(old(db.transactions), userId, body.baseTransactionId)
    ensures r.Err? ==>
      r.error == NotFound("Base transaction not found")
      && db.recurringConfigs == old(db.recurringConfigs) && db.nextId == old(db.nextId)
    ensures r.Ok? ==>
      r.value == old(db.nextId) && r.value !in old(db.recurringConfigs)
      && db.recurringConfigs == old(db.recurringConfigs)[r.value := NewConfig(userId, body, now)]
  {
    if !OwnedLive(db.transactions, userId, body.baseTransactionId) {
      return Err(NotFound("Base transaction not found"));
    }
    var id := db.NewId();
    db.recurringConfigs := db.recurringConfigs[id := NewConfig(userId, body, now)];
    r := Ok(id);
  }

  /** The lookup shared by get, update and delete: by id and owner. */
  function FindConfig(cfgs: map<Id, RecurringConfig>, userId: Id, id: Id): (r: Result<RecurringConfig>)
    ensures r.Ok? <==> id in cfgs && cfgs[id].userId == userId
    ensures r.Ok? ==> r.value == cfgs[id]
    ensures r.Err? ==>
      r.error == NotFound("Recurring configuration not found")
  {
    if id in cfgs && cfgs[id].userId == userId then Ok(cfgs[id])
    else Err(NotFound("Recurring configuration not found"))
  }

  /** `update_recurring_config`: the schema's editable fields are assigned to the
      caller's row; nothing else changes. */
  method UpdateRecurringConfig(db: Db, userId: Id, id: Id, u: RecurringConfigUpdate)
    returns (r: Result<RecurringConfig>)
    requires db.Valid() && ValidUpdate(u)
    modifies db`recurringConfigs
    ensures db.Valid()
    ensures FindConfig(old(db.recurringConfigs), userId, id).Err? ==>
      r == Err(NotFound("Recurring configuration not found")) && db.recurringConfigs == old(db.recurringConfigs)
    ensures FindConfig(old(db.recurringConfigs), userId, id).Ok? ==>
      r == ApplyUpdate(old(db.recurringConfigs)[id], u)
      && db.recurringConfigs == (if r.Ok? then old(db.recurringConfigs)[id := r.value] else old(db.recurringConfigs))
  {
    var found := FindConfig(db.recurringConfigs, userId, id);
    if found.Err? {
      return Err(found.error);
    }
    r := ApplyUpdate(found.value, u);
    if r.Ok? {
      db.PutRecurringConfig(id, r.value);
    }
  }

  /** What `ON DELETE SET NULL` on `transactions.recurring_config_id` does when a
      schedule row goes: its instances stay and lose their link. */
  function Detach(txs: map<Id, Transaction>, configId: Id): (r: map<Id, Transaction>)
    ensures r.Keys == txs.Keys
    ensures forall k :: k in r ==>
      r[k].recurringConfigId != Some(configId)
      && r[k].(recurringConfigId := txs[k].recurringConfigId) == txs[k]
      && (txs[k].recurringConfigId != Some(configId) ==> r[k] == txs[k])
  {
    map k | k in txs :: if txs[k].recurringConfigId == Some(configId) then txs[k].(recurringConfigId := None) else txs[k]
  }

  /** `delete_recurring_config`: a hard delete of the caller's row; the transactions
      it created are kept. */
  method DeleteRecurringConfig(db: Db, userId: Id, id: Id) returns (r: Result<()>)
    requires db.Valid()
    modifies db`recurringConfigs, db`transactions
    ensures db.Valid()
    ensures r.Ok? <==> FindConfig(old(db.recurringConfigs), userId, id).Ok?
    ensures r.Err? ==>
      r.error == NotFound("Recurring configuration not found")
      && db.recurringConfigs == old(db.recurringConfigs) && db.transactions == old(db.transactions)
    ensures r.Ok? ==>
      db.recurringConfigs == old(db.recurringConfigs) - {id}
      && db.transactions == Detach(old(db.transactions), id)
  {
    var found := FindConfig(db.recurringConfigs, userId, id);
    if found.Err? {
      return Err(found.error);
    }
    db.recurringConfigs := db.recurringConfigs - {id};
    db.transactions := Detach(db.transactions, id);
    r := Ok(());
  }

  // ---------------------------------------------------------------------------
  // `trigger_recurring_transactions`.

  /** The filter of the trigger's query: the caller's active schedules whose cursor
      has reached today. */
  predicate Selected(c: RecurringConfig, userId: Id, today: Date) {
    c.userId == userId && Due(c, today)
  }

  /** The selected schedules in the order the model gives a query without ORDER BY:
      ascending id. */
  function SelectedIds(cfgs: map<Id, RecurringConfig>, userId: Id, today: Date): (r: seq<Id>)
    ensures forall id :: id in r <==> id in cfgs && Selected(cfgs[id], userId, today)
    ensures forall i, j :: 0 <= i < j < |r| ==> r[i] < r[j]
  {
    SortedIds(set id | id in cfgs && Selected(cfgs[id], userId, today))
  }

  /** Where one run leaves schedule `c` when the table of transactions is `txs`. */
  function AfterRun(c: RecurringConfig, txs: map<Id, Transaction>, today: Date): RecurringConfig
    requires Schedulable(c) && Valid(today)
  {
    Run(c, FindBase(txs, c.baseTransactionId).Some?, today).config
  }

  /** After a run no schedule is due: it is inactive or its cursor is past today. */
  lemma AfterRunNotDue(c: RecurringConfig, txs: map<Id, Transaction>, today: Date)
    requires Schedulable(c) && Valid(today)
    ensures !Due(AfterRun(c, txs, today), today)
  {
    RunIdempotent(c, FindBase(txs, c.baseTransactionId).Some?, today);
  }

  lemma RunWithoutBase(c: RecurringConfig, today: Date)
    requires Schedulable(c) && Valid(today)
    ensures Run(c, false, today).dates == []
  {
  }

  /** Every row a run adds is a recurring instance of the schedule, owned by the
      schedule's user, under an id from `first` on. */
  lemma {:induction false} InstancesShape(base: Transaction, userId: Id, configId: Id, first: Id, dates: seq<Date>, now: Instant)
    ensures forall k :: k in Instances(base, userId, configId, first, dates, now) ==>
      first <= k < first + |dates|
      && Instances(base, userId, configId, first, dates, now)[k].kind == RecurringInstance
      && Instances(base, userId, configId, first, dates, now)[k].userId == userId
      && Instances(base, userId, configId, first, dates, now)[k].recurringConfigId == Some(configId)
    decreases |dates|
  {
    if dates != [] {
      InstancesShape(base, userId, configId, first, dates[..|dates| - 1], now);
    }
  }

  /** `txs` is `txs0` with rows added under the ids `[lo, hi)`, each a recurring
      instance owned by `userId`; no row of `txs0` has changed. */
  predicate AddedInstances(txs0: map<Id, Transaction>, txs: map<Id, Transaction>, lo: Id, hi: Id, userId: Id) {
    (forall k :: k in txs0 ==> k in txs && txs[k] == txs0[k])
    && (forall k :: k in txs && k !in txs0 ==>
      lo <= k < hi && txs[k].kind == RecurringInstance && txs[k].userId == userId)
    && (forall k :: lo <= k < hi ==> k in txs)
  }

  lemma AddedInstancesAppend(txs0: map<Id, Transaction>, txs: map<Id, Transaction>, more: map<Id, Transaction>,
                             lo: Id, mid: Id, hi: Id, userId: Id)
    requires KeysBelow(txs0.Keys, lo) && lo <= mid <= hi
    requires AddedInstances(txs0, txs, lo, mid, userId) && AddedInstances(map[], more, mid, hi, userId)
    ensures AddedInstances(txs0, txs + more, lo, hi, userId)
  {
    var all := txs + more;
    forall k | k in txs0 ensures k in all && all[k] == txs0[k] {
      assert k < lo && k !in more;
    }
    forall k | k in all && k !in txs0
      ensures lo <= k < hi && all[k].kind == RecurringInstance && all[k].userId == userId
    {
      if k in more {
        assert all[k] == more[k];
        assert mid <= k < hi && more[k].kind == RecurringInstance && more[k].userId == userId;
      } else {
        assert k in txs && all[k] == txs[k];
      }
    }
    forall k | lo <= k < hi ensures k in all {
      if k >= mid { assert k in more; } else { assert k in txs; }
    }
  }

  /** The schedules `ids[..j]` have been run from `cfgs0` and no other has changed. */
  predicate RanUpTo(cfgs0: map<Id, RecurringConfig>, txs0: map<Id, Transaction>, cfgs: map<Id, RecurringConfig>,
                    ids: seq<Id>, j: nat, today: Date)
    requires j <= |ids| && Valid(today) && forall i :: 0 <= i < |ids| ==> ids[i] in cfgs0 && Schedulable(cfgs0[ids[i]])
  {
    cfgs.Keys == cfgs0.Keys
    && forall id :: id in cfgs0 ==>
      cfgs[id] == if id in ids[..j] then AfterRun(cfgs0[id], txs0, today) else cfgs0[id]
  }

  lemma RanUpToNext(cfgs0: map<Id, RecurringConfig>, txs0: map<Id, Transaction>, cfgs: map<Id, RecurringConfig>,
                    ids: seq<Id>, j: nat, today: Date)
    requires j < |ids| && Valid(today) && forall i :: 0 <= i < |ids| ==> ids[i] in cfgs0 && Schedulable(cfgs0[ids[i]])
    requires forall a, b :: 0 <= a < b < |ids| ==> ids[a] < ids[b]
    requires RanUpTo(cfgs0, txs0, cfgs, ids, j, today)
    ensures ids[j] in cfgs && cfgs[ids[j]] == cfgs0[ids[j]]
    ensures RanUpTo(cfgs0, txs0, cfgs[ids[j] := AfterRun(cfgs0[ids[j]], txs0, today)], ids, j + 1, today)
  {
    assert ids[j] !in ids[..j] by {
      forall a | 0 <= a < j ensures ids[a] != ids[j] { }
    }
    assert forall id :: id in ids[..j + 1] <==> id in ids[..j] || id == ids[j] by {
      assert ids[..j + 1] == ids[..j] + [ids[j]];
    }
  }

  /** `trigger_recurring_transactions`: every selected schedule is run in turn; the
      reply counts the schedules and lists the ids created, schedule by schedule.
      The base transaction of every schedule exists (the foreign key on
      `base_transaction_id`), and every selected schedule is materialisable. */
  method TriggerRecurringTransactions(db: Db, userId: Id, today: Date, now: Instant)
    returns (processed: nat, created: seq<Id>)
    requires db.Valid() && Valid(today)
    requires forall id :: id in db.recurringConfigs ==> db.recurringConfigs[id].baseTransactionId in db.transactions
    requires forall id :: id in db.recurringConfigs && Selected(db.recurringConfigs[id], userId, today) ==>
      Schedulable(db.recurringConfigs[id])
    modifies db`transactions, db`recurringConfigs, db`nextId
    ensures db.Valid()
    ensures processed == |SelectedIds(old(db.recurringConfigs), userId, today)|
    ensures db.recurringConfigs.Keys == old(db.recurringConfigs).Keys
    ensures forall id :: id in old(db.recurringConfigs) ==>
      db.recurringConfigs[id]
        == if Selected(old(db.recurringConfigs)[id], userId, today)
           then AfterRun(old(db.recurringConfigs)[id], old(db.transactions), today)
           else old(db.recurringConfigs)[id]
    ensures forall id :: id in db.recurringConfigs && db.recurringConfigs[id].userId == userId ==>
      !Due(db.recurringConfigs[id], today)
    ensures old(db.nextId) + |created| == db.nextId
    ensures forall i :: 0 <= i < |created| ==> created[i] == old(db.nextId) + i && created[i] in db.transactions
    ensures forall k :: k in old(db.transactions) ==> k in db.transactions && db.transactions[k] == old(db.transactions)[k]
    ensures forall k :: k in db.transactions && k !in old(db.transactions) ==>
      old(db.nextId) <= k < db.nextId
      && db.transactions[k].kind == RecurringInstance && db.transactions[k].userId == userId
  {
    ghost var cfgs0 := db.recurringConfigs;
    ghost var txs0 := db.transactions;
    var ids := SelectedIds(db.recurringConfigs, userId, today);
    created := RunSelected(db, cfgs0, txs0, ids, userId, today, now);
    TriggerDone(cfgs0, txs0, db.recurringConfigs, userId, today);
    processed := |ids|;
  }

  /** The trigger's loop over the selected schedules, in order. */
  method RunSelected(db: Db, ghost cfgs0: map<Id, RecurringConfig>, ghost txs0: map<Id, Transaction>,
                     ids: seq<Id>, userId: Id, today: Date, now: Instant)
    returns (created: seq<Id>)
    requires db.Valid() && Valid(today)
    requires db.recurringConfigs == cfgs0 && db.transactions == txs0
    requires forall i :: 0 <= i < |ids| ==>
      ids[i] in cfgs0 && Schedulable(cfgs0[ids[i]]) && cfgs0[ids[i]].userId == userId
      && cfgs0[ids[i]].baseTransactionId in txs0
    requires forall a, b :: 0 <= a < b < |ids| ==> ids[a] < ids[b]
    modifies db`transactions, db`recurringConfigs, db`nextId
    ensures db.Valid()
    ensures RanUpTo(cfgs0, txs0, db.recurringConfigs, ids, |ids|, today)
    ensures db.nextId == old(db.nextId) + |created|
    ensures forall i :: 0 <= i < |created| ==> created[i] == old(db.nextId) + i
    ensures AddedInstances(txs0, db.transactions, old(db.nextId), db.nextId, userId)
  {
    ghost var first0 := db.nextId;
    created := [];
    var j := 0;
    while j < |ids|
      invariant 0 <= j <= |ids|
      invariant db.Valid()
      invariant RanUpTo(cfgs0, txs0, db.recurringConfigs, ids, j, today)
      invariant db.nextId == first0 + |created|
      invariant forall i :: 0 <= i < |created| ==> created[i] == first0 + i
      invariant AddedInstances(txs0, db.transactions, first0, db.nextId, userId)
    {
      var more := TriggerOne(db, cfgs0, txs0, first0, ids, j, userId, today, now);
      ConsecutiveAppend(created, more, first0);
      created := created + more;
      j := j + 1;
    }
  }

  lemma ConsecutiveAppend(a: seq<Id>, b: seq<Id>, first: Id)
    requires forall i :: 0 <= i < |a| ==> a[i] == first + i
    requires forall i :: 0 <= i < |b| ==> b[i] == first + |a| + i
    ensures forall i :: 0 <= i < |a + b| ==> (a + b)[i] == first + i
  {
    forall i | 0 <= i < |a + b| ensures (a + b)[i] == first + i {
      if i >= |a| { assert (a + b)[i] == b[i - |a|]; }
    }
  }

  /** Once every selected schedule has run, the selected ones are where their runs
      left them, the rest are as they were, and none of the caller's is due. */
  lemma TriggerDone(cfgs0: map<Id, RecurringConfig>, txs0: map<Id, Transaction>, cfgs: map<Id, RecurringConfig>,
                    userId: Id, today: Date)
    requires Valid(today)
    requires forall id :: id in cfgs0 && Selected(cfgs0[id], userId, today) ==> Schedulable(cfgs0[id])
    requires var ids := SelectedIds(cfgs0, userId, today); RanUpTo(cfgs0, txs0, cfgs, ids, |ids|, today)
    ensures cfgs.Keys == cfgs0.Keys
    ensures forall id :: id in cfgs0 ==>
      cfgs[id] == if Selected(cfgs0[id], userId, today) then AfterRun(cfgs0[id], txs0, today) else cfgs0[id]
    ensures forall id :: id in cfgs && cfgs[id].userId == userId ==> !Due(cfgs[id], today)
  {
    var ids := SelectedIds(cfgs0, userId, today);
    assert ids[..|ids|] == ids;
    forall id | id in cfgs && cfgs[id].userId == userId
      ensures !Due(cfgs[id], today)
    {
      if Selected(cfgs0[id], userId, today) {
        AfterRunNotDue(cfgs0[id], txs0, today);
      }
    }
  }

  /** One turn of the trigger's loop: the run of schedule `ids[j]`. */
  method TriggerOne(db: Db, ghost cfgs0: map<Id, RecurringConfig>, ghost txs0: map<Id, Transaction>, ghost first0: Id,
                    ids: seq<Id>, j: nat, userId: Id, today: Date, now: Instant)
    returns (more: seq<Id>)
    requires db.Valid() && Valid(today) && j < |ids|
    requires forall i :: 0 <= i < |ids| ==>
      ids[i] in cfgs0 && Schedulable(cfgs0[ids[i]]) && cfgs0[ids[i]].userId == userId
      && cfgs0[ids[i]].baseTransactionId in txs0
    requires forall a, b :: 0 <= a < b < |ids| ==> ids[a] < ids[b]
    requires RanUpTo(cfgs0, txs0, db.recurringConfigs, ids, j, today)
    requires KeysBelow(txs0.Keys, first0) && first0 <= db.nextId
    requires AddedInstances(txs0, db.transactions, first0, db.nextId, userId)
    modifies db`transactions, db`recurringConfigs, db`nextId
    ensures db.Valid()
    ensures RanUpTo(cfgs0, txs0, db.recurringConfigs, ids, j + 1, today)
    ensures db.nextId == old(db.nextId) + |more|
    ensures forall i :: 0 <= i < |more| ==> more[i] == old(db.nextId) + i
    ensures AddedInstances(txs0, db.transactions, first0, db.nextId, userId)
  {
    RanUpToNext(cfgs0, txs0, db.recurringConfigs, ids, j, today);
    var id := ids[j];
    var c := db.recurringConfigs[id];
    ghost var txs := db.transactions;
    ghost var next := db.nextId;
    ghost var base := FindBase(txs0, c.baseTransactionId);
    assert FindBase(txs, c.baseTransactionId) == base;
    ghost var dates := Run(c, base.Some?, today).dates;
    ghost var added := if base.Some? then Instances(base.value, userId, id, next, dates, now) else map[];
    assert AddedInstances(map[], added, next, next + |dates|, userId) by {
      if base.Some? {
        InstancesShape(base.value, userId, id, next, dates, now);
        InstancesKeys(base.value, userId, id, next, dates, now);
      } else {
        RunWithoutBase(c, today);
      }
    }
    more := ProcessSingleRecurring(db, id, today, now);
    AddedInstancesAppend(txs0, txs, added, first0, next, next + |dates|, userId);
  }

}
