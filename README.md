# The Accountant API — a verified model of its core

The Accountant is a personal-finance backend. Users keep wallets, categories,
payment methods and transactions, schedule recurring transactions, set budgets
and savings objectives, convert between currencies, and get categories
suggested from transaction titles. Clients work offline and push and pull their
changes through a sync endpoint. Users sign up with an email and a password, or
through Firebase or Google sign-in, and can unlock a subscription through
in-app purchases.

This project models that core in Dafny and proves what its endpoints promise.

- **The database.** One class, `Store.Db`, holds one map per table, keyed by
  row id. `uuid4()` is the class's id counter (`Db.NewId`). An endpoint that
  changes rows is a method that `modifies` the tables it writes. Its
  postcondition ties the new tables to a pure function of the old ones. What
  the endpoint promises is proved as lemmas about that function: ownership
  checks, soft deletes, one default per user, cascades, and the wallet ledger
  invariant.
- **Loops.** The source's loops are `while` loops with invariants. These are
  the materialiser of recurring transactions, the sync push, the bulk create
  of transactions, the bulk refresh of exchange rates, the purchase restore and
  the category-suggestion scan.
- **Pure code.** The date rule of recurring schedules, the schemas'
  validation, the settings, the time helpers, and the token and user-info
  helpers are functions with lemmas.
- **Update bodies.** A field of an update request is absent, an explicit
  `null`, or a value (`Fields.Field`), because `model_dump(exclude_unset=True)`
  keeps an explicit null. A null clears a nullable column. On a NOT NULL column
  it fails the commit, or raises earlier, and the request is a 500 with nothing
  changed.
- **Value types.** Money is a whole number of cents, as `Numeric(15, 2)`
  stores it. Exchange rates are reals. Dates are proleptic Gregorian dates.
  Instants are microseconds since the epoch. A UUID is a number below 2^128,
  with its canonical text.
- **Inputs.** The clock (`today`, `now`), password hashing and checking, JWT
  encoding, the Firebase Admin SDK and the app-store verification calls are
  all inputs. The model takes their outcomes, not their workings.

## Model

| member | source | states |
|---|---|---|
| RecurringConfigModel.CalculateNextOccurrence | app/models/recurring_config.py:61-74 | the next cursor is the current one plus the period in days, weeks, months (day clamped to the month's end) or years (Feb 29 clamped); an unknown unit returns the cursor unchanged |
| RecurringConfigModel.NextOccurrenceAdvances | app/models/recurring_config.py:61-74 | with a period of at least one and a known unit the cursor moves strictly later; with a zero period or an unknown unit it stays put |
| RecurringConfigModel.ClampExamples | app/models/recurring_config.py:69-72 | a month step from Jan 31 lands on the last day of February by the leap-year rule, and a year step from Feb 29 lands on Feb 28 |
| RecurringConfigModel.ClampPersists | app/models/recurring_config.py:63-70 | because the step starts from the cursor, a clamped day persists: Jan 31, Feb 28, Mar 28 |
| RecurringConfigModel.PendingWithinEnd | app/models/recurring_config.py:76-90 | a schedule with pending occurrences is active and its cursor is on or before today and its end date |
| Calendar.AddDaysOrdinal | app/models/recurring_config.py:65-68 | adding n days moves the date's ordinal day number by exactly n, as `timedelta(days=n)` does |
| Calendar.AddMonths | app/models/recurring_config.py:69-70 | `relativedelta(months=n)`: the result is a valid date n calendar months on, its day clamped to the month's length |
| Calendar.AddYears | app/models/recurring_config.py:71-72 | `relativedelta(years=n)`: a valid date n years on, Feb 29 becoming Feb 28 in a common year |
| Calendar.AddMonthsKeepsDay | app/models/recurring_config.py:69-70 | a day that exists in the target month is kept |
| Calendar.AddMonthsLater | app/models/recurring_config.py:69-70 | a positive month step gives a strictly later date |
| Calendar.AddYearsLater | app/models/recurring_config.py:71-72 | a positive year step gives a strictly later date |
| RecurringSchemas.UnitName | app/schemas/recurring.py:9-14 | each unit's name is its lower-case string value |
| RecurringSchemas.ParseUnit | app/schemas/recurring.py:9-14 | a string is accepted as a unit exactly when it is one of the four names, and then it reads as that unit |
| RecurringSchemas.UnitRoundTrip | app/schemas/recurring.py:9-14 | the four names are distinct, and each name reads back to its own unit |
| RecurringSchemas.ValidateCreate | app/schemas/recurring.py:17-28 | validation succeeds exactly when the period is absent or at least 1 and the unit is absent or one of the four; the defaults are 1 and monthly; the dates are carried over |
| RecurringSchemas.ApplyUpdate | app/api/v1/recurring.py:163-168 | the sent fields are assigned and the rest kept; an explicit null on a NOT NULL column fails the commit |
| RecurringSchemas.UpdateKeepsSchedulable | app/schemas/recurring.py:31-36 | an update accepted by the schema keeps a schedule materialisable: the period stays at least 1 and the unit one of the four |
| RecurringSchemas.SerializeDate | app/schemas/recurring.py:52-54 | a date becomes its ISO text and null stays null |
| RecurringSchemas.SerializeDateRoundTrip | app/schemas/recurring.py:52-54 | the serialised field reads back to the same date, and null to null |
| DateTimes.DateIsoRoundTrip | app/schemas/recurring.py:52-54 | `date.isoformat()` text parses back to the same date |
| RecurringApi.Run | app/api/v1/recurring.py:24-67 | one run of the materialiser: the dates it creates and the configuration it leaves; the run terminates for a period of at least one and a known unit |
| RecurringApi.RunStops | app/api/v1/recurring.py:29-43 | when the run ends, the schedule is inactive or its cursor is past today |
| RecurringApi.RunDatesBounded | app/api/v1/recurring.py:29-33 | every date created is a valid date, no later than today and, if there is an end date, no later than it |
| RecurringApi.RunEnds | app/api/v1/recurring.py:56-65 | the first date is the starting cursor and the final cursor is the rule applied to the last date; with no dates the cursor has not moved |
| RecurringApi.RunSteps | app/api/v1/recurring.py:56-65 | each date is the rule applied to the previous one, so the dates strictly increase |
| RecurringApi.RunIdempotent | app/api/v1/recurring.py:29 | a second run on the same day creates nothing and changes nothing |
| RecurringApi.RunClearsPending | app/models/recurring_config.py:84-90 | after a run the schedule has no pending occurrences |
| RecurringApi.PendingCreates | app/api/v1/recurring.py:29-62 | a pending schedule whose base transaction exists creates at least one transaction, dated at its cursor |
| RecurringApi.EndDateBoundary | app/api/v1/recurring.py:31-43 | a cursor equal to the end date still yields its occurrence; a cursor past the end date, or a missing base transaction, deactivates the schedule with nothing created |
| RecurringApi.MonthlyExample | app/api/v1/recurring.py:24-67 | a monthly schedule from 2024-01-01, run on 2024-03-15, creates Jan 1, Feb 1 and Mar 1 and leaves the cursor at Apr 1 |
| RecurringApi.ProcessSingleRecurring | app/api/v1/recurring.py:24-67 | the transactions table grows by exactly one recurring instance per date of `Run`, under fresh consecutive ids, copying the base's wallet, category, payment method, amount, title, notes and direction; the configuration becomes `Run`'s final one |
| RecurringApi.GenerateInstances | app/api/v1/recurring.py:29-65 | the loop, with the invariant that the dates so far and the configuration are a prefix of `Run` |
| RecurringApi.AddInstance | app/api/v1/recurring.py:47-62 | the store grows by the instance for one date, under the next id, and nothing else changes |
| Store.Db.NewId | app/api/v1/recurring.py:46-48 | `uuid4()` as the store's id counter: the id handed out is the counter, which then goes up by one, so ids are never reused |
| RecurringApi.InstancesKeys | app/api/v1/recurring.py:47-62 | a run's rows take exactly the ids from the first fresh one on, one per date, in date order |
| RecurringApi.InstancesShape | app/api/v1/recurring.py:47-60 | every row a run adds is a recurring instance of the schedule, owned by the schedule's user |
| RecurringApi.NewConfigSchedulable | app/api/v1/recurring.py:92-120 | a schedule created through the schema has a period of at least 1, a known unit, and its cursor at its start date |
| RecurringApi.NewConfigFirstOccurrence | app/api/v1/recurring.py:92-120 | the first instance of a new schedule is dated at its start date, once today reaches it, unless the end date is before it |
| RecurringApi.CreateRecurringConfig | app/api/v1/recurring.py:92-120 | a base transaction that is not the caller's live one is "not found" and nothing changes; otherwise the new schedule is stored under a fresh id |
| RecurringApi.FindConfig | app/api/v1/recurring.py:123-141 | a schedule is found exactly when it exists and is the caller's; otherwise "not found" |
| RecurringApi.UpdateRecurringConfig | app/api/v1/recurring.py:144-170 | only the caller's row changes, and only in its editable fields; others' rows are "not found" |
| RecurringApi.Detach | app/models/transaction.py:50 | the schedule's instances stay, with their link to it cleared; every other transaction is untouched |
| RecurringApi.DeleteRecurringConfig | app/api/v1/recurring.py:173-192 | a hard delete of the caller's schedule; the transactions it created are kept and detached |
| RecurringApi.SelectedIds | app/api/v1/recurring.py:204-209 | the trigger selects exactly the caller's active schedules whose cursor is on or before today, in ascending id order, each once |
| RecurringApi.AfterRunNotDue | app/api/v1/recurring.py:29-43 | after a run a schedule is not due |
| RecurringApi.RunWithoutBase | app/api/v1/recurring.py:36-43 | a due schedule whose base transaction is missing or deleted is deactivated and creates nothing |
| RecurringApi.TriggerRecurringTransactions | app/api/v1/recurring.py:195-221 | every selected schedule is run in turn; the ids created are fresh and consecutive; every new row is a recurring instance of the caller's; schedules that were not selected are unchanged, and afterwards none of the caller's schedules is due |
| RecurringApi.RunSelected | app/api/v1/recurring.py:211-214 | the loop over the selected schedules, with the invariant that the first j have been run and no other has changed |
| RecurringApi.TriggerOne | app/api/v1/recurring.py:212-214 | one turn of the loop: schedule j is run and the invariant extends to j + 1 |
| RecurringApi.TriggerDone | app/api/v1/recurring.py:195-221 | once all selected schedules have run, none of the caller's is due and the unselected ones are as they were |
| Sync.TableModel | app/api/v1/sync.py:32-41 | exactly the eight table names have a model, each with its columns in declaration order |
| Sync.HardDeleteTables | app/api/v1/sync.py:184-188 | recurring configurations and associated titles have no `deleted_at` and are removed outright; the other six tables are soft-deleted |
| Sync.CreateRow | app/api/v1/sync.py:131-141 | the row a create builds has no `sync_status` or `local_id`, is owned by the caller, and keeps the client's other fields; any key that is not a column makes the constructor fail |
| Sync.FoldAppend | app/api/v1/sync.py:129-194 | pushing a batch in two parts is the same as pushing it whole |
| Sync.UpdateMissingConflicts | app/api/v1/sync.py:146-162 | an update of a row the caller does not own, or that is gone, is exactly one `delete_conflict` with empty server data, and nothing else happens |
| Sync.UpdateOwnedOverwrites | app/api/v1/sync.py:164-175 | an update of an owned row whose data names no read-only property sets exactly the given columns, never `id`, `user_id` or `sync_status`, keeps every other column, and is accepted |
| Sync.UpdateReadOnlyRejected | app/api/v1/sync.py:164-175 | an update whose data names a read-only property such as `is_deleted` is neither accepted nor a conflict, yet the columns listed before that key are set and committed, and every other column is kept |
| Sync.SetAttributes | app/api/v1/sync.py:171-173 | the `setattr` loop over the data's keys in order computes `SetAttrs`: columns set, unknown keys skipped, the first read-only property raising |
| Sync.RaisedStays | app/api/v1/sync.py:171-173 | once `setattr` has raised, the keys after it change nothing |
| Sync.SetAttrsClean | app/api/v1/sync.py:166-173 | with no read-only property among the keys, the loop does not raise, sets exactly the given columns and keeps the rest |
| Sync.FirstRefusedRaises | app/api/v1/sync.py:171-173 | the first read-only property raises, after the columns before it are set |
| Sync.DeleteRule | app/api/v1/sync.py:177-189 | a delete of an owned row stamps `deleted_at` where the table has it and removes the row otherwise; a delete of anything else is neither accepted nor reported as a conflict |
| Sync.CreateRule | app/api/v1/sync.py:131-144 | a create always uses one fresh id; when accepted, the row is stored under it, owned by the caller, and the client id maps to it |
| Sync.RepeatedClientId | app/api/v1/sync.py:131-144 | two creates under one client id add two rows, and the id mapping keeps only the second |
| Sync.FoldKeepsOthers | app/api/v1/sync.py:129-194 | rows the caller does not own are never touched, and every row id stays below the id counter |
| Sync.FoldCounts | app/api/v1/sync.py:129-194 | each change is accepted, or reported as a conflict, at most once |
| Sync.Stringify | app/api/v1/sync.py:242-247 | dates and datetimes become their ISO text; ids are kept as ids, which stand for their canonical text; other values are unchanged |
| DateTimes.IsoformatShape | app/api/v1/sync.py:243-244 | a naive datetime's `isoformat()` is 19 characters, or 26 with microseconds, starting with the date's ISO text, then `T` and the time with its colons |
| Sync.RecordDictColumns | app/api/v1/sync.py:239-248 | each record comes back as every column of its model, in order: the row's id, its values with dates as ISO text, and `None` for a column the row lacks |
| Sync.StatusOf | app/api/v1/sync.py:84-100 | a table's status is its log's version (0 with no log), the number of the caller's rows including soft-deleted ones, and the last sync time, if any |
| Sync.SyncStore.GetOrCreateSyncLog | app/api/v1/sync.py:56-73 | the existing log is returned unchanged; without one, a log at version 0 is stored and returned |
| Sync.SyncStore.PushChanges | app/api/v1/sync.py:105-207 | an unknown table is a 400 with nothing changed; otherwise the rows become the fold of the changes, the log's version goes up by exactly one, and the response carries that fold's accepted ids, conflicts and id mapping |
| Sync.SyncStore.PushKnown | app/api/v1/sync.py:122-207 | the same, once the table is known |
| Sync.SyncStore.ApplyAll | app/api/v1/sync.py:129-194 | the loop, with the invariant that the state is the fold of the changes so far |
| Sync.SyncStore.ApplyChange | app/api/v1/sync.py:130-194 | one change moves the state by exactly one fold step |
| Sync.SyncStore.PullChanges | app/api/v1/sync.py:210-254 | an unknown table is a 400; otherwise every row of the caller, soft-deleted ones included, comes back as its column dict, with the log's version and no further pages |
| Sync.RecordDicts | app/api/v1/sync.py:238-248 | the loop builds one dict per record, in order |
| Sync.SyncStore.GetSyncStatus | app/api/v1/sync.py:76-102 | the status has exactly the eight tables, each with its `StatusOf` entry |
| Sync.PushRaisesStatusVersion | app/api/v1/sync.py:196-203 | a push raises the version the status reports by exactly one, even for an empty batch |
| TransactionsApi.Delta | app/api/v1/transactions.py:26-41 | income adds the amount and an expense subtracts it; reversing negates that |
| TransactionsApi.Adjusted | app/api/v1/transactions.py:26-41 | only the named wallet's balance moves, by the signed amount; a wallet id with no row changes nothing |
| TransactionsApi.ApplyThenReverse | app/api/v1/transactions.py:26-41 | applying then reversing the same (wallet, amount, direction) restores every balance |
| TransactionsApi.AdjustedMovesOne | app/api/v1/transactions.py:26-41 | the named wallet moves by the signed amount and every other wallet stays |
| TransactionsApi.UpdateWalletBalance | app/api/v1/transactions.py:26-41 | the wallet table becomes `Adjusted` of the old one |
| TransactionsApi.PutKeepsDrift | app/api/v1/transactions.py:26-41 | storing a row while moving balances by what the old row took out and the new one puts in keeps every wallet's balance minus its live transactions |
| TransactionsApi.DumpRejected | app/schemas/transaction.py:27-67 | the create schema's dump always carries four keys the row model has no column for |
| TransactionsApi.CreateTransactionAsWritten | app/api/v1/transactions.py:99-130 | as written: a wallet that is not the caller's live one is "not found"; any other request fails when the row is built, and nothing is saved |
| TransactionsApi.CreateTransaction | app/api/v1/transactions.py:99-130 | corrected: a foreign or deleted wallet is "not found" with nothing changed; otherwise the row is stored under a fresh id and its wallet moves by its signed amount |
| TransactionsApi.CreateKeepsDrift | app/api/v1/transactions.py:119-126 | a create keeps every wallet's balance minus its live transactions |
| TransactionsApi.BulkCreateAsWritten | app/api/v1/transactions.py:133-169 | as written: the first item with a passing wallet makes the whole request fail; only a batch in which every wallet is rejected succeeds, with nothing created |
| TransactionsApi.Kept | app/api/v1/transactions.py:142-151 | the items kept are the items, in order, whose wallet is the caller's live one |
| TransactionsApi.KeptSpec | app/api/v1/transactions.py:142-151 | an item is kept exactly when its wallet passes the check |
| TransactionsApi.BulkKeepsOwners | app/api/v1/transactions.py:142-161 | balances move, but which wallets the caller owns and has live does not change during the loop |
| TransactionsApi.BulkCreates | app/api/v1/transactions.py:133-169 | exactly the kept items are stored, in order, under consecutive fresh ids, and every earlier row stays |
| TransactionsApi.BulkKeepsDrift | app/api/v1/transactions.py:133-169 | a bulk create keeps every wallet's balance minus its live transactions |
| TransactionsApi.AdjustedKeepsOwners | app/api/v1/transactions.py:26-41 | a balance change keeps which wallets the caller owns and has live |
| TransactionsApi.BulkCreateTransactions | app/api/v1/transactions.py:133-169 | corrected: the tables and the ids returned are those of the bulk fold over the items |
| TransactionsApi.AddOne | app/api/v1/transactions.py:153-161 | one kept item is stored under the next id and its wallet's balance moves |
| TransactionsApi.GetTransaction | app/api/v1/transactions.py:172-191 | a transaction is found exactly when it is the caller's and live; otherwise "not found" |
| TransactionsApi.Updated | app/api/v1/transactions.py:220-222 | every field sent is assigned and every field not sent is kept; a null on the wallet, amount, title, date or direction gives no row at all, and a null category, payment method, notes or receipt URL clears it |
| TransactionsApi.NullsClearLinks | app/api/v1/transactions.py:214-229 | a body of nulls for category, payment method, notes and receipt URL clears exactly those four, and every balance ends where it was |
| TransactionsApi.UpdateTransaction | app/api/v1/transactions.py:194-233 | "not found" unless the caller's live row; a null on a NOT NULL field is a 500, and a new wallet id with no row fails, both with nothing changed; otherwise the old effect is reversed on the old wallet, the new one applied on the new wallet, and the row becomes `Updated`'s, nulls included |
| TransactionsApi.UpdateKeepsDrift | app/api/v1/transactions.py:214-229 | an update keeps every wallet's balance minus its live transactions |
| TransactionsApi.UnchangedTripleNetsZero | app/api/v1/transactions.py:214-229 | an update that keeps wallet, amount and direction leaves every balance as it was |
| TransactionsApi.DeleteTransaction | app/api/v1/transactions.py:236-260 | "not found" unless the caller's live row; otherwise its effect is reversed and it is soft-deleted |
| TransactionsApi.DeleteKeepsDrift | app/api/v1/transactions.py:255-259 | a delete keeps every wallet's balance minus its live transactions |
| TransactionsApi.Listed | app/api/v1/transactions.py:44-96 | the list holds exactly the caller's live rows that pass every given filter |
| TransactionsApi.ListUnfiltered | app/api/v1/transactions.py:44-96 | with no filter the list is every live row of the caller |
| TransactionsApi.ZeroBoundsIgnored | app/api/v1/transactions.py:82-85 | a zero amount bound is falsy and ignored, as if not given |
| TransactionsApi.FiltersNarrow | app/api/v1/transactions.py:62-91 | adding a filter only narrows the list |
| TransactionsApi.SearchIgnoresCase | app/api/v1/transactions.py:86-91 | the title search is case-insensitive |
| ExchangeRatesApi.FindPair | app/api/v1/exchange_rates.py:54-58 | a row is found exactly when the caller has one with that pair, and it has that pair |
| Text.Upper | app/api/v1/exchange_rates.py:56-57 | `str.upper()` on ASCII text: same length, each letter mapped to its upper case and every other character kept |
| ExchangeRatesApi.FindPairUnique | app/models/exchange_rate.py:41-44 | under the unique constraint on (user, from, to), the row found is the only one with that key |
| ExchangeRatesApi.UpsertSpec | app/api/v1/exchange_rates.py:46-86 | after an upsert the upper-cased pair has exactly one row, the one returned; the table gains at most that row and the rest is untouched; on an existing row each rate and the fetch time is kept when not sent, cleared by a null and set otherwise, and the version goes up by one; a client id already in use fails |
| ExchangeRatesApi.UpsertTwiceNoDuplicate | app/api/v1/exchange_rates.py:46-86 | sending the same pair twice, in any letter case, adds no second row |
| ExchangeRatesApi.UpsertNullCustomOffersNothing | app/api/v1/exchange_rates.py:60-70 | re-sending a stored pair with a null custom rate and the custom flag on clears the custom rate, and the pair then offers no rate |
| ExchangeRatesApi.CreateOrUpdateExchangeRate | app/api/v1/exchange_rates.py:46-86 | the table and the returned id are those of `Upsert`, nulls included, and the unique constraint is kept |
| ExchangeRatesApi.UpdateRateSpec | app/api/v1/exchange_rates.py:133-161 | an update by id finds only the caller's row; a null `use_custom_rate` is a 500 (NOT NULL); otherwise each rate and the fetch time is kept when not sent, cleared by a null and set otherwise, the version goes up by one, the pair and so the constraint are kept, and no other row changes |
| ExchangeRatesApi.UpdateExchangeRate | app/api/v1/exchange_rates.py:133-161 | the table becomes `UpdateRate`'s, nulls included, and the updated row is returned; an error changes nothing |
| ExchangeRatesApi.ClearCustomSpec | app/api/v1/exchange_rates.py:326-345 | the upper-cased pair's custom rate is dropped, the API rate is back in use and the version goes up by one; a missing pair changes nothing |
| ExchangeRatesApi.ClearCustomRate | app/api/v1/exchange_rates.py:326-345 | the table becomes `ClearCustom`'s |
| ExchangeRatesApi.Effective | app/api/v1/exchange_rates.py:266-268 | a row offers its custom rate when it says so and its API rate otherwise; a missing or zero rate offers nothing |
| ExchangeRatesApi.UsdRate | app/api/v1/exchange_rates.py:278-306 | USD is 1; any other code's rate is its USD-based row's usable rate |
| ExchangeRatesApi.ConvertSameCurrency | app/api/v1/exchange_rates.py:245-257 | codes equal up to case convert at rate 1, unchanged, not as a custom rate |
| ExchangeRatesApi.ConvertCases | app/api/v1/exchange_rates.py:238-323 | the direct pair's usable rate wins; else the USD cross rate is used; else the conversion is an error |
| ExchangeRatesApi.ConvertViaUsdRoundTrip | app/api/v1/exchange_rates.py:278-318 | over exact reals, converting through USD there and back returns the amount (the source's 28-digit `Decimal` rounding is not modelled) |
| ExchangeRatesApi.ClearThenConvert | app/api/v1/exchange_rates.py:326-345 | once a custom rate is cleared, the pair converts at its API rate again |
| ExchangeRatesApi.RefreshSpec | app/api/v1/exchange_rates.py:186-235 | every non-USD entry counts once, as an update or a creation; the constraint holds throughout; every such code ends with a USD-based row |
| ExchangeRatesApi.RefreshStepSpec | app/api/v1/exchange_rates.py:199-226 | one entry keeps the constraint and every existing pair, and leaves its code with a USD-based row |
| ExchangeRatesApi.RefreshStepRow | app/api/v1/exchange_rates.py:199-226 | that row carries the entry's rate and fetch time: the old row with its version bumped, or a new row at version 1 without a custom rate |
| ExchangeRatesApi.BulkUpdateApiRates | app/api/v1/exchange_rates.py:186-235 | the table and the counters are those of the refresh fold, and the total is their sum |
| AssociatedTitlesApi.MatchesNormalized | app/models/associated_title.py:34-42 | matching ignores case and surrounding whitespace on both titles |
| AssociatedTitlesApi.MatchesOwnTitle | app/models/associated_title.py:34-42 | every entry matches its own title, and an exact match is also a containing match |
| Text.NormalizeIdempotent | app/models/associated_title.py:36-37 | lower-casing and stripping a normalised title changes nothing |
| Text.Lower | app/models/associated_title.py:36-37 | `str.lower()` on ASCII text: same length, each letter mapped to its lower case and every other character kept |
| Text.StripSpec | app/models/associated_title.py:36-37 | `str.strip()`: the result is the text with a run of whitespace removed from each end, and it neither starts nor ends with whitespace |
| AssociatedTitlesApi.FindTitle | app/api/v1/associated_titles.py:67-70 | an entry is found exactly when the caller has one with that stored title |
| AssociatedTitlesApi.CreateTitleSpec | app/api/v1/associated_titles.py:43-89 | a create fails exactly when the category is not the caller's live one; otherwise the entry holds the normalised title, the category and the exact flag, and an existing entry with that title is overwritten, not duplicated |
| AssociatedTitlesApi.CreateTwiceSameEntry | app/api/v1/associated_titles.py:43-89 | creating one title twice, in any case and spacing, leaves one entry |
| AssociatedTitlesApi.CreateAssociatedTitle | app/api/v1/associated_titles.py:43-89 | the table and id are those of `CreateTitle`, and titles stay unique per user |
| AssociatedTitlesApi.FindExact | app/api/v1/associated_titles.py:99-106 | an exact entry is found exactly when the caller has one equal to the normalised title |
| AssociatedTitlesApi.ContainsCandidates | app/api/v1/associated_titles.py:116-119 | the caller's non-exact entries, each once, in ascending id order |
| AssociatedTitlesApi.ContainsEntry | app/api/v1/associated_titles.py:115-127 | the first non-exact entry whose title occurs in the normalised title; none exactly when no such entry exists |
| AssociatedTitlesApi.SuggestSpec | app/api/v1/associated_titles.py:92-134 | an exact entry wins; otherwise a containing entry is named if there is one; "none", with no category, means no entry of the caller matches |
| AssociatedTitlesApi.SuggestMatches | app/models/associated_title.py:34-42 | with normalised stored titles, the suggested entry matches the title |
| AssociatedTitlesApi.CreateThenSuggest | app/api/v1/associated_titles.py:92-134 | after creating an exact entry, suggesting the same title returns its category |
| AssociatedTitlesApi.SuggestCategory | app/api/v1/associated_titles.py:92-134 | the endpoint's scan returns exactly `Suggest`'s answer |
| AssociatedTitlesApi.UpdateTitleSpec | app/api/v1/associated_titles.py:158-187 | an update finds only the caller's entry; any null is a 500 (`.lower()` of a null title, NOT NULL for the others); a new title is stored normalised, fields not sent are kept, and no other entry changes |
| AssociatedTitlesApi.UpdateCanDuplicate | app/api/v1/associated_titles.py:158-187 | unlike create, update can leave two entries with the same title |
| AssociatedTitlesApi.UpdateAssociatedTitle | app/api/v1/associated_titles.py:158-187 | the table becomes `UpdateTitle`'s |
| BudgetsApi.WindowsDiffer | app/api/v1/budgets.py:33-38 | the as-written window and the date window agree except on the end day after midnight |
| BudgetsApi.EndDayExcludedAsWritten | app/api/v1/budgets.py:33-38 | as written, a purchase at noon on a budget's last day is not counted |
| BudgetsApi.BudgetProgress | app/api/v1/budgets.py:26-57 | spent is the sum of the amounts counted, 0 when none, and remaining is the budget's amount minus spent |
| BudgetsApi.SpentIgnores | app/api/v1/budgets.py:26-45 | a change to an uncounted transaction leaves the spent amount as it was |
| BudgetsApi.SpentAdds | app/api/v1/budgets.py:26-57 | a new counted transaction adds its amount to spent and takes it off remaining |
| BudgetsApi.SpentDropsDeleted | app/api/v1/budgets.py:29-34 | soft-deleting a counted transaction takes its amount back out |
| BudgetsApi.RemainingMayBeNegative | app/api/v1/budgets.py:48-49 | overspending gives a negative remainder; nothing clamps it |
| BudgetsApi.EmptyListsMeanAll | app/api/v1/budgets.py:40-46 | an empty wallet or category list counts the same as none |
| BudgetsApi.ListBudgets | app/api/v1/budgets.py:60-83 | the caller's live budgets, not archived unless asked, and pinned or not when asked |
| BudgetsApi.ListHidesArchived | app/api/v1/budgets.py:60-83 | by default archived budgets are not listed |
| BudgetsApi.GetBudget | app/api/v1/budgets.py:124-142 | a budget is found exactly when it is the caller's and live |
| BudgetsApi.DeleteBudget | app/api/v1/budgets.py:197-217 | "not found" unless the caller's live budget; otherwise only its `deleted_at` is set |
| BudgetsApi.DeletedNotFound | app/api/v1/budgets.py:197-217 | after a delete the budget is "not found" and no longer listed, and every other budget is as it was |
| ObjectivesApi.DaysRemaining | app/api/v1/objectives.py:43-47 | none without an end date, else the days to it, never below 0 |
| ObjectivesApi.DailyTarget | app/api/v1/objectives.py:44-49 | set exactly when days and money both remain; it times the days gives the remaining amount |
| ObjectivesApi.ObjectiveProgress | app/api/v1/objectives.py:28-58 | the current amount is the sum of the linked live transactions; the remaining amount is the target minus it, never below 0; days left and the daily target are as above |
| ObjectivesApi.LinkAddsAmount | app/api/v1/objectives.py:31-37 | linking a live transaction adds its amount to the goal |
| ObjectivesApi.LinkSpec | app/api/v1/objectives.py:228-288 | linking succeeds exactly for the caller's live objective and live transaction when not yet linked; it adds one row and keeps pairs unique |
| ObjectivesApi.UnlinkSpec | app/api/v1/objectives.py:291-325 | unlinking a pair that is not linked is "not found" and changes nothing; otherwise the pair's rows go and every other row stays |
| ObjectivesApi.LinkThenUnlink | app/api/v1/objectives.py:228-325 | linking then unlinking a pair gives back the association table |
| ObjectivesApi.LinkTransactionToObjective | app/api/v1/objectives.py:228-288 | the association table becomes `Link`'s |
| ObjectivesApi.UnlinkTransactionFromObjective | app/api/v1/objectives.py:291-325 | the association table becomes `Unlink`'s |
| ObjectivesApi.DeleteObjective | app/api/v1/objectives.py:204-224 | "not found" unless the caller's live objective; otherwise only its `deleted_at` is set |
| ObjectivesApi.DeletedObjectiveLinks | app/api/v1/objectives.py:204-325 | a deleted objective cannot be linked to again, but its links can still be removed |
| WalletsApi.ClearDefaults | app/api/v1/wallets.py:133-139 | every default wallet of the user other than the one kept loses its flag; nothing else changes |
| WalletsApi.CreatedSpec | app/api/v1/wallets.py:40-60 | a default wallet created is the user's only default; otherwise the flags are as they were; other users' wallets never change; one default per user holds |
| WalletsApi.CreateWallet | app/api/v1/wallets.py:40-60 | the table becomes `Created`'s under a fresh id |
| WalletsApi.GetWallet | app/api/v1/wallets.py:91-110 | a wallet is found exactly when it is the caller's and live |
| WalletsApi.Earliest | app/api/v1/wallets.py:77-80 | the chosen wallet is in the set and no wallet in it was created earlier; ties go to the lowest id |
| WalletsApi.DefaultWalletSpec | app/api/v1/wallets.py:63-88 | fails exactly when the user has no live wallet; otherwise a live wallet of the user: a default one if any, else one created no later than any other |
| WalletsApi.UpdatedSpec | app/api/v1/wallets.py:114-148 | setting the flag makes the wallet the user's only default; clearing or omitting it keeps the other flags; one default per user holds |
| WalletsApi.UpdateWallet | app/api/v1/wallets.py:114-148 | "not found" unless the caller's live wallet; a null on any field is a 500 (all are NOT NULL); either error changes nothing; otherwise the table becomes `Updated`'s |
| WalletsApi.DeleteSpec | app/api/v1/wallets.py:152-184 | a delete succeeds exactly while at least two live wallets remain, so a user keeps one; the wallet leaves the list and nothing else does |
| WalletsApi.DeleteWallet | app/api/v1/wallets.py:152-184 | the table becomes `Delete`'s, with "not found" and "Cannot delete the last wallet" changing nothing |
| PaymentMethodsApi.ClearDefaults | app/api/v1/payment_methods.py:105-111 | every default method of the user other than the one kept loses its flag; nothing else changes |
| PaymentMethodsApi.CreatedSpec | app/api/v1/payment_methods.py:40-60 | a default method created is the user's only default; otherwise flags are kept; other users' methods never change; one default per user holds |
| PaymentMethodsApi.CreatePaymentMethod | app/api/v1/payment_methods.py:40-60 | the table becomes `Created`'s under a fresh id |
| PaymentMethodsApi.ListMethods | app/api/v1/payment_methods.py:28-34 | exactly the caller's live methods |
| PaymentMethodsApi.GetMethod | app/api/v1/payment_methods.py:64-82 | a method is found exactly when it is the caller's and live |
| PaymentMethodsApi.UpdatedSpec | app/api/v1/payment_methods.py:86-120 | setting the flag makes the method the user's only default; otherwise flags are kept; one default per user holds |
| PaymentMethodsApi.UpdatePaymentMethod | app/api/v1/payment_methods.py:86-120 | "not found" unless the caller's live method; a null on any field is a 500 (all are NOT NULL); either error changes nothing; otherwise the table becomes `Updated`'s |
| PaymentMethodsApi.DeletePaymentMethod | app/api/v1/payment_methods.py:124-144 | "not found" unless the caller's live method; otherwise only its `deleted_at` is set |
| PaymentMethodsApi.DeletedNotFound | app/api/v1/payment_methods.py:124-144 | once deleted, a method is "not found" and no longer listed; nothing else changes |
| CategoriesApi.CreateSpec | app/api/v1/categories.py:84-110 | a subcategory needs a live parent of the caller's and nothing more; parent links stay within one user |
| CategoriesApi.CreateCategory | app/api/v1/categories.py:84-110 | "Parent category not found" changes nothing; otherwise the category is stored under a fresh id |
| CategoriesApi.GetCategory | app/api/v1/categories.py:114-132 | a category is found exactly when it is the caller's and live |
| CategoriesApi.ListCategories | app/api/v1/categories.py:23-47 | the caller's live categories of the kind asked for, top-level only unless subcategories are asked for |
| CategoriesApi.WithSubcategories | app/api/v1/categories.py:51-80 | each listed top-level category maps to exactly its live children, unfiltered by owner or kind |
| CategoriesApi.NestedChildrenOwned | app/api/v1/categories.py:51-80 | with same-user parent links, every nested child is the caller's and is not itself listed at the top level |
| CategoriesApi.UpdateSpec | app/api/v1/categories.py:136-175 | "not found" unless the caller's live category; a new parent must be the caller's live category; a null name, kind or order is a 500; the sent fields are assigned; a null parent makes it top-level and an absent one keeps it; parent links stay within one user |
| CategoriesApi.UpdateAllowsCycle | app/api/v1/categories.py:155-171 | there is no cycle check: a category can be made its own parent |
| CategoriesApi.UpdateCategory | app/api/v1/categories.py:136-175 | the table becomes `Update`'s |
| CategoriesApi.Cascade | app/api/v1/categories.py:197-204 | the category and its live direct children are marked deleted, and nothing else changes |
| CategoriesApi.DeleteSpec | app/api/v1/categories.py:179-206 | only those rows change, only in `deleted_at`; a grandchild stays live; the category is then "not found"; other users' categories are untouched |
| CategoriesApi.GrandchildUntouched | app/api/v1/categories.py:197-204 | a grandchild survives the cascade |
| CategoriesApi.DeleteCategory | app/api/v1/categories.py:179-206 | the table becomes `Delete`'s |
| UserModel.IsPremiumSpec | app/models/user.py:40-53 | premium exactly when the tier is basic, premium or pro, an expiry is set and it is still ahead |
| UserModel.StoreTiersNotPremium | app/models/user.py:37-53 | a tier stored by the purchase endpoints (`premium_...`) is never premium |
| UserModel.PremiumExpires | app/models/user.py:48-51 | premium at an instant means premium at every earlier one, and not once the expiry is reached |
| IapApi.Duration | app/api/v1/iap.py:21-25 | 30 days for monthly, 365 for yearly, none for lifetime and for an unknown product |
| IapApi.VerifySpec | app/api/v1/iap.py:85-144 | a valid verification stores the product id as the tier, with the product's expiry, and records the purchase; anything else leaves the user as it was and answers not valid |
| IapApi.VerifiedProductNotPremium | app/api/v1/iap.py:110-123 | a verified product never makes the user premium |
| IapApi.VerifyPurchase | app/api/v1/iap.py:85-144 | only the caller's row changes, to `Verify`'s user, and the response is `Verify`'s |
| IapApi.RestoreAllSpec | app/api/v1/iap.py:157-185 | the count is the number of accepted tokens; lifetime wins, else the first product; the expiry is the chosen product's |
| IapApi.LifetimeStays | app/api/v1/iap.py:175-182 | once lifetime is found, no later token displaces it |
| IapApi.RestorePurchases | app/api/v1/iap.py:148-198 | the loop's result is `RestoreAll`'s; the user's tier and expiry are updated exactly when a subscription was found |
| IapApi.DaysRemaining | app/api/v1/iap.py:206-209 | whole days left, rounded down, never negative, and 0 once expired |
| IapApi.Status | app/api/v1/iap.py:202-216 | the status reports the tier, the expiry, premium as the model defines it, and days left exactly when an expiry is set |
| IapApi.StatusAfterVerify | app/api/v1/iap.py:85-216 | right after a monthly or yearly verification 30 or 365 days remain, and the user is still not premium |
| FirebaseAuthService.UserInfoSpec | app/services/firebase_auth_service.py:71-99 | the provider is "google" exactly for Google sign-in and "firebase" otherwise; only Google sign-in carries a Google id, the `sub` claim; uid, email, name and picture are copied; a missing verified flag reads as false |
| AuthService.UserByEmail | app/services/auth_service.py:18-20 | a user is found exactly when one has that email, and it has it |
| AuthService.UserById | app/services/auth_service.py:22-28 | a user is found exactly when the text is a UUID of an existing user |
| Uuid.UuidRoundTrip | app/services/auth_service.py:74-76 | the canonical text of an id parses back to that id |
| AuthService.CreateUser | app/services/auth_service.py:30-48 | a new active, free, email-provider user with the hash is stored under a fresh id |
| AuthService.AuthenticateSpec | app/services/auth_service.py:50-72 | an unknown email, a missing password or a wrong password lets nobody in; whoever is let in has that email and a password that checks |
| AuthService.NoPasswordNoLogin | app/services/auth_service.py:62-63 | an account without a password can never log in with one |
| AuthService.AuthenticateUser | app/services/auth_service.py:50-72 | the result is `Authenticate`'s; on success only that user's `last_login` changes |
| AuthService.TokenSubject | app/services/auth_service.py:74-76 | the token's subject parses back to the user's id |
| Dependencies.CurrentUserSpec | app/core/dependencies.py:17-73 | a request passes exactly when the token decodes, has a subject, the subject is a UUID and the user exists; each failure is a 401 with its own detail |
| Dependencies.IssuedTokenAccepted | app/core/dependencies.py:17-73 | a token issued for an existing user lets that user in |
| Dependencies.CurrentActiveUser | app/core/dependencies.py:76-87 | passes exactly when the user passes and is active; an inactive user is a 400 |
| Dependencies.OptionalAgrees | app/core/dependencies.py:94-124 | no credentials gives no user; otherwise the user found is the one the strict check lets in, and a failure gives none |
| AuthApi.Register | app/api/v1/auth.py:15-45 | a used email is refused with nothing changed; otherwise a new user is stored and a token for it returned |
| AuthApi.RegisterTwiceRefused | app/api/v1/auth.py:27-33 | registering the same email again is refused |
| AuthApi.Login | app/api/v1/auth.py:49-80 | fails exactly when authentication fails; a success returns a token that the request check accepts for that user |
| AuthApi.Logout | app/api/v1/auth.py:96-104 | changes nothing and returns the fixed message |
| AuthApi.ImportNames | app/api/v1/auth.py:5 | `from m import ...` succeeds exactly when `m` defines every name; otherwise it fails on a name it does not define |
| AuthApi.AuthImportFailsAsWritten | app/api/v1/auth.py:5 | as written: the import stops at `UserProfileUpdate`, which app/schemas/user.py does not define |
| AuthApi.AuthImportsCorrected | app/schemas/user.py:9-74 | corrected: with `UserProfileUpdate` defined next to the existing classes, every import of the auth module resolves |
| AuthApi.UpdateUserProfile | app/api/v1/auth.py:108-138 | the display name and photo sent are assigned, and every other field is kept |
| AuthFirebaseApi.UidHolder | app/api/v1/auth_firebase.py:55-56 | a holder is found exactly when a user has that uid |
| AuthFirebaseApi.GoogleHolder | app/api/v1/auth_firebase.py:219-223 | a holder is found exactly when a user has that Google id |
| AuthFirebaseApi.EmailHolder | app/api/v1/auth_firebase.py:65-67 | a holder is found exactly when the token has an email and a user has it |
| AuthFirebaseApi.AuthenticateSpec | app/api/v1/auth_firebase.py:25-137 | a known uid logs its user in and creates nobody; an unknown uid with a taken email is a conflict that changes nothing; otherwise a password-less, free, active user is created; uids stay unique |
| AuthFirebaseApi.AuthenticateWithFirebase | app/api/v1/auth_firebase.py:25-137 | the users table and the answer are `Authenticate`'s |
| AuthFirebaseApi.LinkSpec | app/api/v1/auth_firebase.py:158-270 | linking needs the token's email to name an account with a password that checks, and the uid and Google id to be free or already its own; only that account changes, and uids stay unique |
| AuthFirebaseApi.LinkedKeeps | app/api/v1/auth_firebase.py:231-241 | linking keeps the name and photo when the token has none, and only an "email" provider becomes "google" |
| AuthFirebaseApi.LinkGoogleAccount | app/api/v1/auth_firebase.py:158-270 | the users table and the answer are `Link`'s |
| AuthFirebaseApi.UnlinkSpec | app/api/v1/auth_firebase.py:274-311 | unlinking needs a password and a link; afterwards there is no uid, no Google id and the provider is "email" |
| AuthFirebaseApi.UnlinkGoogleAccount | app/api/v1/auth_firebase.py:274-311 | only the caller's row changes, to `Unlink`'s result |
| AuthFirebaseApi.GetAuthProviders | app/api/v1/auth_firebase.py:315-336 | "email" is listed exactly when there is a password and "google" exactly when there is a link, "email" first |
| AuthFirebaseApi.LinkThenUnlink | app/api/v1/auth_firebase.py:158-336 | a linked account shows both providers; once unlinked, only "email" |
| Config.DatabaseUrlRoundTrip | app/config.py:20-26 | the URL carries every part in its place, and they read back when the user has no ':', the password no '@' and the host no ':' |
| Config.CorsOrigins | app/config.py:39-44 | "*" gives ["*"]; otherwise the comma-separated pieces, stripped |
| Config.CorsOriginsSpec | app/config.py:39-44 | one origin per piece, in order, each the piece without surrounding whitespace |
| Config.CorsOriginsJoin | app/config.py:39-44 | without surrounding whitespace, joining the origins with commas restores the setting |
| TimeUtils.AsUtc | app/utils/time_utils.py:38-43 | a naive value is taken as UTC; an aware one is converted to the same instant in UTC |
| DateTimes.ToUtc | app/utils/time_utils.py:41-43 | `astimezone(timezone.utc)`: a valid UTC datetime at the same instant, with the same microseconds |
| TimeUtils.ToUtcIsoformat | app/utils/time_utils.py:24-46 | null stays null; any other value is its UTC text with a `Z` |
| TimeUtils.FormatUtcShape | app/utils/time_utils.py:45-46 | the text is 24 characters "YYYY-MM-DDTHH:MM:SS.mmmZ" whose fields are the UTC date, time and the microseconds divided by 1000 |
| TimeUtils.NaiveIsoformatKeepsFields | app/utils/time_utils.py:38-40 | a naive value's text shows its own fields |
| TimeUtils.AwareIsoformatSameInstant | app/utils/time_utils.py:41-43 | an aware value is rendered at the same instant, in UTC |
| TimeUtils.EnsureUtc | app/utils/time_utils.py:49-68 | null stays null; the result is UTC-aware and the same instant, with a naive value read as UTC |
| TimeUtils.EnsureUtcIdempotent | app/utils/time_utils.py:49-68 | applying it twice is applying it once |

## Left out

- Ordering and paging of list queries (`ORDER BY`, `offset`, `limit`): lists are sets, or ascending-id sequences where the order drives a loop.
- Display fields that no endpoint reasons about: icons and colours of wallets, categories and payment methods.
- Column defaults and `updated_at` stamps.
- Database type coercion, and most foreign keys. The model keeps the foreign keys the endpoints depend on, such as a transaction's wallet.
- Decimal rounding: amounts are whole cents.
- The float `progress_percent` of budgets and objectives.
- Unicode case mapping: lower- and upper-casing cover ASCII letters only.
- `ilike` wildcards inside a search string.
- Concurrency, sessions and transactions beyond the one rollback that an update of a transaction can trigger.
- The exchange-rate list, get and delete endpoints.
- The exchange-rate schemas' three-character code validation.
- The associated-title list, get and delete endpoints.
- The budget create and update endpoints, and the list-with-progress endpoints.
- The objective create, update and list endpoints. The JSON storage of `wallet_ids` and `category_ids` is left out too.
- Sync: `client_timestamp` is never read. Rows are maps from column name to value, so the typed columns are not checked on update.
- Sync.UpdateOwnedOverwrites: read-only properties are modelled, but relationship names (`wallet`, `transactions`, ...) and methods such as `calculate_next_occurrence` also pass `hasattr`; the model skips such keys, whereas `setattr` with a JSON value raises or rebinds there.
- ExchangeRatesApi.ConvertViaUsdRoundTrip: holds over exact reals only; `Decimal` division rounds each cross rate to 28 significant digits, so the source's round trip can be off in the last digit (rates 3 and 1 turn 1 into 0.999...9).
- RecurringApi.TriggerRecurringTransactions: states each schedule's new state, and that every new row is a recurring instance of the caller's under a fresh id, but not which row came from which schedule. That is stated per schedule by RecurringApi.ProcessSingleRecurring. It also requires every selected schedule to be materialisable, for the same reason as the next line.
- `ON DELETE SET NULL` is modelled only for the link from transactions to their schedule (`Detach`).
- The two separate `utc_now()` calls in a category delete and in the restore loop are one `now`.
- Details of unexpected errors: the exception text in the Firebase endpoints' 500 details is reduced to a fixed text, and the 409 conflict detail dictionary is reduced to its message.
- The purchase record (`iap_*` attributes) is returned, not stored: the `User` model declares no such columns.
- `default_currency` and `onboarding_completed` of a profile update are read but not stored, for the same reason.
- The Google Play and App Store verification calls, the Firebase Admin SDK, JWT encoding and password hashing are inputs given as outcomes.
- `authenticate_with_google` is the same code as the Firebase endpoint and is not modelled twice.
- `/auth/me` and the `get_*_by_id` helpers that only read a row are not modelled separately.
- AuthApi.Register: requires the id counter below 2^128, because a token's subject must be a UUID's text.
- AuthApi.Login: requires the id counter at most 2^128, for the same reason.
- RecurringApi.ProcessSingleRecurring: requires a period of at least one and a known unit; with a zero period or an unknown unit the source loops forever.
- Python's year range (1 to 9999) is not enforced on dates: its `OverflowError` is not modelled.

## Findings

| source | as written | input that shows it | evidently intended | confidence | as-written member | corrected member |
|---|---|---|---|---|---|---|
| app/api/v1/transactions.py:119-122 | `Transaction(**transaction_data.model_dump(), ...)` passes the schema's `special_type`, `is_paid`, `original_due_date` and `skip_paid`, which the `Transaction` model has no column for, so the constructor raises `TypeError`; the bulk endpoint does the same per item | any create whose wallet is the caller's live one | the row is built from the model's own columns, stored, and its wallet's balance moves | high; not executed | TransactionsApi.CreateTransactionAsWritten | TransactionsApi.CreateTransaction |
| app/api/v1/budgets.py:33-38 | the timestamp `transactions.date` is compared with the date `end_date`, which the database widens to midnight, so the last day counts only transactions at 00:00 | a budget ending 2024-01-31 and an expense at 2024-01-31 12:00 | every transaction on the last day counts | medium; not executed | BudgetsApi.InWindowAsWritten | BudgetsApi.InWindow |
| app/api/v1/auth.py:5 | `from app.schemas.user import ... UserProfileUpdate`, but app/schemas/user.py defines no such class, so importing the auth module raises `ImportError`; app/api/v1/__init__.py imports it, so the whole API fails to start | starting the application | a `UserProfileUpdate` schema with the four optional fields `update_user_profile` reads (display name, photo URL, default currency, onboarding flag) | high; not executed | AuthApi.AuthImportFailsAsWritten | AuthApi.AuthImportsCorrected |
