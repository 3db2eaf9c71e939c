/** The database as the endpoints see it: one table per model, each a map from
    row id to row. Ids minted by `uuid.uuid4()` come from a counter that stays
    above every id in use, which is all the model needs of their randomness. */
module Store {
  import opened Wrappers
  import opened Calendar
  import opened DateTimes
  import opened Uuid
  import opened RecurringConfigModel

  /** `Numeric(15, 2)` money as a whole number of cents. */
  type Cents = int

  datatype TransactionType = Regular | Transfer | RecurringInstance

  datatype User = User(
    email: string,
    passwordHash: Option<string>,
    firebaseUid: Option<string>,
    authProvider: string,
    googleId: Option<string>,
    displayName: Option<string>,
    photoUrl: Option<string>,
    emailVerified: bool,
    createdAt: Instant,
    lastLogin: Option<Instant>,
    isActive: bool,
    subscriptionTier: string,
    subscriptionExpiresAt: Option<Instant>)

  datatype Wallet = Wallet(
    userId: Id,
    name: string,
    currency: string,
    balance: Cents,
    isDefault: bool,
    orderIndex: int,
    createdAt: Instant,
    deletedAt: Option<Instant>)

  datatype Category = Category(
    userId: Id,
    name: string,
    mainCategoryId: Option<Id>,
    isIncome: bool,
    orderIndex: int,
    createdAt: Instant,
    deletedAt: Option<Instant>)

  datatype PaymentMethod = PaymentMethod(
    userId: Id,
    name: string,
    isDefault: bool,
    createdAt: Instant,
    deletedAt: Option<Instant>)

  datatype Transaction = Transaction(
    userId: Id,
    walletId: Id,
    categoryId: Option<Id>,
    paymentMethodId: Option<Id>,
    amount: Cents,
    title: string,
    notes: Option<string>,
    date: DateTime,
    isIncome: bool,
    kind: TransactionType,
    pairedTransactionId: Option<Id>,
    recurringConfigId: Option<Id>,
    receiptImageUrl: Option<string>,
    createdAt: Instant,
    deletedAt: Option<Instant>)

  datatype Budget = Budget(
    userId: Id,
    name: string,
    amount: Cents,
    startDate: Date,
    endDate: Option<Date>,
    walletIds: Option<seq<Id>>,
    categoryIds: Option<seq<Id>>,
    isIncome: bool,
    isPinned: bool,
    isArchived: bool,
    createdAt: Instant,
    deletedAt: Option<Instant>)

  datatype Objective = Objective(
    userId: Id,
    name: string,
    targetAmount: Cents,
    startDate: Date,
    endDate: Option<Date>,
    isPinned: bool,
    isArchived: bool,
    createdAt: Instant,
    deletedAt: Option<Instant>)

  /** A row of the `objective_transactions` association table. */
  datatype ObjectiveLink = ObjectiveLink(objectiveId: Id, transactionId: Id, createdAt: Instant)

  datatype AssociatedTitle = AssociatedTitle(
    userId: Id,
    title: string,
    categoryId: Id,
    isExactMatch: bool,
    createdAt: Instant)

  datatype ExchangeRate = ExchangeRate(
    userId: Id,
    fromCurrency: string,
    toCurrency: string,
    apiRate: Option<real>,
    customRate: Option<real>,
    useCustomRate: bool,
    apiRateFetchedAt: Option<Instant>,
    version: int,
    createdAt: Instant)

  class Db {
    var users: map<Id, User>
    var wallets: map<Id, Wallet>
    var categories: map<Id, Category>
    var paymentMethods: map<Id, PaymentMethod>
    var transactions: map<Id, Transaction>
    var budgets: map<Id, Budget>
    var objectives: map<Id, Objective>
    var objectiveLinks: map<Id, ObjectiveLink>
    var associatedTitles: map<Id, AssociatedTitle>
    var exchangeRates: map<Id, ExchangeRate>
    var recurringConfigs: map<Id, RecurringConfig>
    /** Above every id in use: the next id `uuid4()` is modelled to return. */
    var nextId: Id

    ghost predicate Valid()
      reads this
    {
      KeysBelow(users.Keys, nextId) && KeysBelow(wallets.Keys, nextId)
      && KeysBelow(categories.Keys, nextId) && KeysBelow(paymentMethods.Keys, nextId)
      && KeysBelow(transactions.Keys, nextId) && KeysBelow(budgets.Keys, nextId)
      && KeysBelow(objectives.Keys, nextId) && KeysBelow(objectiveLinks.Keys, nextId)
      && KeysBelow(associatedTitles.Keys, nextId) && KeysBelow(exchangeRates.Keys, nextId)
      && KeysBelow(recurringConfigs.Keys, nextId)
    }

    constructor ()
      ensures Valid() && nextId == 0
      ensures users == map[] && wallets == map[] && categories == map[] && paymentMethods == map[]
      ensures transactions == map[] && budgets == map[] && objectives == map[] && objectiveLinks == map[]
      ensures associatedTitles == map[] && exchangeRates == map[] && recurringConfigs == map[]
    {
      users, wallets, categories, paymentMethods := map[], map[], map[], map[];
      transactions, budgets, objectives, objectiveLinks := map[], map[], map[], map[];
      associatedTitles, exchangeRates, recurringConfigs := map[], map[], map[];
      nextId := 0;
    }

    /** `db.add` of a new transaction under a fresh id. */
    method AddTransaction(t: Transaction) returns (id: Id)
      requires Valid()
      modifies this`transactions, this`nextId
      ensures Valid()
      ensures id == old(nextId) && nextId == id + 1 && id !in old(transactions)
      ensures transactions == old(transactions)[id := t]
    {
      id := NewId();
      transactions := transactions[id := t];
    }

    /** Writes back a changed recurring configuration. */
    method PutRecurringConfig(id: Id, c: RecurringConfig)
      requires Valid() && id in recurringConfigs
      modifies this`recurringConfigs
      ensures Valid()
      ensures recurringConfigs == old(recurringConfigs)[id := c]
    {
      recurringConfigs := recurringConfigs[id := c];
    }

    /** `uuid.uuid4()`: an id no table uses yet. */
    method NewId() returns (id: Id)
      modifies this`nextId
      ensures id == old(nextId) && nextId == id + 1
    {
      id := nextId;
      nextId := nextId + 1;
    }
  }

  /** Every id of `s` is below `n`. */
  predicate KeysBelow(s: set<Id>, n: Id) {
    forall id :: id in s ==> id < n
  }

  // ---------------------------------------------------------------------------
  // Iteration order of query results that carry no ORDER BY: ascending id.

  /** `m` is the smallest id of `s`. */
  predicate IsLeast(s: set<Id>, m: Id) {
    m in s && forall x :: x in s ==> m <= x
  }

  /** The smallest id of a non-empty set. */
  function MinId(s: set<Id>): (m: Id)
    requires s != {}
    ensures m in s && forall x :: x in s ==> m <= x
  {
    LeastExists(s);
    var m :| IsLeast(s, m);
    m
  }

  lemma LeastExists(s: set<Id>)
    requires s != {}
    ensures exists m :: IsLeast(s, m)
  {
    var m := LeastWitness(s);
  }

  /** Every non-empty set of ids has a least element, found by removing one element at a time. */
  lemma {:induction false} LeastWitness(s: set<Id>) returns (m: Id)
    requires s != {}
    ensures IsLeast(s, m)
    decreases |s|
  {
    var x :| x in s;
    if s == {x} {
      m := x;
    } else {
      var r := LeastWitness(s - {x});
      m := LeastOfTwo(s, x, r);
    }
  }

  lemma LeastOfTwo(s: set<Id>, x: Id, r: Id) returns (m: Id)
    requires x in s && IsLeast(s - {x}, r)
    ensures IsLeast(s, m)
  {
    m := if x < r then x else r;
    forall y | y in s ensures m <= y {
      if y != x { assert y in s - {x}; }
    }
  }

  /** The ids of `s` in ascending order. */
  function SortedIds(s: set<Id>): (r: seq<Id>)
    ensures |r| == |s|
    ensures forall x :: x in s <==> x in r
    ensures forall i, j :: 0 <= i < j < |r| ==> r[i] < r[j]
    decreases |s|
  {
    if s == {} then []
    else
      var m := MinId(s);
      [m] + SortedIds(s - {m})
  }

  // ---------------------------------------------------------------------------
  // Sums over transactions (`func.sum`, and the balance a wallet's rows add up to).

  /** The sum of `f` over the transactions with ids in `ids`. */
  function SumTx(txs: map<Id, Transaction>, ids: set<Id>, f: Transaction -> int): int
    requires ids <= txs.Keys
    decreases |ids|
  {
    if ids == {} then 0
    else
      var k := MinId(ids);
      f(txs[k]) + SumTx(txs, ids - {k}, f)
  }

  /** Any one transaction can be taken out of the sum first. */
  lemma {:induction false} SumTxRemove(txs: map<Id, Transaction>, ids: set<Id>, k: Id, f: Transaction -> int)
    requires ids <= txs.Keys && k in ids
    ensures SumTx(txs, ids, f) == f(txs[k]) + SumTx(txs, ids - {k}, f)
    decreases |ids|
  {
    var m := MinId(ids);
    if m != k {
      SumTxRemove(txs, ids - {m}, k, f);
      SumTxRemove(txs, ids - {k}, m, f);
      assert ids - {m} - {k} == ids - {k} - {m};
    }
  }

  /** The sum only depends on the values of `f` on the summed rows. */
  lemma {:induction false} SumTxFrame(txs: map<Id, Transaction>, txs': map<Id, Transaction>, ids: set<Id>,
                                      f: Transaction -> int)
    requires ids <= txs.Keys && ids <= txs'.Keys
    requires forall k :: k in ids ==> f(txs[k]) == f(txs'[k])
    ensures SumTx(txs, ids, f) == SumTx(txs', ids, f)
    decreases |ids|
  {
    if ids != {} {
      SumTxFrame(txs, txs', ids - {MinId(ids)}, f);
    }
  }

  /** Storing a row changes the sum over the whole table by the new row's value,
      less the old one's when it replaces a row. */
  lemma SumTxPut(txs: map<Id, Transaction>, k: Id, v: Transaction, f: Transaction -> int)
    ensures SumTx(txs[k := v], txs[k := v].Keys, f)
      == SumTx(txs, txs.Keys, f) - (if k in txs then f(txs[k]) else 0) + f(v)
  {
    var txs' := txs[k := v];
    SumTxRemove(txs', txs'.Keys, k, f);
    assert txs'.Keys - {k} == txs.Keys - {k};
    SumTxFrame(txs', txs, txs.Keys - {k}, f);
    if k in txs {
      SumTxRemove(txs, txs.Keys, k, f);
    } else {
      assert txs.Keys - {k} == txs.Keys;
    }
  }
}
