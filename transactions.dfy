/** The transaction endpoints and the wallet ledger behind them. Every endpoint
    that adds, changes or removes a transaction moves a wallet balance by the
    transaction's signed amount through `update_wallet_balance`; the invariant kept
    is that each wallet's balance, less the signed sum of its live transactions,
    does not change. */
module TransactionsApi {
  import opened Wrappers
  import opened Fields
  import opened Calendar
  import opened DateTimes
  import opened Text
  import opened Uuid
  import opened Store

  // ---------------------------------------------------------------------------
  // `update_wallet_balance`.

  /** The change to a balance: income adds and an expense subtracts; reversing does
      the opposite. */
  function Delta(amount: Cents, isIncome: bool, reverse: bool): (d: int)
    ensures !reverse && isIncome ==> d == amount
    ensures !reverse && !isIncome ==> d == -amount
    ensures reverse && isIncome ==> d == -amount
    ensures reverse && !isIncome ==> d == amount
  {
    if isIncome == reverse then -amount else amount
  }

  /** The wallets after `update_wallet_balance`: a wallet id with no row changes nothing. */
  function Adjusted(ws: map<Id, Wallet>, walletId: Id, amount: Cents, isIncome: bool, reverse: bool): (r: map<Id, Wallet>)
    ensures r.Keys == ws.Keys
  {
    if walletId in ws then ws[walletId := ws[walletId].(balance := ws[walletId].balance + Delta(amount, isIncome, reverse))]
    else ws
  }

  /** Applying then reversing the same (wallet, amount, direction) leaves every
      balance as it was. */
  lemma ApplyThenReverse(ws: map<Id, Wallet>, walletId: Id, amount: Cents, isIncome: bool)
    ensures Adjusted(Adjusted(ws, walletId, amount, isIncome, false), walletId, amount, isIncome, true) == ws
  {
    if walletId in ws {
      var w := ws[walletId];
      assert w.(balance := w.balance + Delta(amount, isIncome, false) + Delta(amount, isIncome, true)) == w;
    }
  }

  /** Only the named wallet's balance moves, by the signed amount. */
  lemma AdjustedMovesOne(ws: map<Id, Wallet>, walletId: Id, amount: Cents, isIncome: bool, reverse: bool)
    ensures var r := Adjusted(ws, walletId, amount, isIncome, reverse);
      r.Keys == ws.Keys
      && (forall w :: w in ws && w != walletId ==> r[w] == ws[w])
      && (walletId in ws ==>
            r[walletId] == ws[walletId].(balance := ws[walletId].balance + (if isIncome != reverse then amount else -amount)))
  {
  }

  method UpdateWalletBalance(db: Db, walletId: Id, amount: Cents, isIncome: bool, reverse: bool)
    modifies db`wallets
    ensures db.wallets == Adjusted(old(db.wallets), walletId, amount, isIncome, reverse)
  {
    if walletId in db.wallets {
      var w := db.wallets[walletId];
      if reverse {
        if isIncome {
          w := w.(balance := w.balance - amount);
        } else {
          w := w.(balance := w.balance + amount);
        }
      } else {
        if isIncome {
          w := w.(balance := w.balance + amount);
        } else {
          w := w.(balance := w.balance - amount);
        }
      }
      db.wallets := db.wallets[walletId := w];
    }
  }

  // ---------------------------------------------------------------------------
  // The ledger invariant.

  /** What a transaction contributes to wallet `w`: its signed amount while it is
      live and in `w`. */
  function Part(t: Transaction, w: Id): int {
    if t.walletId == w && t.deletedAt.None? then Delta(t.amount, t.isIncome, false) else 0
  }

  function Net(txs: map<Id, Transaction>, w: Id): int {
    SumTx(txs, txs.Keys, t => Part(t, w))
  }

  /** A wallet's balance less what its live transactions add up to: its opening
      balance as far as the ledger can tell. */
  function Drift(ws: map<Id, Wallet>, txs: map<Id, Transaction>, w: Id): int
    requires w in ws
  {
    ws[w].balance - Net(txs, w)
  }

  /** Every transaction's wallet has a row (the foreign key on `wallet_id`). */
  predicate WalletsExist(ws: map<Id, Wallet>, txs: map<Id, Transaction>) {
    forall k :: k in txs ==> txs[k].walletId in ws
  }

  /** Storing transaction `v` under `k` while moving the balances by what `k` took
      out and `v` puts in keeps every wallet's drift. */
  lemma PutKeepsDrift(ws: map<Id, Wallet>, txs: map<Id, Transaction>, k: Id, v: Transaction, ws': map<Id, Wallet>, w: Id)
    requires w in ws && ws'.Keys == ws.Keys
    requires ws'[w].balance == ws[w].balance - (if k in txs then Part(txs[k], w) else 0) + Part(v, w)
    ensures Drift(ws', txs[k := v], w) == Drift(ws, txs, w)
  {
    SumTxPut(txs, k, v, t => Part(t, w));
  }

  /** A live, owned transaction: what get, update and delete look up. */
  predicate OwnedLiveTx(txs: map<Id, Transaction>, userId: Id, id: Id) {
    id in txs && txs[id].userId == userId && txs[id].deletedAt.None?
  }

  /** A wallet the caller owns and has not deleted: what create checks. */
  predicate OwnedLiveWallet(ws: map<Id, Wallet>, userId: Id, id: Id) {
    id in ws && ws[id].userId == userId && ws[id].deletedAt.None?
  }

  // ---------------------------------------------------------------------------
  // Create.

  /** `TransactionCreate` after validation: `amount` has two decimal places, so it is
      a whole number of cents, and the title is 1 to 200 characters. */
  datatype TransactionCreate = TransactionCreate(
    walletId: Id,
    categoryId: Option<Id>,
    paymentMethodId: Option<Id>,
    amount: Cents,
    title: string,
    notes: Option<string>,
    date: DateTime,
    isIncome: bool,
    kind: TransactionType,
    pairedTransactionId: Option<Id>,
    recurringConfigId: Option<Id>,
    receiptImageUrl: Option<string>)

  /** The keys of `TransactionCreate.model_dump()`. */
  const CreateFields: set<string> := {
    "wallet_id", "category_id", "payment_method_id", "amount", "title", "notes", "date", "is_income", "type",
    "special_type", "is_paid", "original_due_date", "skip_paid",
    "paired_transaction_id", "recurring_config_id", "receipt_image_url"}

  /** The attributes of the `Transaction` model a keyword argument may name. */
  const ModelAttributes: set<string> := {
    "id", "user_id", "wallet_id", "category_id", "payment_method_id", "amount", "title", "notes", "date",
    "is_income", "type", "paired_transaction_id", "recurring_config_id", "receipt_image_url",
    "created_at", "updated_at", "deleted_at", "user", "wallet", "category", "payment_method",
    "paired_transaction", "recurring_config", "paired_with", "recurring_config_source", "objectives",
    "is_deleted", "is_transfer", "is_recurring_instance"}

  /** The schema's four special-type fields are not attributes of the model, so the
      model's constructor rejects the dump whatever the request holds. */
  lemma DumpRejected()
    ensures !(CreateFields <= ModelAttributes)
    ensures CreateFields - ModelAttributes == {"special_type", "is_paid", "original_due_date", "skip_paid"}
  {
    assert "special_type" in CreateFields && "special_type" !in ModelAttributes;
  }

  /** The row a create inserts for the caller. */
  function NewTransaction(userId: Id, b: TransactionCreate, now: Instant): Transaction {
    Transaction(userId, b.walletId, b.categoryId, b.paymentMethodId, b.amount, b.title, b.notes, b.date,
                b.isIncome, b.kind, b.pairedTransactionId, b.recurringConfigId, b.receiptImageUrl, now, None)
  }

  /** `create_transaction` as written: once the wallet check passes, building the row
      from the full dump raises `TypeError`, so the request fails and nothing is saved. */
  method CreateTransactionAsWritten(db: Db, userId: Id, body: TransactionCreate) returns (r: Result<Id>)
    ensures r.Err?
    ensures !OwnedLiveWallet(db.wallets, userId, body.walletId) ==> r == Err(NotFound("Wallet not found"))
  {
    if !OwnedLiveWallet(db.wallets, userId, body.walletId) {
      return Err(NotFound("Wallet not found"));
    }
    if CreateFields <= ModelAttributes {
      DumpRejected();
      assert false;
    }
    r := Err(ServerError("TypeError: invalid keyword argument for Transaction"));
  }

  /** `create_transaction` with the dump limited to the model's own attributes: the
      row is added and its wallet's balance moves by its signed amount. */
  method CreateTransaction(db: Db, userId: Id, body: TransactionCreate, now: Instant) returns (r: Result<Id>)
    requires db.Valid()
    modifies db`transactions, db`wallets, db`nextId
    ensures db.Valid()
    ensures r.Err? <==> !OwnedLiveWallet(old(db.wallets), userId, body.walletId)
    ensures r.Err? ==>
      r == Err(NotFound("Wallet not found")) && db.transactions == old(db.transactions)
      && db.wallets == old(db.wallets) && db.nextId == old(db.nextId)
    ensures r.Ok? ==>
      r.value == old(db.nextId) && r.value !in old(db.transactions)
      && db.transactions == old(db.transactions)[r.value := NewTransaction(userId, body, now)]
      && db.wallets == Adjusted(old(db.wallets), body.walletId, body.amount, body.isIncome, false)
    ensures WalletsExist(old(db.wallets), old(db.transactions)) ==> WalletsExist(db.wallets, db.transactions)
  {
    if !OwnedLiveWallet(db.wallets, userId, body.walletId) {
      return Err(NotFound("Wallet not found"));
    }
    var t := NewTransaction(userId, body, now);
    var id := db.AddTransaction(t);
    UpdateWalletBalance(db, t.walletId, t.amount, t.isIncome, false);
    r := Ok(id);
  }

  lemma CreateKeepsDrift(ws: map<Id, Wallet>, txs: map<Id, Transaction>, id: Id, t: Transaction)
    requires id !in txs && t.deletedAt.None? && t.walletId in ws
    ensures forall w :: w in ws ==>
      Drift(Adjusted(ws, t.walletId, t.amount, t.isIncome, false), txs[id := t], w) == Drift(ws, txs, w)
  {
    forall w | w in ws
      ensures Drift(Adjusted(ws, t.walletId, t.amount, t.isIncome, false), txs[id := t], w) == Drift(ws, txs, w)
    {
      PutKeepsDrift(ws, txs, id, t, Adjusted(ws, t.walletId, t.amount, t.isIncome, false), w);
    }
  }

  // ---------------------------------------------------------------------------
  // Bulk create.

  /** `bulk_create_transactions` as written: the first item whose wallet passes the
      check raises `TypeError` as in create, and the whole request fails; only a
      batch in which every wallet is rejected succeeds, with nothing created. */
  method BulkCreateAsWritten(db: Db, userId: Id, items: seq<TransactionCreate>) returns (r: Result<seq<Id>>)
    ensures r.Ok? <==> forall i :: 0 <= i < |items| ==> !OwnedLiveWallet(db.wallets, userId, items[i].walletId)
    ensures r.Ok? ==> r.value == []
  {
    var i := 0;
    while i < |items|
      invariant 0 <= i <= |items|
      invariant forall j :: 0 <= j < i ==> !OwnedLiveWallet(db.wallets, userId, items[j].walletId)
    {
      if OwnedLiveWallet(db.wallets, userId, items[i].walletId) {
        if CreateFields <= ModelAttributes {
          DumpRejected();
          assert false;
        }
        return Err(ServerError("TypeError: invalid keyword argument for Transaction"));
      }
      i := i + 1;
    }
    r := Ok([]);
  }

  /** The items a bulk create keeps: those whose wallet the caller owns, live. */
  function Kept(ws: map<Id, Wallet>, userId: Id, items: seq<TransactionCreate>): (r: seq<TransactionCreate>)
    ensures |r| <= |items|
    decreases |items|
  {
    if items == [] then []
    else Kept(ws, userId, items[..|items| - 1])
         + (if OwnedLiveWallet(ws, userId, items[|items| - 1].walletId) then [items[|items| - 1]] else [])
  }

  /** The kept items are exactly the items whose wallet passes the check. */
  lemma {:induction false} KeptSpec(ws: map<Id, Wallet>, userId: Id, items: seq<TransactionCreate>)
    ensures forall x :: x in Kept(ws, userId, items) <==> x in items && OwnedLiveWallet(ws, userId, x.walletId)
    decreases |items|
  {
    if items != [] {
      var n := |items| - 1;
      KeptSpec(ws, userId, items[..n]);
      assert items == items[..n] + [items[n]];
    }
  }

  /** The state a bulk create works on: the two tables, the id counter and the ids
      handed out so far. */
  datatype BulkState = BulkState(txs: map<Id, Transaction>, ws: map<Id, Wallet>, next: Id, created: seq<Id>)

  /** One item of `bulk_create_transactions`: skipped unless the caller owns its
      wallet, live; otherwise stored under the next id, with its wallet's balance
      moved. */
  function BulkStep(s: BulkState, userId: Id, now: Instant, item: TransactionCreate): BulkState {
    if OwnedLiveWallet(s.ws, userId, item.walletId) then
      var t := NewTransaction(userId, item, now);
      BulkState(s.txs[s.next := t], Adjusted(s.ws, t.walletId, t.amount, t.isIncome, false), s.next + 1, s.created + [s.next])
    else s
  }

  function BulkFold(s: BulkState, userId: Id, now: Instant, items: seq<TransactionCreate>): BulkState
    decreases |items|
  {
    if items == [] then s
    else BulkStep(BulkFold(s, userId, now, items[..|items| - 1]), userId, now, items[|items| - 1])
  }

  /** Balances move, but which wallets the caller owns, live, does not: every item
      is judged against the wallets as they were. */
  lemma {:induction false} BulkKeepsOwners(s: BulkState, userId: Id, now: Instant, items: seq<TransactionCreate>)
    ensures var r := BulkFold(s, userId, now, items);
      r.ws.Keys == s.ws.Keys && forall w :: OwnedLiveWallet(r.ws, userId, w) <==> OwnedLiveWallet(s.ws, userId, w)
    decreases |items|
  {
    if items != [] {
      var n := |items| - 1;
      BulkKeepsOwners(s, userId, now, items[..n]);
      var m := BulkFold(s, userId, now, items[..n]);
      var t := NewTransaction(userId, items[n], now);
      AdjustedKeepsOwners(m.ws, t.walletId, t.amount, t.isIncome, false, userId);
    }
  }

  /** A bulk create stores exactly the kept items, in order, under consecutive fresh
      ids, and leaves every earlier row as it was. */
  lemma {:induction false} BulkCreates(s: BulkState, userId: Id, now: Instant, items: seq<TransactionCreate>)
    requires s.created == [] && forall k :: k in s.txs ==> k < s.next
    ensures var r := BulkFold(s, userId, now, items);
      var kept := Kept(s.ws, userId, items);
      |r.created| == |kept| && r.next == s.next + |kept|
      && (forall i :: 0 <= i < |kept| ==>
            r.created[i] == s.next + i && r.created[i] in r.txs
            && r.txs[r.created[i]] == NewTransaction(userId, kept[i], now))
      && (forall k :: k in s.txs ==> k in r.txs && r.txs[k] == s.txs[k])
      && (forall k :: k in r.txs ==> k in s.txs || s.next <= k < r.next)
    decreases |items|
  {
    if items != [] {
      var n := |items| - 1;
      BulkCreates(s, userId, now, items[..n]);
      BulkKeepsOwners(s, userId, now, items[..n]);
    }
  }

  /** Inserting fresh live rows and moving their wallets' balances keeps every
      wallet's drift: the ledger invariant across a bulk create. */
  lemma {:induction false} BulkKeepsDrift(s: BulkState, userId: Id, now: Instant, items: seq<TransactionCreate>, w: Id)
    requires s.created == [] && forall k :: k in s.txs ==> k < s.next
    requires w in s.ws
    ensures var r := BulkFold(s, userId, now, items);
      w in r.ws && Drift(r.ws, r.txs, w) == Drift(s.ws, s.txs, w)
    decreases |items|
  {
    if items != [] {
      var n := |items| - 1;
      BulkKeepsDrift(s, userId, now, items[..n], w);
      BulkKeepsOwners(s, userId, now, items[..n]);
      BulkCreates(s, userId, now, items[..n]);
      var m := BulkFold(s, userId, now, items[..n]);
      if OwnedLiveWallet(m.ws, userId, items[n].walletId) {
        var t := NewTransaction(userId, items[n], now);
        assert m.next !in m.txs;
        PutKeepsDrift(m.ws, m.txs, m.next, t, Adjusted(m.ws, t.walletId, t.amount, t.isIncome, false), w);
      }
    }
  }

  /** A balance change keeps which wallets the caller owns, live. */
  lemma AdjustedKeepsOwners(ws: map<Id, Wallet>, walletId: Id, amount: Cents, isIncome: bool, reverse: bool, userId: Id)
    ensures var r := Adjusted(ws, walletId, amount, isIncome, reverse);
      r.Keys == ws.Keys && forall w :: OwnedLiveWallet(r, userId, w) <==> OwnedLiveWallet(ws, userId, w)
  {
  }

  /** Bulk create with the corrected dump: items with a bad wallet are skipped, and
      each kept item is added and moves its wallet's balance (`BulkCreates`,
      `BulkKeepsDrift`). */
  method BulkCreateTransactions(db: Db, userId: Id, items: seq<TransactionCreate>, now: Instant)
    returns (created: seq<Id>)
    requires db.Valid()
    modifies db`transactions, db`wallets, db`nextId
    ensures db.Valid()
    ensures BulkState(db.transactions, db.wallets, db.nextId, created)
      == BulkFold(BulkState(old(db.transactions), old(db.wallets), old(db.nextId), []), userId, now, items)
  {
    created := [];
    ghost var s0 := BulkState(db.transactions, db.wallets, db.nextId, []);
    var i := 0;
    while i < |items|
      invariant 0 <= i <= |items| && db.Valid()
      invariant BulkState(db.transactions, db.wallets, db.nextId, created) == BulkFold(s0, userId, now, items[..i])
    {
      assert items[..i + 1][..i] == items[..i];
      var item := items[i];
      if OwnedLiveWallet(db.wallets, userId, item.walletId) {
        var id := AddOne(db, userId, item, now);
        created := created + [id];
      }
      i := i + 1;
    }
    assert items[..i] == items;
  }

  /** One kept item of a bulk create: added, and its wallet's balance moved. */
  method AddOne(db: Db, userId: Id, item: TransactionCreate, now: Instant) returns (id: Id)
    requires db.Valid() && item.walletId in db.wallets
    modifies db`transactions, db`wallets, db`nextId
    ensures db.Valid()
    ensures id == old(db.nextId) && db.nextId == id + 1 && id !in old(db.transactions)
    ensures db.transactions == old(db.transactions)[id := NewTransaction(userId, item, now)]
    ensures db.wallets == Adjusted(old(db.wallets), item.walletId, item.amount, item.isIncome, false)
  {
    var t := NewTransaction(userId, item, now);
    id := db.AddTransaction(t);
    UpdateWalletBalance(db, t.walletId, t.amount, t.isIncome, false);
  }

  // ---------------------------------------------------------------------------
  // Get, update, delete.

  /** `get_transaction`. */
  function GetTransaction(txs: map<Id, Transaction>, userId: Id, id: Id): (r: Result<Transaction>)
    ensures r.Ok? <==> OwnedLiveTx(txs, userId, id)
    ensures r.Ok? ==> r.value == txs[id]
    ensures r.Err? ==> r.error == NotFound("Transaction not found")
  {
    if OwnedLiveTx(txs, userId, id) then Ok(txs[id]) else Err(NotFound("Transaction not found"))
  }

  /** `TransactionUpdate` as `model_dump(exclude_unset=True)` gives it: each field
      not sent, sent as null, or sent with a value. The four special-type fields are
      plain Python attributes on the row, never stored, and are left out. */
  datatype TransactionUpdate = TransactionUpdate(
    walletId: Field<Id>,
    categoryId: Field<Id>,
    paymentMethodId: Field<Id>,
    amount: Field<Cents>,
    title: Field<string>,
    notes: Field<string>,
    date: Field<DateTime>,
    isIncome: Field<bool>,
    receiptImageUrl: Field<string>)

  /** A null sent for a NOT NULL column: the wallet, amount, title, date or direction. */
  predicate NullOnRequired(u: TransactionUpdate) {
    u.walletId.Null? || u.amount.Null? || u.title.Null? || u.date.Null? || u.isIncome.Null?
  }

  /** The row after `setattr` of every sent field, or `None` when a null lands on a
      NOT NULL column. Such a row never reaches the database: a null amount makes
      the balance arithmetic raise `TypeError`, and any other null fails the commit. */
  function Updated(t: Transaction, u: TransactionUpdate): (r: Option<Transaction>)
    ensures r.None? <==> NullOnRequired(u)
    ensures r.Some? ==>
      var t' := r.value;
      t'.userId == t.userId && t'.kind == t.kind && t'.createdAt == t.createdAt && t'.deletedAt == t.deletedAt
      && t'.recurringConfigId == t.recurringConfigId && t'.pairedTransactionId == t.pairedTransactionId
      && (if u.walletId.Given? then t'.walletId == u.walletId.value else t'.walletId == t.walletId)
      && (if u.amount.Given? then t'.amount == u.amount.value else t'.amount == t.amount)
      && (if u.isIncome.Given? then t'.isIncome == u.isIncome.value else t'.isIncome == t.isIncome)
      && (u.categoryId.Null? ==> t'.categoryId.None?)
      && (u.paymentMethodId.Null? ==> t'.paymentMethodId.None?)
      && (u.notes.Null? ==> t'.notes.None?)
      && (u.receiptImageUrl.Null? ==> t'.receiptImageUrl.None?)
  {
    if NullOnRequired(u) then None
    else
      Some(t.(walletId := Put(u.walletId, t.walletId),
              categoryId := Assign(u.categoryId, t.categoryId),
              paymentMethodId := Assign(u.paymentMethodId, t.paymentMethodId),
              amount := Put(u.amount, t.amount),
              title := Put(u.title, t.title),
              notes := Assign(u.notes, t.notes),
              date := Put(u.date, t.date),
              isIncome := Put(u.isIncome, t.isIncome),
              receiptImageUrl := Assign(u.receiptImageUrl, t.receiptImageUrl)))
  }

  /** An update body that sends only nulls for the nullable links and texts clears
      them and changes nothing else of the row, so the balances are untouched. */
  lemma NullsClearLinks(ws: map<Id, Wallet>, t: Transaction)
    ensures var u := TransactionUpdate(Absent, Null, Null, Absent, Absent, Null, Absent, Absent, Null);
      var r := Updated(t, u);
      r == Some(t.(categoryId := None, paymentMethodId := None, notes := None, receiptImageUrl := None))
      && Adjusted(Adjusted(ws, t.walletId, t.amount, t.isIncome, true),
                  r.value.walletId, r.value.amount, r.value.isIncome, false) == ws
  {
    var u := TransactionUpdate(Absent, Null, Null, Absent, Absent, Null, Absent, Absent, Null);
    UnchangedTripleNetsZero(ws, t, u);
  }

  /** `update_transaction`: the old (wallet, amount, direction) is reversed on the old
      wallet and the new one applied on the new wallet, which is not checked for
      ownership or deletion. A null on a NOT NULL field, or a wallet id with no row
      (the foreign key at commit), fails the request and everything is rolled back. */
  method UpdateTransaction(db: Db, userId: Id, id: Id, u: TransactionUpdate) returns (r: Result<Transaction>)
    requires db.Valid() && WalletsExist(db.wallets, db.transactions)
    modifies db`transactions, db`wallets
    ensures db.Valid() && WalletsExist(db.wallets, db.transactions)
    ensures !OwnedLiveTx(old(db.transactions), userId, id) ==>
      r == Err(NotFound("Transaction not found"))
    ensures r.Err? ==> db.transactions == old(db.transactions) && db.wallets == old(db.wallets)
    ensures OwnedLiveTx(old(db.transactions), userId, id) ==>
      var t := old(db.transactions)[id];
      var t' := Updated(t, u);
      (r.Ok? <==> t'.Some? && t'.value.walletId in old(db.wallets))
      && (t'.None? ==> r == Err(ServerError("Internal server error")))
      && (t'.Some? && r.Err? ==> r == Err(ServerError("foreign key violation on wallet_id")))
      && (r.Ok? ==>
            r.value == t'.value && db.transactions == old(db.transactions)[id := t'.value]
            && db.wallets == Adjusted(Adjusted(old(db.wallets), t.walletId, t.amount, t.isIncome, true),
                                      t'.value.walletId, t'.value.amount, t'.value.isIncome, false))
  {
    if !OwnedLiveTx(db.transactions, userId, id) {
      return Err(NotFound("Transaction not found"));
    }
    var t := db.transactions[id];
    var updated := Updated(t, u);
    if updated.None? {
      return Err(ServerError("Internal server error"));
    }
    var t' := updated.value;
    if t'.walletId !in db.wallets {
      return Err(ServerError("foreign key violation on wallet_id"));
    }
    db.transactions := db.transactions[id := t'];
    UpdateWalletBalance(db, t.walletId, t.amount, t.isIncome, true);
    UpdateWalletBalance(db, t'.walletId, t'.amount, t'.isIncome, false);
    r := Ok(t');
  }

  lemma UpdateKeepsDrift(ws: map<Id, Wallet>, txs: map<Id, Transaction>, id: Id, t': Transaction)
    requires id in txs && txs[id].deletedAt.None? && t'.deletedAt.None?
    requires txs[id].walletId in ws && t'.walletId in ws
    ensures var t := txs[id];
      var ws' := Adjusted(Adjusted(ws, t.walletId, t.amount, t.isIncome, true), t'.walletId, t'.amount, t'.isIncome, false);
      forall w :: w in ws ==> w in ws' && Drift(ws', txs[id := t'], w) == Drift(ws, txs, w)
  {
    var t := txs[id];
    var ws' := Adjusted(Adjusted(ws, t.walletId, t.amount, t.isIncome, true), t'.walletId, t'.amount, t'.isIncome, false);
    forall w | w in ws ensures w in ws' && Drift(ws', txs[id := t'], w) == Drift(ws, txs, w) {
      PutKeepsDrift(ws, txs, id, t', ws', w);
    }
  }

  /** An update that leaves (wallet, amount, direction) as they were nets to zero on
      every balance. */
  lemma UnchangedTripleNetsZero(ws: map<Id, Wallet>, t: Transaction, u: TransactionUpdate)
    requires Updated(t, u).Some?
    requires Updated(t, u).value.walletId == t.walletId && Updated(t, u).value.amount == t.amount
    requires Updated(t, u).value.isIncome == t.isIncome
    ensures Adjusted(Adjusted(ws, t.walletId, t.amount, t.isIncome, true), t.walletId, t.amount, t.isIncome, false) == ws
  {
    if t.walletId in ws {
      var w := ws[t.walletId];
      assert w.(balance := w.balance + Delta(t.amount, t.isIncome, true) + Delta(t.amount, t.isIncome, false)) == w;
    }
  }

  /** `delete_transaction`: the effect is reversed and the row soft-deleted; a row
      already deleted is not found. */
  method DeleteTransaction(db: Db, userId: Id, id: Id, now: Instant) returns (r: Result<()>)
    requires db.Valid() && WalletsExist(db.wallets, db.transactions)
    modifies db`transactions, db`wallets
    ensures db.Valid() && WalletsExist(db.wallets, db.transactions)
    ensures r.Ok? <==> OwnedLiveTx(old(db.transactions), userId, id)
    ensures r.Err? ==>
      r == Err(NotFound("Transaction not found"))
      && db.transactions == old(db.transactions) && db.wallets == old(db.wallets)
    ensures r.Ok? ==>
      var t := old(db.transactions)[id];
      db.transactions == old(db.transactions)[id := t.(deletedAt := Some(now))]
      && db.wallets == Adjusted(old(db.wallets), t.walletId, t.amount, t.isIncome, true)
      && !OwnedLiveTx(db.transactions, userId, id)
  {
    if !OwnedLiveTx(db.transactions, userId, id) {
      return Err(NotFound("Transaction not found"));
    }
    var t := db.transactions[id];
    UpdateWalletBalance(db, t.walletId, t.amount, t.isIncome, true);
    db.transactions := db.transactions[id := t.(deletedAt := Some(now))];
    r := Ok(());
  }

  lemma DeleteKeepsDrift(ws: map<Id, Wallet>, txs: map<Id, Transaction>, id: Id, now: Instant)
    requires id in txs && txs[id].deletedAt.None? && txs[id].walletId in ws
    ensures var t := txs[id];
      var ws' := Adjusted(ws, t.walletId, t.amount, t.isIncome, true);
      forall w :: w in ws ==> w in ws' && Drift(ws', txs[id := t.(deletedAt := Some(now))], w) == Drift(ws, txs, w)
  {
    var t := txs[id];
    var ws' := Adjusted(ws, t.walletId, t.amount, t.isIncome, true);
    forall w | w in ws ensures w in ws' && Drift(ws', txs[id := t.(deletedAt := Some(now))], w) == Drift(ws, txs, w) {
      PutKeepsDrift(ws, txs, id, t.(deletedAt := Some(now)), ws', w);
    }
  }

  // ---------------------------------------------------------------------------
  // The list filter.

  /** The query parameters of `list_transactions`; `None` is a parameter not given. */
  datatype Filter = Filter(
    walletId: Option<Id>,
    categoryId: Option<Id>,
    paymentMethodId: Option<Id>,
    isIncome: Option<bool>,
    kind: Option<TransactionType>,
    startDate: Option<DateTime>,
    endDate: Option<DateTime>,
    minAmount: Option<Cents>,
    maxAmount: Option<Cents>,
    search: Option<string>)

  const NoFilter := Filter(None, None, None, None, None, None, None, None, None, None)

  /** `ilike '%s%'`: a case-insensitive substring test. */
  predicate ILikeContains(s: string, text: string) {
    IsSubstring(Lower(s), Lower(text))
  }

  /** One row against the filters, combined by AND. Each `if param:` tests Python
      truthiness, so a zero amount bound and an empty search are not applied. */
  predicate Matches(t: Transaction, f: Filter) {
    (f.walletId.None? || t.walletId == f.walletId.value)
    && (f.categoryId.None? || t.categoryId == Some(f.categoryId.value))
    && (f.paymentMethodId.None? || t.paymentMethodId == Some(f.paymentMethodId.value))
    && (f.isIncome.None? || t.isIncome == f.isIncome.value)
    && (f.kind.None? || t.kind == f.kind.value)
    && (f.startDate.None? || DateTimeLe(f.startDate.value, t.date))
    && (f.endDate.None? || DateTimeLe(t.date, f.endDate.value))
    && (f.minAmount.None? || f.minAmount.value == 0 || t.amount >= f.minAmount.value)
    && (f.maxAmount.None? || f.maxAmount.value == 0 || t.amount <= f.maxAmount.value)
    && (f.search.None? || f.search.value == ""
        || ILikeContains(f.search.value, t.title)
        || (t.notes.Some? && ILikeContains(f.search.value, t.notes.value)))
  }

  /** The rows the list query selects (its `total`); order and paging are left out. */
  function Listed(txs: map<Id, Transaction>, userId: Id, f: Filter): (r: set<Id>)
    ensures forall k :: k in r <==> OwnedLiveTx(txs, userId, k) && Matches(txs[k], f)
  {
    set k | k in txs && OwnedLiveTx(txs, userId, k) && Matches(txs[k], f)
  }

  /** With no filter the list is every live row of the caller. */
  lemma ListUnfiltered(txs: map<Id, Transaction>, userId: Id)
    ensures Listed(txs, userId, NoFilter) == set k | k in txs && OwnedLiveTx(txs, userId, k)
  {
  }

  /** A zero amount bound is ignored, as if it had not been given. */
  lemma ZeroBoundsIgnored(txs: map<Id, Transaction>, userId: Id, f: Filter)
    ensures Listed(txs, userId, f.(minAmount := Some(0))) == Listed(txs, userId, f.(minAmount := None))
    ensures Listed(txs, userId, f.(maxAmount := Some(0))) == Listed(txs, userId, f.(maxAmount := None))
  {
  }

  /** Adding a filter only narrows the list: the filters combine by AND. */
  lemma FiltersNarrow(txs: map<Id, Transaction>, userId: Id, f: Filter, w: Id)
    requires f.walletId.None?
    ensures Listed(txs, userId, f.(walletId := Some(w)))
      == set k | k in Listed(txs, userId, f) && txs[k].walletId == w
  {
  }

  /** Searching is case-insensitive. */
  lemma SearchIgnoresCase(txs: map<Id, Transaction>, userId: Id, f: Filter, s: string)
    ensures Listed(txs, userId, f.(search := Some(s))) == Listed(txs, userId, f.(search := Some(Lower(s))))
  {
    forall k | k in txs
      ensures Matches(txs[k], f.(search := Some(s))) == Matches(txs[k], f.(search := Some(Lower(s))))
    {
      LowerIsLower(s);
      assert |Lower(s)| == |s|;
    }
  }
}
