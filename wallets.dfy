/** Wallets: at most one default wallet per user, kept so by create and update
    clearing the flag on the user's other wallets; soft deletes that never remove a
    user's last wallet; and the default-wallet lookup with its fallback. */
module WalletsApi {
  import opened Wrappers
  import opened Fields
  import opened DateTimes
  import opened Uuid
  import opened Store

  // ---------------------------------------------------------------------------
  // The default flag.

  /** No user has two wallets flagged default, deleted ones included. */
  predicate OneDefault(wallets: map<Id, Wallet>) {
    forall a, b ::
      a in wallets && b in wallets && wallets[a].userId == wallets[b].userId && wallets[a].isDefault && wallets[b].isDefault ==>
        a == b
  }

  /** The user's wallets flagged default. */
  function Defaults(wallets: map<Id, Wallet>, userId: Id): set<Id> {
    set k | k in wallets && wallets[k].userId == userId && wallets[k].isDefault
  }

  /** `.filter(user_id, [id != keep], is_default).update({"is_default": False})`.
      The payment-method endpoints repeat this rule on their own table, and it is
      stated once per table, as the source writes it once per router. */
  function ClearDefaults(wallets: map<Id, Wallet>, userId: Id, keep: Option<Id>): (r: map<Id, Wallet>)
    ensures r.Keys == wallets.Keys
    ensures forall k :: k in r ==>
      r[k] == (if wallets[k].userId == userId && keep != Some(k) then wallets[k].(isDefault := false) else wallets[k])
  {
    map k | k in wallets :: if wallets[k].userId == userId && keep != Some(k) then wallets[k].(isDefault := false) else wallets[k]
  }

  // ---------------------------------------------------------------------------
  // `create_wallet`.

  /** `WalletCreate`; icon and colour are display fields the model does not keep. */
  datatype WalletCreate = WalletCreate(name: string, currency: string, balance: Cents, isDefault: bool, orderIndex: int)

  function NewWallet(userId: Id, b: WalletCreate, now: Instant): Wallet {
    Wallet(userId, b.name, b.currency, b.balance, b.isDefault, b.orderIndex, now, None)
  }

  /** The wallet table after a create that stores the new wallet under `id`. */
  function Created(wallets: map<Id, Wallet>, userId: Id, b: WalletCreate, id: Id, now: Instant): map<Id, Wallet> {
    (if b.isDefault then ClearDefaults(wallets, userId, None) else wallets)[id := NewWallet(userId, b, now)]
  }

  /** A default wallet created is the user's only default; otherwise the flags are as
      they were. Other users' wallets never change, and one default per user holds. */
  lemma CreatedSpec(wallets: map<Id, Wallet>, userId: Id, b: WalletCreate, id: Id, now: Instant)
    requires id !in wallets
    ensures var m := Created(wallets, userId, b, id, now);
      m.Keys == wallets.Keys + {id} && m[id] == NewWallet(userId, b, now)
      && (b.isDefault ==> Defaults(m, userId) == {id})
      && (!b.isDefault ==> Defaults(m, userId) == Defaults(wallets, userId))
      && (forall k :: k in wallets && wallets[k].userId != userId ==> m[k] == wallets[k])
      && (forall k :: k in wallets ==> m[k] == wallets[k].(isDefault := m[k].isDefault))
      && (OneDefault(wallets) ==> OneDefault(m))
  {
    var m := Created(wallets, userId, b, id, now);
    if b.isDefault {
      assert Defaults(m, userId) == {id};
    } else {
      assert Defaults(m, userId) == Defaults(wallets, userId);
    }
    if OneDefault(wallets) {
      forall p, q | p in m && q in m && m[p].userId == m[q].userId && m[p].isDefault && m[q].isDefault
        ensures p == q
      {
        if p != id && q != id {
          assert wallets[p].isDefault && wallets[q].isDefault;
        }
      }
    }
  }

  method CreateWallet(db: Db, userId: Id, b: WalletCreate, now: Instant) returns (id: Id)
    requires db.Valid()
    modifies db`wallets, db`nextId
    ensures db.Valid() && id == old(db.nextId) && id !in old(db.wallets)
    ensures db.wallets == Created(old(db.wallets), userId, b, id, now)
  {
    if b.isDefault {
      db.wallets := ClearDefaults(db.wallets, userId, None);
    }
    id := db.NewId();
    db.wallets := db.wallets[id := NewWallet(userId, b, now)];
  }

  // ---------------------------------------------------------------------------
  // Lookups.

  predicate OwnedLive(wallets: map<Id, Wallet>, userId: Id, id: Id) {
    id in wallets && wallets[id].userId == userId && wallets[id].deletedAt.None?
  }

  /** The user's live wallets: what `list_wallets` returns, and what the last-wallet
      guard counts. */
  function LiveIds(wallets: map<Id, Wallet>, userId: Id): set<Id> {
    set k | k in wallets && OwnedLive(wallets, userId, k)
  }

  /** `get_wallet`: deleted wallets and other users' wallets are "not found". */
  function GetWallet(wallets: map<Id, Wallet>, userId: Id, id: Id): (r: Result<Wallet>)
    ensures r.Ok? <==> id in LiveIds(wallets, userId)
    ensures r.Ok? ==> r.value == wallets[id]
    ensures r.Err? ==> r.error == NotFound("Wallet not found")
  {
    if OwnedLive(wallets, userId, id) then Ok(wallets[id]) else Err(NotFound("Wallet not found"))
  }

  /** The earliest-created wallet of `s`; among equal creation times, the lowest id. */
  function Earliest(wallets: map<Id, Wallet>, s: set<Id>): (r: Id)
    requires s != {} && s <= wallets.Keys
    ensures r in s
    ensures forall k :: k in s ==>
      wallets[r].createdAt < wallets[k].createdAt || (wallets[r].createdAt == wallets[k].createdAt && r <= k)
    decreases |s|
  {
    var m := MinId(s);
    if s == {m} then m
    else
      var r := Earliest(wallets, s - {m});
      if wallets[r].createdAt < wallets[m].createdAt then r else m
  }

  /** `get_default_wallet`: the live default wallet, else the earliest-created live
      wallet, else "No wallets found". */
  function DefaultWallet(wallets: map<Id, Wallet>, userId: Id): Result<Id> {
    var defaults := set k | k in wallets && OwnedLive(wallets, userId, k) && wallets[k].isDefault;
    if defaults != {} then Ok(MinId(defaults))
    else
      var live := LiveIds(wallets, userId);
      if live != {} then Ok(Earliest(wallets, live))
      else Err(NotFound("No wallets found"))
  }

  /** The lookup fails exactly when the user has no live wallet. It answers a live
      wallet of the user: the default one when there is one, and otherwise one created
      no later than any other. */
  lemma DefaultWalletSpec(wallets: map<Id, Wallet>, userId: Id)
    ensures var r := DefaultWallet(wallets, userId);
      (r.Err? <==> LiveIds(wallets, userId) == {})
      && (r.Err? ==> r.error == NotFound("No wallets found"))
      && (r.Ok? ==> OwnedLive(wallets, userId, r.value))
      && (r.Ok? && (exists k :: OwnedLive(wallets, userId, k) && wallets[k].isDefault) ==> wallets[r.value].isDefault)
      && (r.Ok? && !wallets[r.value].isDefault ==>
            forall k :: OwnedLive(wallets, userId, k) ==> wallets[r.value].createdAt <= wallets[k].createdAt)
      && (OneDefault(wallets) && r.Ok? ==>
            forall k :: OwnedLive(wallets, userId, k) && wallets[k].isDefault ==> r.value == k)
  {
    var defaults := set k | k in wallets && OwnedLive(wallets, userId, k) && wallets[k].isDefault;
    var live := LiveIds(wallets, userId);
    if defaults == {} {
      assert forall k :: OwnedLive(wallets, userId, k) ==> k in live;
      assert forall k :: OwnedLive(wallets, userId, k) && wallets[k].isDefault ==> k in defaults;
    } else {
      var d := MinId(defaults);
      assert d in defaults;
    }
  }

  // ---------------------------------------------------------------------------
  // `update_wallet`.

  /** `WalletUpdate`: each field left out, sent as null or given. */
  datatype WalletUpdate = WalletUpdate(name: Field<string>, currency: Field<string>, isDefault: Field<bool>,
                                       orderIndex: Field<int>)

  /** Every column the update can write is NOT NULL, so a null anywhere fails the
      commit, which also rolls back the clearing of the other defaults. */
  predicate SendsNull(u: WalletUpdate) {
    u.name.Null? || u.currency.Null? || u.isDefault.Null? || u.orderIndex.Null?
  }

  function Patched(w: Wallet, u: WalletUpdate): Wallet
    requires !SendsNull(u)
  {
    w.(name := Put(u.name, w.name),
       currency := Put(u.currency, w.currency),
       isDefault := Put(u.isDefault, w.isDefault),
       orderIndex := Put(u.orderIndex, w.orderIndex))
  }

  /** The wallet table after a successful update of the user's live wallet `id`. */
  function Updated(wallets: map<Id, Wallet>, userId: Id, id: Id, u: WalletUpdate): map<Id, Wallet>
    requires id in wallets && !SendsNull(u)
  {
    var cleared := if IsTrue(u.isDefault) then ClearDefaults(wallets, userId, Some(id)) else wallets;
    cleared[id := Patched(wallets[id], u)]
  }

  /** Setting the flag makes the wallet the user's only default; clearing or leaving
      it keeps the other flags. One default per user holds throughout. */
  lemma UpdatedSpec(wallets: map<Id, Wallet>, userId: Id, id: Id, u: WalletUpdate)
    requires OwnedLive(wallets, userId, id) && !SendsNull(u)
    ensures var m := Updated(wallets, userId, id, u);
      m.Keys == wallets.Keys && m[id] == Patched(wallets[id], u)
      && (IsTrue(u.isDefault) ==> Defaults(m, userId) == {id})
      && (!IsTrue(u.isDefault) ==> Defaults(m, userId) - {id} == Defaults(wallets, userId) - {id})
      && (forall k :: k in wallets && wallets[k].userId != userId ==> m[k] == wallets[k])
      && (OneDefault(wallets) ==> OneDefault(m))
  {
    var m := Updated(wallets, userId, id, u);
    if IsTrue(u.isDefault) {
      assert Defaults(m, userId) == {id};
    } else {
      assert Defaults(m, userId) - {id} == Defaults(wallets, userId) - {id};
    }
    if OneDefault(wallets) {
      forall p, q | p in m && q in m && m[p].userId == m[q].userId && m[p].isDefault && m[q].isDefault
        ensures p == q
      {
        if p != id && q != id {
          assert wallets[p].isDefault && wallets[q].isDefault;
        }
      }
    }
  }

  method UpdateWallet(db: Db, userId: Id, id: Id, u: WalletUpdate) returns (r: Result<Wallet>)
    modifies db`wallets
    ensures r.Ok? <==> OwnedLive(old(db.wallets), userId, id) && !SendsNull(u)
    ensures !OwnedLive(old(db.wallets), userId, id) ==> r == Err(NotFound("Wallet not found"))
    ensures OwnedLive(old(db.wallets), userId, id) && SendsNull(u) ==> r == Err(ServerError("Internal server error"))
    ensures r.Err? ==> db.wallets == old(db.wallets)
    ensures r.Ok? ==> db.wallets == Updated(old(db.wallets), userId, id, u) && r.value == db.wallets[id]
  {
    if !OwnedLive(db.wallets, userId, id) {
      return Err(NotFound("Wallet not found"));
    }
    if SendsNull(u) {
      return Err(ServerError("Internal server error"));
    }
    var w := db.wallets[id];
    if IsTrue(u.isDefault) {
      db.wallets := ClearDefaults(db.wallets, userId, Some(id));
    }
    db.wallets := db.wallets[id := Patched(w, u)];
    r := Ok(db.wallets[id]);
  }

  // ---------------------------------------------------------------------------
  // `delete_wallet`: refused for the last live wallet.

  function Delete(wallets: map<Id, Wallet>, userId: Id, id: Id, now: Instant): Result<map<Id, Wallet>> {
    if !OwnedLive(wallets, userId, id) then Err(NotFound("Wallet not found"))
    else if |LiveIds(wallets, userId)| <= 1 then Err(BadRequest("Cannot delete the last wallet"))
    else Ok(wallets[id := wallets[id].(deletedAt := Some(now))])
  }

  /** A delete succeeds only while another live wallet remains, so a user who has a
      live wallet keeps one; the deleted wallet leaves the list and nothing else
      does. */
  lemma DeleteSpec(wallets: map<Id, Wallet>, userId: Id, id: Id, now: Instant)
    ensures var r := Delete(wallets, userId, id, now);
      (r.Ok? <==> OwnedLive(wallets, userId, id) && |LiveIds(wallets, userId)| >= 2)
      && (r.Err? && OwnedLive(wallets, userId, id) ==> r.error == BadRequest("Cannot delete the last wallet"))
      && (r.Ok? ==>
            LiveIds(r.value, userId) == LiveIds(wallets, userId) - {id}
            && |LiveIds(r.value, userId)| == |LiveIds(wallets, userId)| - 1 >= 1)
  {
    var r := Delete(wallets, userId, id, now);
    if r.Ok? {
      assert id in LiveIds(wallets, userId);
      assert LiveIds(r.value, userId) == LiveIds(wallets, userId) - {id};
    }
  }

  method DeleteWallet(db: Db, userId: Id, id: Id, now: Instant) returns (r: Result<()>)
    modifies db`wallets
    ensures var d := Delete(old(db.wallets), userId, id, now);
      (r.Ok? <==> d.Ok?) && (r.Err? ==> r == Err(d.error) && db.wallets == old(db.wallets))
      && (r.Ok? ==> db.wallets == d.value)
  {
    if !OwnedLive(db.wallets, userId, id) {
      return Err(NotFound("Wallet not found"));
    }
    var count := |LiveIds(db.wallets, userId)|;
    if count <= 1 {
      return Err(BadRequest("Cannot delete the last wallet"));
    }
    db.wallets := db.wallets[id := db.wallets[id].(deletedAt := Some(now))];
    r := Ok(());
  }
}
