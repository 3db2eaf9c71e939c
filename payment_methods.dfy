/** Payment methods: at most one default per user, kept so by create and update
    clearing the flag on the user's other methods; soft deletes after which the
    method is "not found" everywhere. */
module PaymentMethodsApi {
  import opened Wrappers
  import opened Fields
  import opened DateTimes
  import opened Uuid
  import opened Store

  /** No user has two payment methods flagged default, deleted ones included. */
  predicate OneDefault(methods: map<Id, PaymentMethod>) {
    forall a, b ::
      a in methods && b in methods && methods[a].userId == methods[b].userId && methods[a].isDefault && methods[b].isDefault ==>
        a == b
  }

  function Defaults(methods: map<Id, PaymentMethod>, userId: Id): set<Id> {
    set k | k in methods && methods[k].userId == userId && methods[k].isDefault
  }

  /** `.filter(user_id, [id != keep], is_default).update({"is_default": False})`.
      The wallet endpoints repeat this rule on their own table, and it is stated
      once per table, as the source writes it once per router. */
  function ClearDefaults(methods: map<Id, PaymentMethod>, userId: Id, keep: Option<Id>): (r: map<Id, PaymentMethod>)
    ensures r.Keys == methods.Keys
    ensures forall k :: k in r ==>
      r[k] == (if methods[k].userId == userId && keep != Some(k) then methods[k].(isDefault := false) else methods[k])
  {
    map k | k in methods :: if methods[k].userId == userId && keep != Some(k) then methods[k].(isDefault := false) else methods[k]
  }

  predicate OwnedLive(methods: map<Id, PaymentMethod>, userId: Id, id: Id) {
    id in methods && methods[id].userId == userId && methods[id].deletedAt.None?
  }

  // ---------------------------------------------------------------------------
  // `create_payment_method`.

  /** `PaymentMethodCreate`; the icon is a display field the model does not keep. */
  datatype MethodCreate = MethodCreate(name: string, isDefault: bool)

  function NewMethod(userId: Id, b: MethodCreate, now: Instant): PaymentMethod {
    PaymentMethod(userId, b.name, b.isDefault, now, None)
  }

  function Created(methods: map<Id, PaymentMethod>, userId: Id, b: MethodCreate, id: Id, now: Instant): map<Id, PaymentMethod> {
    (if b.isDefault then ClearDefaults(methods, userId, None) else methods)[id := NewMethod(userId, b, now)]
  }

  /** A default method created is the user's only default; otherwise the flags are as
      they were. Other users' methods never change, and one default per user holds. */
  lemma CreatedSpec(methods: map<Id, PaymentMethod>, userId: Id, b: MethodCreate, id: Id, now: Instant)
    requires id !in methods
    ensures var m := Created(methods, userId, b, id, now);
      m.Keys == methods.Keys + {id} && m[id] == NewMethod(userId, b, now)
      && (b.isDefault ==> Defaults(m, userId) == {id})
      && (!b.isDefault ==> Defaults(m, userId) == Defaults(methods, userId))
      && (forall k :: k in methods && methods[k].userId != userId ==> m[k] == methods[k])
      && (OneDefault(methods) ==> OneDefault(m))
  {
    var m := Created(methods, userId, b, id, now);
    if b.isDefault {
      assert Defaults(m, userId) == {id};
    } else {
      assert Defaults(m, userId) == Defaults(methods, userId);
    }
    if OneDefault(methods) {
      forall p, q | p in m && q in m && m[p].userId == m[q].userId && m[p].isDefault && m[q].isDefault
        ensures p == q
      {
        if p != id && q != id {
          assert methods[p].isDefault && methods[q].isDefault;
        }
      }
    }
  }

  method CreatePaymentMethod(db: Db, userId: Id, b: MethodCreate, now: Instant) returns (id: Id)
    requires db.Valid()
    modifies db`paymentMethods, db`nextId
    ensures db.Valid() && id == old(db.nextId) && id !in old(db.paymentMethods)
    ensures db.paymentMethods == Created(old(db.paymentMethods), userId, b, id, now)
  {
    if b.isDefault {
      db.paymentMethods := ClearDefaults(db.paymentMethods, userId, None);
    }
    id := db.NewId();
    db.paymentMethods := db.paymentMethods[id := NewMethod(userId, b, now)];
  }

  // ---------------------------------------------------------------------------
  // `list_payment_methods` and `get_payment_method`.

  /** The methods listed: the caller's live ones (ordering by name is not modelled). */
  function ListMethods(methods: map<Id, PaymentMethod>, userId: Id): (r: set<Id>)
    ensures forall k :: k in r <==> OwnedLive(methods, userId, k)
  {
    set k | k in methods && OwnedLive(methods, userId, k)
  }

  function GetMethod(methods: map<Id, PaymentMethod>, userId: Id, id: Id): (r: Result<PaymentMethod>)
    ensures r.Ok? <==> id in ListMethods(methods, userId)
    ensures r.Ok? ==> r.value == methods[id]
    ensures r.Err? ==> r.error == NotFound("Payment method not found")
  {
    if OwnedLive(methods, userId, id) then Ok(methods[id]) else Err(NotFound("Payment method not found"))
  }

  // ---------------------------------------------------------------------------
  // `update_payment_method`.

  /** `PaymentMethodUpdate`: each field left out, sent as null or given. */
  datatype MethodUpdate = MethodUpdate(name: Field<string>, isDefault: Field<bool>)

  /** Both columns the update can write are NOT NULL, so a null fails the commit,
      which also rolls back the clearing of the other defaults. */
  predicate SendsNull(u: MethodUpdate) {
    u.name.Null? || u.isDefault.Null?
  }

  function Patched(p: PaymentMethod, u: MethodUpdate): PaymentMethod
    requires !SendsNull(u)
  {
    p.(name := Put(u.name, p.name),
       isDefault := Put(u.isDefault, p.isDefault))
  }

  /** The method table after a successful update of the user's live method `id`. */
  function Updated(methods: map<Id, PaymentMethod>, userId: Id, id: Id, u: MethodUpdate): map<Id, PaymentMethod>
    requires id in methods && !SendsNull(u)
  {
    var cleared := if IsTrue(u.isDefault) then ClearDefaults(methods, userId, Some(id)) else methods;
    cleared[id := Patched(methods[id], u)]
  }

  /** Setting the flag makes the method the user's only default; clearing or leaving
      it keeps the other flags. One default per user holds throughout. */
  lemma UpdatedSpec(methods: map<Id, PaymentMethod>, userId: Id, id: Id, u: MethodUpdate)
    requires OwnedLive(methods, userId, id) && !SendsNull(u)
    ensures var m := Updated(methods, userId, id, u);
      m.Keys == methods.Keys && m[id] == Patched(methods[id], u)
      && (IsTrue(u.isDefault) ==> Defaults(m, userId) == {id})
      && (!IsTrue(u.isDefault) ==> Defaults(m, userId) - {id} == Defaults(methods, userId) - {id})
      && (forall k :: k in methods && methods[k].userId != userId ==> m[k] == methods[k])
      && (OneDefault(methods) ==> OneDefault(m))
  {
    var m := Updated(methods, userId, id, u);
    if IsTrue(u.isDefault) {
      assert Defaults(m, userId) == {id};
    } else {
      assert Defaults(m, userId) - {id} == Defaults(methods, userId) - {id};
    }
    if OneDefault(methods) {
      forall p, q | p in m && q in m && m[p].userId == m[q].userId && m[p].isDefault && m[q].isDefault
        ensures p == q
      {
        if p != id && q != id {
          assert methods[p].isDefault && methods[q].isDefault;
        }
      }
    }
  }

  method UpdatePaymentMethod(db: Db, userId: Id, id: Id, u: MethodUpdate) returns (r: Result<PaymentMethod>)
    modifies db`paymentMethods
    ensures r.Ok? <==> OwnedLive(old(db.paymentMethods), userId, id) && !SendsNull(u)
    ensures !OwnedLive(old(db.paymentMethods), userId, id) ==> r == Err(NotFound("Payment method not found"))
    ensures OwnedLive(old(db.paymentMethods), userId, id) && SendsNull(u) ==> r == Err(ServerError("Internal server error"))
    ensures r.Err? ==> db.paymentMethods == old(db.paymentMethods)
    ensures r.Ok? ==> db.paymentMethods == Updated(old(db.paymentMethods), userId, id, u) && r.value == db.paymentMethods[id]
  {
    if !OwnedLive(db.paymentMethods, userId, id) {
      return Err(NotFound("Payment method not found"));
    }
    if SendsNull(u) {
      return Err(ServerError("Internal server error"));
    }
    var p := db.paymentMethods[id];
    if IsTrue(u.isDefault) {
      db.paymentMethods := ClearDefaults(db.paymentMethods, userId, Some(id));
    }
    db.paymentMethods := db.paymentMethods[id := Patched(p, u)];
    r := Ok(db.paymentMethods[id]);
  }

  // ---------------------------------------------------------------------------
  // `delete_payment_method`: a soft delete.

  method DeletePaymentMethod(db: Db, userId: Id, id: Id, now: Instant) returns (r: Result<()>)
    modifies db`paymentMethods
    ensures r.Ok? <==> OwnedLive(old(db.paymentMethods), userId, id)
    ensures r.Err? ==> r == Err(NotFound("Payment method not found")) && db.paymentMethods == old(db.paymentMethods)
    ensures r.Ok? ==> db.paymentMethods == old(db.paymentMethods)[id := old(db.paymentMethods)[id].(deletedAt := Some(now))]
  {
    if !OwnedLive(db.paymentMethods, userId, id) {
      return Err(NotFound("Payment method not found"));
    }
    db.paymentMethods := db.paymentMethods[id := db.paymentMethods[id].(deletedAt := Some(now))];
    r := Ok(());
  }

  /** Once deleted, a method is "not found" for get, and so for update and delete,
      which look it up the same way; it leaves the list and nothing else does. */
  lemma DeletedNotFound(methods: map<Id, PaymentMethod>, userId: Id, id: Id, now: Instant)
    requires OwnedLive(methods, userId, id)
    ensures var m := methods[id := methods[id].(deletedAt := Some(now))];
      GetMethod(m, userId, id) == Err(NotFound("Payment method not found"))
      && !OwnedLive(m, userId, id)
      && ListMethods(m, userId) == ListMethods(methods, userId) - {id}
  {
    var m := methods[id := methods[id].(deletedAt := Some(now))];
    assert GetMethod(m, userId, id).Err?;
  }
}
