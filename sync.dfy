/** The offline-sync endpoints (`/sync/status`, `/sync/push`, `/sync/pull`). They
    work on any of eight tables through the model class found by name, reading and
    writing attributes by name, so the model keeps those tables as generic rows:
    a map from column name to value, per row id. */
module Sync {
  import opened Wrappers
  import opened Calendar
  import opened DateTimes
  import opened Uuid
  import opened Store

  /** A Python date or datetime object: always within Python's ranges. */
  type PyDate = d: Date | InPythonRange(d) witness Date(1, 1, 1)
  type PyDateTime = dt: DateTime | ValidDateTime(dt) witness DateTime(Date(1, 1, 1), 0, 0, 0, 0, None)

  /** A column value: what JSON carries, plus the ids, datetimes and dates the
      server itself stores. */
  datatype Value =
    | Null
    | Bool(b: bool)
    | Int(i: int)
    | Num(r: real)
    | Str(s: string)
    | List(items: seq<Value>)
    | Key(id: Id)
    | Stamp(dt: PyDateTime)
    | Day(d: PyDate)

  /** The columns of one row other than its primary key `id`, which is the row's key
      in its table. */
  type Row = map<string, Value>

  /** `TABLE_MODELS`, in its order. */
  const TableNames: seq<string> := [
    "categories", "wallets", "transactions", "budgets",
    "objectives", "recurring_configs", "associated_titles", "payment_methods"]

  predicate IsTable(t: string) { t in TableNames }

  /** What the endpoints use of a model class: its columns, in declaration order,
      and its read-only properties, which `hasattr` finds but `setattr` refuses. */
  datatype Model = Model(columns: seq<string>, readOnly: set<string>)

  /** `hasattr(record, 'deleted_at')`. */
  predicate SoftDeletes(m: Model) { "deleted_at" in m.columns }

  /** `TABLE_MODELS.get(t)`, each model given by its columns and its properties. */
  function TableModel(t: string): (m: Option<Model>)
    ensures m.Some? <==> IsTable(t)
  {
    if t == "categories" then
      Some(Model(["id", "user_id", "name", "icon_name", "color", "main_category_id", "is_income", "order_index",
                  "created_at", "updated_at", "deleted_at"], {"is_subcategory", "is_deleted"}))
    else if t == "wallets" then
      Some(Model(["id", "user_id", "name", "icon_name", "color", "currency", "balance", "is_default", "order_index",
                  "created_at", "updated_at", "deleted_at"], {"is_deleted"}))
    else if t == "transactions" then
      Some(Model(["id", "user_id", "wallet_id", "category_id", "payment_method_id", "amount", "title", "notes",
                  "date", "is_income", "type", "paired_transaction_id", "recurring_config_id", "receipt_image_url",
                  "created_at", "updated_at", "deleted_at"], {"is_deleted", "is_transfer", "is_recurring_instance"}))
    else if t == "budgets" then
      Some(Model(["id", "user_id", "name", "amount", "period", "start_date", "end_date", "wallet_ids",
                  "category_ids", "is_income", "is_pinned", "is_archived", "created_at", "updated_at", "deleted_at"],
                 {"is_deleted"}))
    else if t == "objectives" then
      Some(Model(["id", "user_id", "wallet_id", "name", "icon_name", "color", "target_amount", "type", "start_date",
                  "end_date", "is_pinned", "is_archived", "created_at", "updated_at", "deleted_at"],
                 {"is_deleted", "is_goal", "is_loan"}))
    else if t == "recurring_configs" then
      Some(Model(["id", "user_id", "base_transaction_id", "period_length", "reoccurrence", "start_date",
                  "end_date", "next_occurrence", "is_active", "created_at", "updated_at"],
                 {"is_ended", "has_pending_occurrences"}))
    else if t == "associated_titles" then
      Some(Model(["id", "user_id", "title", "category_id", "is_exact_match", "created_at", "updated_at"], {}))
    else if t == "payment_methods" then
      Some(Model(["id", "user_id", "name", "icon_name", "is_default", "created_at", "updated_at", "deleted_at"],
                 {"is_deleted"}))
    else None
  }

  /** Recurring configurations and associated titles have no `deleted_at`: they are
      removed outright, while the other six tables are soft-deleted. */
  lemma HardDeleteTables()
    ensures !SoftDeletes(TableModel("recurring_configs").value)
    ensures !SoftDeletes(TableModel("associated_titles").value)
    ensures SoftDeletes(TableModel("categories").value) && SoftDeletes(TableModel("wallets").value)
    ensures SoftDeletes(TableModel("transactions").value) && SoftDeletes(TableModel("budgets").value)
    ensures SoftDeletes(TableModel("objectives").value) && SoftDeletes(TableModel("payment_methods").value)
  {
  }

  // ---------------------------------------------------------------------------
  // Push.

  /** One `SyncChange`, with the keys of `data` in the order the JSON object lists
      them, which is the order the update loop visits them in; `client_timestamp` is
      never read and is left out. */
  datatype Change = Change(id: Id, serverId: Option<Id>, action: string, data: Row, order: seq<string>)

  /** The order lists every key of the data. */
  predicate Ordered(c: Change) {
    forall k :: k in c.data ==> k in c.order
  }

  datatype SyncConflict = SyncConflict(clientId: Id, serverId: Id, clientData: Row, serverData: Row, conflictType: string)

  /** The table's rows, the id counter and the three response accumulators. */
  datatype PushState = PushState(
    rows: map<Id, Row>, next: Id, accepted: seq<Id>, conflicts: seq<SyncConflict>, idMapping: map<Id, Id>)

  /** The row `(id == server_id, user_id == caller)` exists. */
  predicate Owned(rows: map<Id, Row>, id: Id, userId: Id) {
    id in rows && "user_id" in rows[id] && rows[id]["user_id"] == Key(userId)
  }

  /** The row a create builds: the client's data with `sync_status` and `local_id`
      dropped and the owner forced to the caller; `None` when the model's constructor
      raises `TypeError` on a key that is not one of its attributes. */
  function CreateRow(m: Model, userId: Id, data: Row): (r: Option<Row>)
    ensures r.Some? <==> forall k :: k in data && k != "sync_status" && k != "local_id" ==> k in m.columns
    ensures r.Some? ==>
      "user_id" in r.value && r.value["user_id"] == Key(userId) && "id" !in r.value
      && "sync_status" !in r.value && "local_id" !in r.value
      && forall k :: k in data && k !in {"id", "user_id", "sync_status", "local_id"} ==>
           k in r.value && r.value[k] == data[k]
  {
    var kept := data - {"sync_status", "local_id"};
    if forall k :: k in kept ==> k in m.columns then Some((kept - {"id"})["user_id" := Key(userId)])
    else None
  }

  /** The keys an update pops from the data before its loop. */
  const Popped: set<string> := {"id", "user_id", "sync_status"}

  /** A key of the data the update loop writes: a column of the model. */
  predicate Settable(m: Model, data: Row, k: string) {
    k in data && k !in Popped && k in m.columns && k !in m.readOnly
  }

  /** A key of the data whose `setattr` raises: a read-only property. */
  predicate Refused(m: Model, data: Row, k: string) {
    k in data && k !in Popped && k in m.readOnly
  }

  /** The `setattr` loop of an update over the keys in order: each column is set, a
      key `hasattr` does not find is skipped, and the first read-only property raises,
      which ends the loop with the columns set so far still on the session object.
      The flag says whether it raised. Nothing compares timestamps, so the last write
      wins. */
  function SetAttrs(m: Model, row: Row, data: Row, keys: seq<string>): (Row, bool)
    decreases |keys|
  {
    if keys == [] then (row, false)
    else
      var (r, raised) := SetAttrs(m, row, data, keys[..|keys| - 1]);
      var k := keys[|keys| - 1];
      if raised || k !in data || k in Popped then (r, raised)
      else if k in m.readOnly then (r, true)
      else if k in m.columns then (r[k := data[k]], false)
      else (r, false)
  }

  /** Once the loop has raised, the later keys change nothing. */
  lemma {:induction false} RaisedStays(m: Model, row: Row, data: Row, keys: seq<string>, i: nat)
    requires i <= |keys| && SetAttrs(m, row, data, keys[..i]).1
    ensures SetAttrs(m, row, data, keys) == SetAttrs(m, row, data, keys[..i])
    decreases |keys| - i
  {
    if i < |keys| {
      var front := keys[..|keys| - 1];
      assert front[..i] == keys[..i];
      RaisedStays(m, row, data, front, i);
    } else {
      assert keys[..i] == keys;
    }
  }

  /** Without a read-only property among the keys the loop does not raise, sets
      exactly the columns among them and keeps every other column. */
  lemma {:induction false} SetAttrsClean(m: Model, row: Row, data: Row, keys: seq<string>)
    requires forall k :: k in keys ==> !Refused(m, data, k)
    ensures var (r, raised) := SetAttrs(m, row, data, keys);
      !raised
      && (forall col :: col in r <==> col in row || (col in keys && Settable(m, data, col)))
      && (forall col :: col in keys && Settable(m, data, col) ==> r[col] == data[col])
      && (forall col :: col in row && !(col in keys && Settable(m, data, col)) ==> r[col] == row[col])
    decreases |keys|
  {
    if keys != [] {
      var front := keys[..|keys| - 1];
      assert forall k :: k in front ==> k in keys;
      SetAttrsClean(m, row, data, front);
      var k := keys[|keys| - 1];
      assert k in keys;
      assert forall col :: col in keys <==> col in front || col == k by {
        assert keys == front + [k];
      }
    }
  }

  /** The first read-only property among the keys raises: the columns before it are
      set, and nothing after it is. */
  lemma FirstRefusedRaises(m: Model, row: Row, data: Row, keys: seq<string>, j: nat)
    requires j < |keys| && Refused(m, data, keys[j])
    requires forall i :: 0 <= i < j ==> !Refused(m, data, keys[i])
    ensures SetAttrs(m, row, data, keys) == (SetAttrs(m, row, data, keys[..j]).0, true)
  {
    var front := keys[..j];
    assert forall k :: k in front ==> !Refused(m, data, k);
    SetAttrsClean(m, row, data, front);
    assert keys[..j + 1][..j] == front;
    RaisedStays(m, row, data, keys, j + 1);
  }

  /** The update loop, key by key. */
  method SetAttributes(m: Model, row: Row, data: Row, keys: seq<string>) returns (r: Row, raised: bool)
    ensures (r, raised) == SetAttrs(m, row, data, keys)
  {
    r, raised := row, false;
    var i := 0;
    while i < |keys| && !raised
      invariant 0 <= i <= |keys|
      invariant (r, raised) == SetAttrs(m, row, data, keys[..i])
    {
      assert keys[..i + 1][..i] == keys[..i];
      var k := keys[i];
      if k in data && k !in Popped {
        if k in m.readOnly {
          raised := true;
        } else if k in m.columns {
          r := r[k := data[k]];
        }
      }
      i := i + 1;
    }
    if raised {
      RaisedStays(m, row, data, keys, i);
    } else {
      assert keys[..i] == keys;
    }
  }

  /** One pass of the loop body. An exception in the body (the constructor's
      `TypeError`, a conflict record that cannot hold a null `server_id`, or `setattr`
      of a read-only property) skips the change, keeping whatever happened before it
      was raised. */
  function Step(m: Model, userId: Id, now: PyDateTime, s: PushState, c: Change): (r: PushState)
  {
    if c.action == "create" then
      var serverId := s.next;
      match CreateRow(m, userId, c.data)
      case Some(row) =>
        s.(rows := s.rows[serverId := row], next := serverId + 1, accepted := s.accepted + [c.id],
           idMapping := s.idMapping[c.id := serverId])
      case None => s.(next := serverId + 1)
    else if c.action == "update" then
      if c.serverId.None? then s
      else if !Owned(s.rows, c.serverId.value, userId) then
        s.(conflicts := s.conflicts + [SyncConflict(c.id, c.serverId.value, c.data, map[], "delete_conflict")])
      else
        var id := c.serverId.value;
        var (row, raised) := SetAttrs(m, s.rows[id], c.data, c.order);
        s.(rows := s.rows[id := row], accepted := if raised then s.accepted else s.accepted + [c.id])
    else if c.action == "delete" then
      if c.serverId.None? || !Owned(s.rows, c.serverId.value, userId) then s
      else
        var id := c.serverId.value;
        var rows := if SoftDeletes(m) then s.rows[id := s.rows[id]["deleted_at" := Stamp(now)]] else s.rows - {id};
        s.(rows := rows, accepted := s.accepted + [c.id])
    else s
  }

  /** The changes applied one after another, in submission order. */
  function Fold(m: Model, userId: Id, now: PyDateTime, s: PushState, cs: seq<Change>): PushState
    decreases |cs|
  {
    if cs == [] then s else Step(m, userId, now, Fold(m, userId, now, s, cs[..|cs| - 1]), cs[|cs| - 1])
  }

  /** Pushing a batch in two parts is pushing it whole: one ordered pass in which a
      skipped change leaves the later ones to run on the state it left. */
  lemma {:induction false} FoldAppend(m: Model, userId: Id, now: PyDateTime, s: PushState, a: seq<Change>, b: seq<Change>)
    ensures Fold(m, userId, now, s, a + b) == Fold(m, userId, now, Fold(m, userId, now, s, a), b)
    decreases |b|
  {
    if b == [] {
      assert a + b == a;
    } else {
      assert (a + b)[..|a + b| - 1] == a + b[..|b| - 1];
      FoldAppend(m, userId, now, s, a, b[..|b| - 1]);
    }
  }

  /** Update of a row the caller does not own (or that is gone) is exactly one
      `delete_conflict` with empty server data, and nothing else happens. */
  lemma UpdateMissingConflicts(m: Model, userId: Id, now: PyDateTime, s: PushState, c: Change)
    requires c.action == "update" && c.serverId.Some? && !Owned(s.rows, c.serverId.value, userId)
    ensures var r := Step(m, userId, now, s, c);
      r.rows == s.rows && r.next == s.next && r.accepted == s.accepted && r.idMapping == s.idMapping
      && r.conflicts == s.conflicts + [SyncConflict(c.id, c.serverId.value, c.data, map[], "delete_conflict")]
  {
  }

  /** Update of an owned row without a read-only property in its data sets exactly
      the given columns, never `id`, `user_id` or `sync_status`, keeps every other
      column, and accepts the change. */
  lemma UpdateOwnedOverwrites(m: Model, userId: Id, now: PyDateTime, s: PushState, c: Change)
    requires c.action == "update" && c.serverId.Some? && Owned(s.rows, c.serverId.value, userId)
    requires Ordered(c) && forall k :: k in c.order ==> !Refused(m, c.data, k)
    ensures var r := Step(m, userId, now, s, c); var id := c.serverId.value;
      r.accepted == s.accepted + [c.id] && r.conflicts == s.conflicts && r.next == s.next
      && r.rows.Keys == s.rows.Keys && Owned(r.rows, id, userId)
      && (forall k :: k in s.rows && k != id ==> r.rows[k] == s.rows[k])
      && (forall col :: Settable(m, c.data, col) ==> col in r.rows[id] && r.rows[id][col] == c.data[col])
      && (forall col :: col in s.rows[id] && !Settable(m, c.data, col) ==>
            col in r.rows[id] && r.rows[id][col] == s.rows[id][col])
  {
    SetAttrsClean(m, s.rows[c.serverId.value], c.data, c.order);
  }

  /** Update whose data names a read-only property (`is_deleted`, say) raises in
      `setattr`: the change is neither accepted nor a conflict, yet the columns set
      before that key stay on the row and are committed with the rest of the push. */
  lemma UpdateReadOnlyRejected(m: Model, userId: Id, now: PyDateTime, s: PushState, c: Change, j: nat)
    requires c.action == "update" && c.serverId.Some? && Owned(s.rows, c.serverId.value, userId)
    requires j < |c.order| && Refused(m, c.data, c.order[j])
    requires forall i :: 0 <= i < j ==> !Refused(m, c.data, c.order[i])
    ensures var r := Step(m, userId, now, s, c); var id := c.serverId.value;
      var before := c.order[..j];
      r.accepted == s.accepted && r.conflicts == s.conflicts && r.next == s.next
      && r.rows.Keys == s.rows.Keys && Owned(r.rows, id, userId)
      && (forall k :: k in s.rows && k != id ==> r.rows[k] == s.rows[k])
      && (forall col :: col in before && Settable(m, c.data, col) ==> col in r.rows[id] && r.rows[id][col] == c.data[col])
      && (forall col :: col in s.rows[id] && !(col in before && Settable(m, c.data, col)) ==>
            col in r.rows[id] && r.rows[id][col] == s.rows[id][col])
  {
    var id := c.serverId.value;
    FirstRefusedRaises(m, s.rows[id], c.data, c.order, j);
    assert forall k :: k in c.order[..j] ==> !Refused(m, c.data, k);
    SetAttrsClean(m, s.rows[id], c.data, c.order[..j]);
  }

  /** Delete of an owned row stamps `deleted_at` where the model has it and removes
      the row otherwise; delete of anything else is neither accepted nor a conflict. */
  lemma DeleteRule(m: Model, userId: Id, now: PyDateTime, s: PushState, c: Change)
    requires c.action == "delete"
    ensures var r := Step(m, userId, now, s, c);
      r.next == s.next && r.conflicts == s.conflicts && r.idMapping == s.idMapping
      && (c.serverId.None? || !Owned(s.rows, c.serverId.value, userId) ==> r == s)
      && (c.serverId.Some? && Owned(s.rows, c.serverId.value, userId) ==>
            r.accepted == s.accepted + [c.id]
            && (SoftDeletes(m) ==> r.rows == s.rows[c.serverId.value := s.rows[c.serverId.value]["deleted_at" := Stamp(now)]])
            && (!SoftDeletes(m) ==> r.rows == s.rows - {c.serverId.value}))
  {
  }

  /** A create always uses up one fresh id; when accepted, the new row is stored under
      it, owned by the caller, and the client id maps to it. */
  lemma CreateRule(m: Model, userId: Id, now: PyDateTime, s: PushState, c: Change)
    requires c.action == "create" && KeysBelow(s.rows.Keys, s.next)
    ensures var r := Step(m, userId, now, s, c);
      r.next == s.next + 1 && s.next !in s.rows && r.conflicts == s.conflicts
      && (CreateRow(m, userId, c.data).Some? ==>
            r.rows == s.rows[s.next := CreateRow(m, userId, c.data).value] && Owned(r.rows, s.next, userId)
            && r.accepted == s.accepted + [c.id] && r.idMapping == s.idMapping[c.id := s.next])
      && (CreateRow(m, userId, c.data).None? ==> r == s.(next := s.next + 1))
  {
  }

  /** Two creates under the same client id give two rows, and the mapping keeps only
      the second. */
  lemma RepeatedClientId(m: Model, userId: Id, now: PyDateTime, s: PushState, c: Change)
    requires c.action == "create" && CreateRow(m, userId, c.data).Some?
    requires KeysBelow(s.rows.Keys, s.next)
    ensures var r := Fold(m, userId, now, s, [c, c]);
      Owned(r.rows, s.next, userId) && Owned(r.rows, s.next + 1, userId)
      && r.accepted == s.accepted + [c.id, c.id] && r.idMapping == s.idMapping[c.id := s.next + 1]
  {
    assert [c, c][..1] == [c] && [c][..0] == [];
    assert Fold(m, userId, now, s, []) == s;
    var r1 := Fold(m, userId, now, s, [c]);
    assert r1 == Step(m, userId, now, s, c);
    CreateRule(m, userId, now, s, c);
    assert KeysBelow(r1.rows.Keys, r1.next) by { StepKeepsOthers(m, userId, now, s, c); }
    CreateRule(m, userId, now, r1, c);
  }

  /** Rows the caller does not own are never touched, and every row id stays below
      the id counter. */
  lemma {:induction false} FoldKeepsOthers(m: Model, userId: Id, now: PyDateTime, s: PushState, cs: seq<Change>)
    requires KeysBelow(s.rows.Keys, s.next)
    ensures var r := Fold(m, userId, now, s, cs);
      s.next <= r.next && KeysBelow(r.rows.Keys, r.next)
      && forall k :: k in s.rows && !Owned(s.rows, k, userId) ==> k in r.rows && r.rows[k] == s.rows[k]
    decreases |cs|
  {
    if cs != [] {
      var cs' := cs[..|cs| - 1];
      FoldKeepsOthers(m, userId, now, s, cs');
      var mid := Fold(m, userId, now, s, cs');
      StepKeepsOthers(m, userId, now, mid, cs[|cs| - 1]);
    }
  }

  lemma StepKeepsOthers(m: Model, userId: Id, now: PyDateTime, s: PushState, c: Change)
    requires KeysBelow(s.rows.Keys, s.next)
    ensures var r := Step(m, userId, now, s, c);
      s.next <= r.next && KeysBelow(r.rows.Keys, r.next)
      && forall k :: k in s.rows && !Owned(s.rows, k, userId) ==> k in r.rows && r.rows[k] == s.rows[k]
  {
  }

  /** Each change is accepted, or reported as a conflict, at most once. */
  lemma {:induction false} FoldCounts(m: Model, userId: Id, now: PyDateTime, s: PushState, cs: seq<Change>)
    ensures var r := Fold(m, userId, now, s, cs);
      |r.accepted| + |r.conflicts| <= |s.accepted| + |s.conflicts| + |cs|
    decreases |cs|
  {
    if cs != [] {
      FoldCounts(m, userId, now, s, cs[..|cs| - 1]);
    }
  }

  // ---------------------------------------------------------------------------
  // Pull.

  /** `.isoformat()` of dates and datetimes; every other value unchanged. Ids stand
      for their canonical text, which `Uuid.UuidText` gives. */
  function Stringify(v: Value): (r: Value)
    ensures r.Stamp? == false && r.Day? == false
    ensures !v.Stamp? && !v.Day? ==> r == v
  {
    match v
    case Stamp(dt) => Str(Isoformat(dt))
    case Day(d) => Str(DateIso(d))
    case _ => v
  }

  /** The dict pull builds for one record: every column of the model in order, a
      column the row does not hold read as `None`. */
  function RecordDict(m: Model, id: Id, row: Row): seq<(string, Value)>
      {
    var cols := m.columns;
    seq(|cols|, i requires 0 <= i < |cols| =>
      (cols[i], Stringify(if cols[i] == "id" then Key(id) else if cols[i] in row then row[cols[i]] else Null)))
  }

  /** Each record comes back as every column of its model, in order: `id` as the
      row's id, a column the row holds as its value with dates and datetimes as ISO
      text, any other column as `None`. */
  lemma RecordDictColumns(m: Model, id: Id, row: Row)
        ensures var r := RecordDict(m, id, row);
      |r| == |m.columns|
      && (forall i :: 0 <= i < |r| ==> r[i].0 == m.columns[i])
      && (forall i :: 0 <= i < |r| && m.columns[i] == "id" ==> r[i].1 == Key(id))
      && (forall i :: 0 <= i < |r| && m.columns[i] != "id" && m.columns[i] !in row ==> r[i].1 == Null)
      && (forall i :: 0 <= i < |r| && m.columns[i] != "id" && m.columns[i] in row ==>
            r[i].1 == Stringify(row[m.columns[i]]))
  {
  }

  datatype PullResponse = PullResponse(changes: seq<seq<(string, Value)>>, serverVersion: int, hasMore: bool)

  // ---------------------------------------------------------------------------
  // The sync log.

  datatype SyncLog = SyncLog(lastServerVersion: int, lastSyncAt: Option<PyDateTime>)

  /** The version a (user, table) pair is at: its log's, or 0 before the first log. */
  function Version(logs: map<(Id, string), SyncLog>, userId: Id, t: string): int {
    if (userId, t) in logs then logs[(userId, t)].lastServerVersion else 0
  }

  datatype TableStatus = TableStatus(version: int, count: nat, lastSync: Option<string>)

  /** The caller's rows of a table, soft-deleted ones included. */
  function OwnedIds(rows: map<Id, Row>, userId: Id): set<Id> {
    set k | k in rows && Owned(rows, k, userId)
  }

  /** One entry of `/sync/status`. */
  function StatusOf(rows: map<Id, Row>, logs: map<(Id, string), SyncLog>, userId: Id, t: string): (r: TableStatus)
    ensures r.version == Version(logs, userId, t) && r.count == |OwnedIds(rows, userId)|
    ensures r.lastSync.Some? <==> (userId, t) in logs && logs[(userId, t)].lastSyncAt.Some?
  {
    var last := if (userId, t) in logs && logs[(userId, t)].lastSyncAt.Some?
      then Some(Isoformat(logs[(userId, t)].lastSyncAt.value)) else None;
    TableStatus(Version(logs, userId, t), |OwnedIds(rows, userId)|, last)
  }

  datatype PushResponse = PushResponse(serverVersion: int, accepted: seq<Id>, conflicts: seq<SyncConflict>, idMapping: map<Id, Id>)

  class SyncStore {
    /** The eight synced tables, by table name. */
    var tables: map<string, map<Id, Row>>
    /** `sync_logs`, keyed by (user, table name). */
    var logs: map<(Id, string), SyncLog>
    /** Above every row id in use: the next id `uuid4()` is modelled to return. */
    var nextId: Id

    ghost predicate Valid()
      reads this
    {
      (forall t :: t in tables <==> IsTable(t))
      && forall t :: t in tables ==> KeysBelow(tables[t].Keys, nextId)
    }

    constructor ()
      ensures Valid() && logs == map[] && nextId == 0
      ensures forall t :: t in tables ==> tables[t] == map[]
    {
      tables := map t | t in TableNames :: map[];
      logs := map[];
      nextId := 0;
    }

    /** `get_or_create_sync_log`: the existing log, or a new one at version 0. */
    method GetOrCreateSyncLog(userId: Id, t: string) returns (log: SyncLog)
      modifies this`logs
      ensures (userId, t) in logs && log == logs[(userId, t)]
      ensures (userId, t) in old(logs) ==> logs == old(logs)
      ensures (userId, t) !in old(logs) ==> logs == old(logs)[(userId, t) := SyncLog(0, None)]
      ensures log.lastServerVersion == Version(old(logs), userId, t)
    {
      if (userId, t) in logs {
        log := logs[(userId, t)];
      } else {
        log := SyncLog(0, None);
        logs := logs[(userId, t) := log];
      }
    }

    /** `push_changes`. */
    method PushChanges(userId: Id, t: string, changes: seq<Change>, now: PyDateTime) returns (r: Result<PushResponse>)
      requires Valid()
      modifies this`tables, this`logs, this`nextId
      ensures Valid()
      ensures !IsTable(t) ==>
        r == Err(BadRequest("Unknown table: " + t))
        && tables == old(tables) && logs == old(logs) && nextId == old(nextId)
      ensures IsTable(t) ==>
        var s := Fold(TableModel(t).value, userId, now, PushState(old(tables)[t], old(nextId), [], [], map[]), changes);
        var v := Version(old(logs), userId, t) + 1;
        r == Ok(PushResponse(v, s.accepted, s.conflicts, s.idMapping))
        && tables == old(tables)[t := s.rows] && nextId == s.next
        && logs == old(logs)[(userId, t) := SyncLog(v, Some(now))]
    {
      var model := TableModel(t);
      if model.None? {
        return Err(BadRequest("Unknown table: " + t));
      }
      r := PushKnown(model.value, userId, t, changes, now);
    }

    /** `push_changes` once the table is known to have a model. */
    method PushKnown(m: Model, userId: Id, t: string, changes: seq<Change>, now: PyDateTime) returns (r: Result<PushResponse>)
      requires Valid() && t in tables
      modifies this`tables, this`logs, this`nextId
      ensures Valid()
      ensures var s := Fold(m, userId, now, PushState(old(tables)[t], old(nextId), [], [], map[]), changes);
        var v := Version(old(logs), userId, t) + 1;
        r == Ok(PushResponse(v, s.accepted, s.conflicts, s.idMapping))
        && tables == old(tables)[t := s.rows] && nextId == s.next
        && logs == old(logs)[(userId, t) := SyncLog(v, Some(now))]
    {
      var log := GetOrCreateSyncLog(userId, t);
      var accepted, conflicts, idMapping := ApplyAll(m, userId, t, changes, now);
      FoldKeepsOthers(m, userId, now, PushState(old(tables)[t], old(nextId), [], [], map[]), changes);
      log := log.(lastServerVersion := log.lastServerVersion + 1, lastSyncAt := Some(now));
      logs := logs[(userId, t) := log];
      r := Ok(PushResponse(log.lastServerVersion, accepted, conflicts, idMapping));
    }

    /** The loop over the changes, in submission order. */
    method ApplyAll(m: Model, userId: Id, t: string, changes: seq<Change>, now: PyDateTime)
      returns (accepted: seq<Id>, conflicts: seq<SyncConflict>, idMapping: map<Id, Id>)
      requires t in tables
      modifies this`tables, this`nextId
      ensures t in tables && tables == old(tables)[t := tables[t]]
      ensures PushState(tables[t], nextId, accepted, conflicts, idMapping)
        == Fold(m, userId, now, PushState(old(tables)[t], old(nextId), [], [], map[]), changes)
    {
      ghost var s0 := PushState(tables[t], nextId, [], [], map[]);
      accepted, conflicts, idMapping := [], [], map[];
      var i := 0;
      while i < |changes|
        invariant 0 <= i <= |changes|
        invariant t in tables && tables == old(tables)[t := tables[t]]
        invariant PushState(tables[t], nextId, accepted, conflicts, idMapping) == Fold(m, userId, now, s0, changes[..i])
      {
        assert changes[..i + 1][..i] == changes[..i];
        accepted, conflicts, idMapping := ApplyChange(m, userId, t, changes[i], now, accepted, conflicts, idMapping);
        i := i + 1;
      }
      assert changes[..i] == changes;
    }

    /** The body of the push loop for one change. */
    method ApplyChange(m: Model, userId: Id, t: string, c: Change, now: PyDateTime,
                       accepted: seq<Id>, conflicts: seq<SyncConflict>, idMapping: map<Id, Id>)
      returns (accepted': seq<Id>, conflicts': seq<SyncConflict>, idMapping': map<Id, Id>)
      requires t in tables
      modifies this`tables, this`nextId
      ensures t in tables && tables == old(tables)[t := tables[t]]
      ensures PushState(tables[t], nextId, accepted', conflicts', idMapping')
        == Step(m, userId, now, PushState(old(tables)[t], old(nextId), accepted, conflicts, idMapping), c)
    {
      accepted', conflicts', idMapping' := accepted, conflicts, idMapping;
      var rows := tables[t];
      if c.action == "create" {
        var serverId := nextId;
        nextId := nextId + 1;
        var row := CreateRow(m, userId, c.data);
        if row.Some? {
          tables := tables[t := rows[serverId := row.value]];
          accepted' := accepted' + [c.id];
          idMapping' := idMapping'[c.id := serverId];
        }
      } else if c.action == "update" {
        if c.serverId.Some? {
          var id := c.serverId.value;
          if !Owned(rows, id, userId) {
            conflicts' := conflicts' + [SyncConflict(c.id, id, c.data, map[], "delete_conflict")];
          } else {
            var row, raised := SetAttributes(m, rows[id], c.data, c.order);
            tables := tables[t := rows[id := row]];
            if !raised {
              accepted' := accepted' + [c.id];
            }
          }
        }
      } else if c.action == "delete" {
        if c.serverId.Some? && Owned(rows, c.serverId.value, userId) {
          var id := c.serverId.value;
          if SoftDeletes(m) {
            tables := tables[t := rows[id := rows[id]["deleted_at" := Stamp(now)]]];
          } else {
            tables := tables[t := rows - {id}];
          }
          accepted' := accepted' + [c.id];
        }
      }
    }

    /** `pull_changes`: every row of the caller in the table, soft-deleted included,
        whatever `since_version` says. */
    method PullChanges(userId: Id, t: string, sinceVersion: int) returns (r: Result<PullResponse>)
      requires Valid()
      modifies this`logs
      ensures Valid()
      ensures !IsTable(t) ==> r == Err(BadRequest("Unknown table: " + t)) && logs == old(logs)
      ensures IsTable(t) ==>
        var ids := SortedIds(OwnedIds(tables[t], userId));
        r.Ok? && !r.value.hasMore && r.value.serverVersion == Version(old(logs), userId, t)
        && |r.value.changes| == |ids|
        && (forall i :: 0 <= i < |ids| ==>
              ids[i] in tables[t] && r.value.changes[i] == RecordDict(TableModel(t).value, ids[i], tables[t][ids[i]]))
        && Version(logs, userId, t) == Version(old(logs), userId, t)
    {
      var model := TableModel(t);
      if model.None? {
        return Err(BadRequest("Unknown table: " + t));
      }
      var log := GetOrCreateSyncLog(userId, t);
      var rows := tables[t];
      var ids := SortedIds(OwnedIds(rows, userId));
      assert forall i :: 0 <= i < |ids| ==> ids[i] in OwnedIds(rows, userId);
      var changes := RecordDicts(model.value, rows, ids);
      r := Ok(PullResponse(changes, log.lastServerVersion, false));
    }

    /** `get_sync_status`: version, row count and last sync time of every table. */
    method GetSyncStatus(userId: Id) returns (status: map<string, TableStatus>)
      requires Valid()
      ensures forall t :: t in status <==> IsTable(t)
      ensures forall t :: t in status ==> status[t] == StatusOf(tables[t], logs, userId, t)
    {
      status := map[];
      var i := 0;
      while i < |TableNames|
        invariant 0 <= i <= |TableNames|
        invariant forall t :: t in status <==> t in TableNames[..i]
        invariant forall t :: t in status ==> status[t] == StatusOf(tables[t], logs, userId, t)
      {
        var t := TableNames[i];
        status := status[t := StatusOf(tables[t], logs, userId, t)];
        i := i + 1;
      }
    }
  }

  /** The loop of `pull_changes` building one dict per record. */
  method RecordDicts(m: Model, rows: map<Id, Row>, ids: seq<Id>) returns (changes: seq<seq<(string, Value)>>)
    requires forall i :: 0 <= i < |ids| ==> ids[i] in rows
    ensures |changes| == |ids|
    ensures forall i :: 0 <= i < |ids| ==> changes[i] == RecordDict(m, ids[i], rows[ids[i]])
  {
    changes := [];
    var i := 0;
    while i < |ids|
      invariant 0 <= i <= |ids| && |changes| == i
      invariant forall j :: 0 <= j < i ==> changes[j] == RecordDict(m, ids[j], rows[ids[j]])
    {
      changes := changes + [RecordDict(m, ids[i], rows[ids[i]])];
      i := i + 1;
    }
  }

  /** A push raises the version the status endpoint reports by exactly one, even
      for an empty batch. */
  lemma PushRaisesStatusVersion(logs: map<(Id, string), SyncLog>, userId: Id, t: string, now: PyDateTime,
                                rows: map<Id, Row>)
    ensures StatusOf(rows, logs[(userId, t) := SyncLog(Version(logs, userId, t) + 1, Some(now))], userId, t).version
      == StatusOf(rows, logs, userId, t).version + 1
  {
  }
}
