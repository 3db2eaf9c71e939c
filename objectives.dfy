/** Objectives (savings goals): a target amount reached by the transactions linked
    to the goal through the `objective_transactions` association table. */
module ObjectivesApi {
  import opened Wrappers
  import opened Calendar
  import opened DateTimes
  import opened Uuid
  import opened Store

  // ---------------------------------------------------------------------------
  // `calculate_objective_progress`.

  /** What one association row adds to the goal: the amount of its transaction when
      that transaction exists and is live (the inner join and the `deleted_at` test). */
  function LinkValue(txs: map<Id, Transaction>, l: ObjectiveLink): int {
    if l.transactionId in txs && txs[l.transactionId].deletedAt.None? then txs[l.transactionId].amount else 0
  }

  /** The association rows of an objective. */
  function LinksOf(links: map<Id, ObjectiveLink>, objectiveId: Id): set<Id> {
    set k | k in links && links[k].objectiveId == objectiveId
  }

  /** The sum over some association rows, taken in ascending id order. */
  function SumLinks(txs: map<Id, Transaction>, links: map<Id, ObjectiveLink>, ids: set<Id>): int
    requires ids <= links.Keys
    decreases |ids|
  {
    if ids == {} then 0
    else
      var k := MinId(ids);
      LinkValue(txs, links[k]) + SumLinks(txs, links, ids - {k})
  }

  lemma {:induction false} SumLinksRemove(txs: map<Id, Transaction>, links: map<Id, ObjectiveLink>, ids: set<Id>, k: Id)
    requires ids <= links.Keys && k in ids
    ensures SumLinks(txs, links, ids) == LinkValue(txs, links[k]) + SumLinks(txs, links, ids - {k})
    decreases |ids|
  {
    var m := MinId(ids);
    if m != k {
      SumLinksRemove(txs, links, ids - {m}, k);
      SumLinksRemove(txs, links, ids - {k}, m);
      assert ids - {m} - {k} == ids - {k} - {m};
    }
  }

  lemma {:induction false} SumLinksFrame(txs: map<Id, Transaction>, links: map<Id, ObjectiveLink>,
                                         links': map<Id, ObjectiveLink>, ids: set<Id>)
    requires ids <= links.Keys && ids <= links'.Keys
    requires forall k :: k in ids ==> links[k] == links'[k]
    ensures SumLinks(txs, links, ids) == SumLinks(txs, links', ids)
    decreases |ids|
  {
    if ids != {} {
      SumLinksFrame(txs, links, links', ids - {MinId(ids)});
    }
  }

  /** `current_amount`: the sum of the linked live transactions' amounts, 0 when none. */
  function CurrentAmount(txs: map<Id, Transaction>, links: map<Id, ObjectiveLink>, objectiveId: Id): Cents {
    SumLinks(txs, links, LinksOf(links, objectiveId))
  }

  datatype Progress = Progress(
    currentAmount: Cents,
    remainingAmount: Cents,
    daysRemaining: Option<int>,
    dailyTarget: Option<real>)

  /** `days_remaining`: none without an end date, else the days from today to it,
      never below 0. */
  function DaysRemaining(o: Objective, today: Date): (d: Option<int>)
    requires Valid(today) && (o.endDate.Some? ==> Valid(o.endDate.value))
    ensures d.None? <==> o.endDate.None?
    ensures d.Some? ==>
      d.value >= 0
      && (Le(o.endDate.value, today) <==> d.value == 0)
      && (d.value > 0 ==> d.value == Ordinal(o.endDate.value) - Ordinal(today))
  {
    if o.endDate.Some? then
      OrdinalOrder(o.endDate.value, today);
      Some(Max(Ordinal(o.endDate.value) - Ordinal(today), 0))
    else None
  }

  lemma DivTimes(x: real, d: real)
    requires d != 0.0
    ensures (x / d) * d == x
  {
  }

  /** `daily_target`: set exactly when days and money both remain, spreading the
      remaining amount evenly over the remaining days. */
  function DailyTarget(remaining: int, days: Option<int>): (t: Option<real>)
    ensures t.Some? <==> days.Some? && days.value > 0 && remaining > 0
    ensures t.Some? ==> t.value * (days.value as real) == remaining as real
  {
    if days.Some? && days.value > 0 && remaining > 0 then
      DivTimes(remaining as real, days.value as real);
      Some(remaining as real / days.value as real)
    else None
  }

  function ObjectiveProgress(txs: map<Id, Transaction>, links: map<Id, ObjectiveLink>, objectiveId: Id,
                             o: Objective, today: Date): (p: Progress)
    requires Valid(today) && (o.endDate.Some? ==> Valid(o.endDate.value))
    ensures p.remainingAmount >= 0
    ensures p.remainingAmount == 0 <==> p.currentAmount >= o.targetAmount
    ensures p.remainingAmount > 0 ==> p.currentAmount + p.remainingAmount == o.targetAmount
    ensures p.daysRemaining == DaysRemaining(o, today)
    ensures p.dailyTarget == DailyTarget(o.targetAmount - p.currentAmount, p.daysRemaining)
  {
    var current := CurrentAmount(txs, links, objectiveId);
    var remaining := o.targetAmount - current;
    var days := DaysRemaining(o, today);
    Progress(current, Max(remaining, 0), days, DailyTarget(remaining, days))
  }

  /** Linking a live transaction adds its amount to the goal. */
  lemma LinkAddsAmount(txs: map<Id, Transaction>, links: map<Id, ObjectiveLink>, objectiveId: Id, k: Id, l: ObjectiveLink)
    requires k !in links && l.objectiveId == objectiveId
    ensures CurrentAmount(txs, links[k := l], objectiveId) == CurrentAmount(txs, links, objectiveId) + LinkValue(txs, l)
  {
    var m := links[k := l];
    var c := LinksOf(links, objectiveId);
    assert LinksOf(m, objectiveId) == c + {k};
    SumLinksRemove(txs, m, c + {k}, k);
    assert c + {k} - {k} == c;
    SumLinksFrame(txs, m, links, c);
  }

  // ---------------------------------------------------------------------------
  // Linking and unlinking.

  /** At most one association row per (objective, transaction) pair. */
  predicate UniqueLinks(links: map<Id, ObjectiveLink>) {
    forall a, b ::
      a in links && b in links && links[a].objectiveId == links[b].objectiveId
      && links[a].transactionId == links[b].transactionId ==>
        a == b
  }

  predicate Linked(links: map<Id, ObjectiveLink>, objectiveId: Id, transactionId: Id) {
    exists k :: k in links && links[k].objectiveId == objectiveId && links[k].transactionId == transactionId
  }

  predicate OwnedLiveObjective(objectives: map<Id, Objective>, userId: Id, id: Id) {
    id in objectives && objectives[id].userId == userId && objectives[id].deletedAt.None?
  }

  predicate OwnedLiveTx(txs: map<Id, Transaction>, userId: Id, id: Id) {
    id in txs && txs[id].userId == userId && txs[id].deletedAt.None?
  }

  /** `link_transaction_to_objective`: the association table afterwards. */
  function Link(objectives: map<Id, Objective>, txs: map<Id, Transaction>, links: map<Id, ObjectiveLink>,
                userId: Id, objectiveId: Id, transactionId: Id, newId: Id, now: Instant): Result<map<Id, ObjectiveLink>>
  {
    if !OwnedLiveObjective(objectives, userId, objectiveId) then Err(NotFound("Objective not found"))
    else if !OwnedLiveTx(txs, userId, transactionId) then Err(NotFound("Transaction not found"))
    else if Linked(links, objectiveId, transactionId) then Err(BadRequest("Transaction already linked to this objective"))
    else Ok(links[newId := ObjectiveLink(objectiveId, transactionId, now)])
  }

  /** Linking succeeds exactly for the caller's live objective and transaction when
      they are not yet linked, adds one row, and keeps the pairs unique. */
  lemma LinkSpec(objectives: map<Id, Objective>, txs: map<Id, Transaction>, links: map<Id, ObjectiveLink>,
                 userId: Id, objectiveId: Id, transactionId: Id, newId: Id, now: Instant)
    requires newId !in links
    ensures var r := Link(objectives, txs, links, userId, objectiveId, transactionId, newId, now);
      (r.Ok? <==> OwnedLiveObjective(objectives, userId, objectiveId) && OwnedLiveTx(txs, userId, transactionId)
                  && !Linked(links, objectiveId, transactionId))
      && (r.Err? && OwnedLiveObjective(objectives, userId, objectiveId) && OwnedLiveTx(txs, userId, transactionId) ==>
            r.error == BadRequest("Transaction already linked to this objective"))
      && (r.Ok? ==>
            Linked(r.value, objectiveId, transactionId) && r.value.Keys == links.Keys + {newId}
            && (UniqueLinks(links) ==> UniqueLinks(r.value))
            && CurrentAmount(txs, r.value, objectiveId) == CurrentAmount(txs, links, objectiveId) + txs[transactionId].amount)
  {
    var r := Link(objectives, txs, links, userId, objectiveId, transactionId, newId, now);
    if r.Ok? {
      var l := ObjectiveLink(objectiveId, transactionId, now);
      assert r.value[newId] == l;
      LinkAddsAmount(txs, links, objectiveId, newId, l);
      forall k | k in links
        ensures !(links[k].objectiveId == objectiveId && links[k].transactionId == transactionId)
      {
      }
    }
  }

  /** `unlink_transaction_from_objective`: the caller's objective, deleted or not;
      every row for the pair goes, and none is "not found". */
  function Unlink(objectives: map<Id, Objective>, links: map<Id, ObjectiveLink>, userId: Id,
                  objectiveId: Id, transactionId: Id): Result<map<Id, ObjectiveLink>>
  {
    if objectiveId !in objectives || objectives[objectiveId].userId != userId then Err(NotFound("Objective not found"))
    else if !Linked(links, objectiveId, transactionId) then Err(NotFound("Link not found"))
    else Ok(map k | k in links && !(links[k].objectiveId == objectiveId && links[k].transactionId == transactionId) :: links[k])
  }

  /** Unlinking a pair that is not linked is "not found" and changes nothing;
      otherwise the pair is gone and every other row stays. */
  lemma UnlinkSpec(objectives: map<Id, Objective>, links: map<Id, ObjectiveLink>, userId: Id,
                   objectiveId: Id, transactionId: Id)
    ensures var r := Unlink(objectives, links, userId, objectiveId, transactionId);
      (r.Ok? <==> objectiveId in objectives && objectives[objectiveId].userId == userId
                  && Linked(links, objectiveId, transactionId))
      && (r.Err? && objectiveId in objectives && objectives[objectiveId].userId == userId ==>
            r.error == NotFound("Link not found"))
      && (r.Ok? ==>
            !Linked(r.value, objectiveId, transactionId) && r.value.Keys <= links.Keys
            && (UniqueLinks(links) ==> UniqueLinks(r.value))
            && forall k :: k in links && !(links[k].objectiveId == objectiveId && links[k].transactionId == transactionId) ==>
                 k in r.value && r.value[k] == links[k])
  {
  }

  /** Linking then unlinking the same pair gives back the association table. */
  lemma LinkThenUnlink(objectives: map<Id, Objective>, txs: map<Id, Transaction>, links: map<Id, ObjectiveLink>,
                       userId: Id, objectiveId: Id, transactionId: Id, newId: Id, now: Instant)
    requires newId !in links
    requires Link(objectives, txs, links, userId, objectiveId, transactionId, newId, now).Ok?
    ensures var m := Link(objectives, txs, links, userId, objectiveId, transactionId, newId, now).value;
      Unlink(objectives, m, userId, objectiveId, transactionId) == Ok(links)
  {
    var m := Link(objectives, txs, links, userId, objectiveId, transactionId, newId, now).value;
    assert m[newId].objectiveId == objectiveId && m[newId].transactionId == transactionId;
    var u := Unlink(objectives, m, userId, objectiveId, transactionId);
    assert u.Ok?;
    assert u.value == links;
  }

  method LinkTransactionToObjective(db: Db, userId: Id, objectiveId: Id, transactionId: Id, now: Instant)
    returns (r: Result<()>)
    requires db.Valid()
    modifies db`objectiveLinks, db`nextId
    ensures db.Valid()
    ensures var l := Link(old(db.objectives), old(db.transactions), old(db.objectiveLinks), userId, objectiveId,
                          transactionId, old(db.nextId), now);
      (r.Ok? <==> l.Ok?) && (r.Err? ==> r == Err(l.error) && db.objectiveLinks == old(db.objectiveLinks))
      && (r.Ok? ==> db.objectiveLinks == l.value)
  {
    if !OwnedLiveObjective(db.objectives, userId, objectiveId) {
      return Err(NotFound("Objective not found"));
    }
    if !OwnedLiveTx(db.transactions, userId, transactionId) {
      return Err(NotFound("Transaction not found"));
    }
    if Linked(db.objectiveLinks, objectiveId, transactionId) {
      return Err(BadRequest("Transaction already linked to this objective"));
    }
    var id := db.NewId();
    db.objectiveLinks := db.objectiveLinks[id := ObjectiveLink(objectiveId, transactionId, now)];
    r := Ok(());
  }

  method UnlinkTransactionFromObjective(db: Db, userId: Id, objectiveId: Id, transactionId: Id) returns (r: Result<()>)
    modifies db`objectiveLinks
    ensures var u := Unlink(old(db.objectives), old(db.objectiveLinks), userId, objectiveId, transactionId);
      (r.Ok? <==> u.Ok?) && (r.Err? ==> r == Err(u.error) && db.objectiveLinks == old(db.objectiveLinks))
      && (r.Ok? ==> db.objectiveLinks == u.value)
  {
    if objectiveId !in db.objectives || db.objectives[objectiveId].userId != userId {
      return Err(NotFound("Objective not found"));
    }
    var deleted := set k | k in db.objectiveLinks && db.objectiveLinks[k].objectiveId == objectiveId
                                && db.objectiveLinks[k].transactionId == transactionId;
    assert forall k ::
      k in db.objectiveLinks && db.objectiveLinks[k].objectiveId == objectiveId && db.objectiveLinks[k].transactionId == transactionId ==>
        k in deleted;
    if deleted == {} {
      return Err(NotFound("Link not found"));
    }
    db.objectiveLinks := map k | k in db.objectiveLinks && k !in deleted :: db.objectiveLinks[k];
    r := Ok(());
  }

  // ---------------------------------------------------------------------------
  // `delete_objective`: a soft delete; the association rows stay.

  method DeleteObjective(db: Db, userId: Id, id: Id, now: Instant) returns (r: Result<()>)
    modifies db`objectives
    ensures r.Ok? <==> OwnedLiveObjective(old(db.objectives), userId, id)
    ensures r.Err? ==> r == Err(NotFound("Objective not found")) && db.objectives == old(db.objectives)
    ensures r.Ok? ==> db.objectives == old(db.objectives)[id := old(db.objectives)[id].(deletedAt := Some(now))]
  {
    if !OwnedLiveObjective(db.objectives, userId, id) {
      return Err(NotFound("Objective not found"));
    }
    db.objectives := db.objectives[id := db.objectives[id].(deletedAt := Some(now))];
    r := Ok(());
  }

  /** A deleted objective cannot be linked to again, but its links can still be
      removed, since unlinking does not look at `deleted_at`. */
  lemma DeletedObjectiveLinks(objectives: map<Id, Objective>, txs: map<Id, Transaction>, links: map<Id, ObjectiveLink>,
                              userId: Id, objectiveId: Id, transactionId: Id, newId: Id, now: Instant)
    requires OwnedLiveObjective(objectives, userId, objectiveId) && Linked(links, objectiveId, transactionId)
    ensures var o := objectives[objectiveId := objectives[objectiveId].(deletedAt := Some(now))];
      Link(o, txs, links, userId, objectiveId, transactionId, newId, now) == Err(NotFound("Objective not found"))
      && Unlink(o, links, userId, objectiveId, transactionId).Ok?
  {
  }
}
