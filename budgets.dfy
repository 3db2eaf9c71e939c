/** Budgets: a spending (or income) limit over a date window, optionally narrowed to
    some wallets and categories. Progress is the filtered sum of the caller's live
    transactions and what is left of the amount. */
module BudgetsApi {
  import opened Wrappers
  import opened Calendar
  import opened DateTimes
  import opened Uuid
  import opened Store

  // ---------------------------------------------------------------------------
  // Which transactions a budget counts (`calculate_budget_progress`).

  /** The window as the query writes it. `transactions.date` is a timestamp and the
      budget's dates are dates, which the database widens to midnight: the end
      bound admits only transactions at 00:00 on the end day. */
  predicate InWindowAsWritten(b: Budget, t: Transaction) {
    DateTimeLe(Midnight(b.startDate), t.date)
    && (b.endDate.None? || DateTimeLe(t.date, Midnight(b.endDate.value)))
  }

  /** The window as the budget's dates describe it: every day from the start day to
      the end day, whatever the time of day. */
  predicate InWindow(b: Budget, t: Transaction) {
    Le(b.startDate, t.date.date) && (b.endDate.None? || Le(t.date.date, b.endDate.value))
  }

  /** The two windows agree except on the end day itself, after midnight. */
  lemma WindowsDiffer(b: Budget, t: Transaction)
    requires ValidDateTime(t.date)
    ensures InWindowAsWritten(b, t) ==> InWindow(b, t)
    ensures InWindow(b, t) && !InWindowAsWritten(b, t) ==>
      b.endDate.Some? && t.date.date == b.endDate.value && ClockLt(Midnight(t.date.date), t.date)
  {
  }

  /** A purchase at noon on the last day of the budget is left out as written. */
  lemma EndDayExcludedAsWritten()
    ensures var b := Budget(0, "food", 10000, Date(2024, 1, 1), Some(Date(2024, 1, 31)), None, None,
                            false, false, false, 0, None);
      var t := Transaction(0, 1, None, None, 2500, "lunch", None, DateTime(Date(2024, 1, 31), 12, 0, 0, 0, None),
                           false, Regular, None, None, None, 0, None);
      InWindow(b, t) && !InWindowAsWritten(b, t)
  {
  }

  /** A list filter that is null or empty lets everything through. */
  predicate ListAdmits(ids: Option<seq<Id>>, id: Id) {
    ids.None? || ids.value == [] || id in ids.value
  }

  /** A transaction the budget counts: the caller's, live, of the budget's kind, in
      its window, in one of its wallets and categories when those are listed. A
      transaction without a category fails a category list, as `IN` does on null. */
  predicate Counts(b: Budget, userId: Id, t: Transaction) {
    t.userId == userId && t.isIncome == b.isIncome && t.deletedAt.None? && InWindow(b, t)
    && ListAdmits(b.walletIds, t.walletId)
    && (b.categoryIds.None? || b.categoryIds.value == [] || (t.categoryId.Some? && t.categoryId.value in b.categoryIds.value))
  }

  function Counted(txs: map<Id, Transaction>, userId: Id, b: Budget): set<Id> {
    set k | k in txs && Counts(b, userId, txs[k])
  }

  function Amount(t: Transaction): int { t.amount }

  /** `func.sum(amount)` over the counted transactions, or 0 when there are none. */
  function Spent(txs: map<Id, Transaction>, userId: Id, b: Budget): Cents {
    SumTx(txs, Counted(txs, userId, b), Amount)
  }

  datatype Progress = Progress(spent: Cents, remaining: Cents)

  function BudgetProgress(txs: map<Id, Transaction>, userId: Id, b: Budget): (p: Progress)
    ensures p.spent + p.remaining == b.amount
    ensures Counted(txs, userId, b) == {} ==> p.spent == 0 && p.remaining == b.amount
  {
    var spent := Spent(txs, userId, b);
    Progress(spent, b.amount - spent)
  }

  /** Storing a transaction the budget does not count, in place of one it did not
      count either, leaves the spent amount as it was. */
  lemma SpentIgnores(txs: map<Id, Transaction>, userId: Id, b: Budget, k: Id, v: Transaction)
    requires !Counts(b, userId, v) && (k in txs ==> !Counts(b, userId, txs[k]))
    ensures Spent(txs[k := v], userId, b) == Spent(txs, userId, b)
  {
    var m := txs[k := v];
    assert Counted(m, userId, b) == Counted(txs, userId, b);
    SumTxFrame(m, txs, Counted(txs, userId, b), Amount);
  }

  /** A new transaction the budget counts adds its amount to the spent amount and
      takes it off the remaining one. */
  lemma SpentAdds(txs: map<Id, Transaction>, userId: Id, b: Budget, k: Id, v: Transaction)
    requires k !in txs && Counts(b, userId, v)
    ensures Spent(txs[k := v], userId, b) == Spent(txs, userId, b) + v.amount
    ensures BudgetProgress(txs[k := v], userId, b).remaining == BudgetProgress(txs, userId, b).remaining - v.amount
  {
    var m := txs[k := v];
    var c := Counted(txs, userId, b);
    assert Counted(m, userId, b) == c + {k};
    SumTxRemove(m, c + {k}, k, Amount);
    assert c + {k} - {k} == c;
    SumTxFrame(m, txs, c, Amount);
  }

  /** Soft-deleting a counted transaction takes its amount back out. */
  lemma SpentDropsDeleted(txs: map<Id, Transaction>, userId: Id, b: Budget, k: Id, now: Instant)
    requires k in txs && Counts(b, userId, txs[k])
    ensures Spent(txs[k := txs[k].(deletedAt := Some(now))], userId, b) == Spent(txs, userId, b) - txs[k].amount
  {
    var m := txs[k := txs[k].(deletedAt := Some(now))];
    var c := Counted(txs, userId, b);
    assert Counted(m, userId, b) == c - {k};
    SumTxRemove(txs, c, k, Amount);
    SumTxFrame(m, txs, c - {k}, Amount);
  }

  /** Spending past the amount leaves a negative remainder; nothing clamps it. */
  lemma RemainingMayBeNegative(txs: map<Id, Transaction>, userId: Id, b: Budget)
    requires Spent(txs, userId, b) > b.amount
    ensures BudgetProgress(txs, userId, b).remaining < 0
  {
  }

  /** An empty wallet or category list counts the same as none at all. */
  lemma EmptyListsMeanAll(txs: map<Id, Transaction>, userId: Id, b: Budget)
    ensures Spent(txs, userId, b.(walletIds := Some([]), categoryIds := Some([])))
         == Spent(txs, userId, b.(walletIds := None, categoryIds := None))
  {
    assert Counted(txs, userId, b.(walletIds := Some([]), categoryIds := Some([])))
        == Counted(txs, userId, b.(walletIds := None, categoryIds := None));
  }

  // ---------------------------------------------------------------------------
  // `list_budgets` and the by-id lookups.

  /** The caller's live budgets, narrowed by the archived flag (false unless the
      caller says otherwise) and the pinned flag when given. */
  function ListBudgets(budgets: map<Id, Budget>, userId: Id, isArchived: Option<bool>, isPinned: Option<bool>): (r: set<Id>)
    ensures forall k :: k in r <==>
      k in budgets && budgets[k].userId == userId && budgets[k].deletedAt.None?
      && (isArchived.None? || budgets[k].isArchived == isArchived.value)
      && (isPinned.None? || budgets[k].isPinned == isPinned.value)
  {
    set k | k in budgets && budgets[k].userId == userId && budgets[k].deletedAt.None?
            && (isArchived.None? || budgets[k].isArchived == isArchived.value)
            && (isPinned.None? || budgets[k].isPinned == isPinned.value)
  }

  /** By default archived budgets are not listed. */
  lemma ListHidesArchived(budgets: map<Id, Budget>, userId: Id, k: Id)
    requires k in budgets && budgets[k].isArchived
    ensures k !in ListBudgets(budgets, userId, Some(false), None)
  {
  }

  predicate OwnedLive(budgets: map<Id, Budget>, userId: Id, id: Id) {
    id in budgets && budgets[id].userId == userId && budgets[id].deletedAt.None?
  }

  /** `get_budget`: the caller's live budget, or 404, with the same shape as the
      other routers' lookups. */
  function GetBudget(budgets: map<Id, Budget>, userId: Id, id: Id): (r: Result<Budget>)
    ensures r.Ok? <==> OwnedLive(budgets, userId, id)
    ensures r.Ok? ==> r.value == budgets[id]
    ensures r.Err? ==> r.error == NotFound("Budget not found")
  {
    if OwnedLive(budgets, userId, id) then Ok(budgets[id]) else Err(NotFound("Budget not found"))
  }

  // ---------------------------------------------------------------------------
  // `delete_budget`: a soft delete.

  method DeleteBudget(db: Db, userId: Id, id: Id, now: Instant) returns (r: Result<()>)
    modifies db`budgets
    ensures r.Ok? <==> OwnedLive(old(db.budgets), userId, id)
    ensures r.Err? ==> r == Err(NotFound("Budget not found")) && db.budgets == old(db.budgets)
    ensures r.Ok? ==> db.budgets == old(db.budgets)[id := old(db.budgets)[id].(deletedAt := Some(now))]
  {
    if !OwnedLive(db.budgets, userId, id) {
      return Err(NotFound("Budget not found"));
    }
    db.budgets := db.budgets[id := db.budgets[id].(deletedAt := Some(now))];
    r := Ok(());
  }

  /** After a delete the budget is "not found" and no longer listed, while every
      other budget is as it was. */
  lemma DeletedNotFound(budgets: map<Id, Budget>, userId: Id, id: Id, now: Instant, archived: Option<bool>, pinned: Option<bool>)
    requires OwnedLive(budgets, userId, id)
    ensures var m := budgets[id := budgets[id].(deletedAt := Some(now))];
      GetBudget(m, userId, id) == Err(NotFound("Budget not found"))
      && id !in ListBudgets(m, userId, archived, pinned)
      && ListBudgets(m, userId, archived, pinned) == ListBudgets(budgets, userId, archived, pinned) - {id}
  {
    var m := budgets[id := budgets[id].(deletedAt := Some(now))];
    assert GetBudget(m, userId, id).Err?;
  }
}
