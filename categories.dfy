/** Categories: a two-level tree by `main_category_id`, whose parent links are checked
    for ownership and liveness but not for cycles, and whose delete cascades one
    level down. */
module CategoriesApi {
  import opened Wrappers
  import opened Fields
  import opened DateTimes
  import opened Uuid
  import opened Store

  predicate OwnedLive(cats: map<Id, Category>, userId: Id, id: Id) {
    id in cats && cats[id].userId == userId && cats[id].deletedAt.None?
  }

  /** Every parent link points at a category of the same user. The endpoints keep
      this, which is why the cascade, whose query does not filter by owner, only ever
      reaches the caller's own categories. */
  predicate ParentsOwned(cats: map<Id, Category>) {
    forall k :: k in cats && cats[k].mainCategoryId.Some? ==>
      cats[k].mainCategoryId.value in cats && cats[cats[k].mainCategoryId.value].userId == cats[k].userId
  }

  // ---------------------------------------------------------------------------
  // `create_category`.

  /** `CategoryCreate`; icon and colour are display fields the model does not keep. */
  datatype CategoryCreate = CategoryCreate(name: string, isIncome: bool, orderIndex: int, mainCategoryId: Option<Id>)

  function NewCategory(userId: Id, b: CategoryCreate, now: Instant): Category {
    Category(userId, b.name, b.mainCategoryId, b.isIncome, b.orderIndex, now, None)
  }

  function Create(cats: map<Id, Category>, userId: Id, b: CategoryCreate, id: Id, now: Instant): Result<map<Id, Category>> {
    if b.mainCategoryId.Some? && !OwnedLive(cats, userId, b.mainCategoryId.value) then
      Err(NotFound("Parent category not found"))
    else
      Ok(cats[id := NewCategory(userId, b, now)])
  }

  /** A subcategory needs a live parent of the caller's; nothing else is checked (the
      parent may itself be a subcategory, or of the other kind). Parent links stay
      within one user. */
  lemma CreateSpec(cats: map<Id, Category>, userId: Id, b: CategoryCreate, id: Id, now: Instant)
    requires id !in cats
    ensures var r := Create(cats, userId, b, id, now);
      (r.Err? <==> b.mainCategoryId.Some? && !OwnedLive(cats, userId, b.mainCategoryId.value))
      && (r.Err? ==> r.error == NotFound("Parent category not found"))
      && (r.Ok? ==> r.value.Keys == cats.Keys + {id} && r.value[id] == NewCategory(userId, b, now)
                    && (forall k :: k in cats ==> r.value[k] == cats[k]))
      && (r.Ok? && ParentsOwned(cats) ==> ParentsOwned(r.value))
  {
  }

  method CreateCategory(db: Db, userId: Id, b: CategoryCreate, now: Instant) returns (r: Result<Id>)
    requires db.Valid()
    modifies db`categories, db`nextId
    ensures db.Valid()
    ensures var c := Create(old(db.categories), userId, b, old(db.nextId), now);
      (r.Ok? <==> c.Ok?)
      && (r.Err? ==> r == Err(c.error) && db.categories == old(db.categories) && db.nextId == old(db.nextId))
      && (r.Ok? ==> r.value == old(db.nextId) && r.value !in old(db.categories) && db.categories == c.value)
  {
    if b.mainCategoryId.Some? && !OwnedLive(db.categories, userId, b.mainCategoryId.value) {
      return Err(NotFound("Parent category not found"));
    }
    var id := db.NewId();
    db.categories := db.categories[id := NewCategory(userId, b, now)];
    r := Ok(id);
  }

  // ---------------------------------------------------------------------------
  // `get_category` and `list_categories`.

  /** `get_category`: the caller's live category, or 404. Budgets, wallets and
      payment methods have their own lookup of the same shape, each on its own table
      and with its own message, as in the source. */
  function GetCategory(cats: map<Id, Category>, userId: Id, id: Id): (r: Result<Category>)
    ensures r.Ok? <==> OwnedLive(cats, userId, id)
    ensures r.Ok? ==> r.value == cats[id]
    ensures r.Err? ==> r.error == NotFound("Category not found")
  {
    if OwnedLive(cats, userId, id) then Ok(cats[id]) else Err(NotFound("Category not found"))
  }

  /** The categories listed: the caller's live ones of the kind asked for, and only
      top-level ones unless subcategories are asked for. */
  function ListCategories(cats: map<Id, Category>, userId: Id, includeSubcategories: bool, isIncome: Option<bool>): (r: set<Id>)
    ensures forall k :: k in r <==>
      OwnedLive(cats, userId, k) && (isIncome.None? || cats[k].isIncome == isIncome.value)
      && (includeSubcategories || cats[k].mainCategoryId.None?)
  {
    set k | k in cats && OwnedLive(cats, userId, k) && (isIncome.None? || cats[k].isIncome == isIncome.value)
            && (includeSubcategories || cats[k].mainCategoryId.None?)
  }

  /** `list_categories_with_subcategories`: each listed top-level category with its
      live children. The children's query filters neither by owner nor by kind. */
  function WithSubcategories(cats: map<Id, Category>, userId: Id, isIncome: Option<bool>): (r: map<Id, set<Id>>)
    ensures r.Keys == ListCategories(cats, userId, false, isIncome)
    ensures forall p, k :: p in r ==>
      (k in r[p] <==> k in cats && cats[k].mainCategoryId == Some(p) && cats[k].deletedAt.None?)
  {
    map p | p in ListCategories(cats, userId, false, isIncome) ::
      set k | k in cats && cats[k].mainCategoryId == Some(p) && cats[k].deletedAt.None?
  }

  /** Under one-user parent links, every nested child is the caller's, and it is
      never itself a listed top-level category. */
  lemma NestedChildrenOwned(cats: map<Id, Category>, userId: Id, isIncome: Option<bool>, p: Id, k: Id)
    requires ParentsOwned(cats)
    requires var r := WithSubcategories(cats, userId, isIncome); p in r && k in r[p]
    ensures OwnedLive(cats, userId, k) && k in ListCategories(cats, userId, true, None)
    ensures k !in WithSubcategories(cats, userId, isIncome)
  {
  }

  // ---------------------------------------------------------------------------
  // `update_category`.

  /** `CategoryUpdate`: each field left out, sent as null or given. A null parent
      makes the category top-level; a null name, direction or order lands on a NOT
      NULL column and fails the commit. */
  datatype CategoryUpdate = CategoryUpdate(name: Field<string>, isIncome: Field<bool>, orderIndex: Field<int>,
                                           mainCategoryId: Field<Id>)

  predicate NullOnRequired(u: CategoryUpdate) {
    u.name.Null? || u.isIncome.Null? || u.orderIndex.Null?
  }

  function Patched(c: Category, u: CategoryUpdate): Category
    requires !NullOnRequired(u)
  {
    c.(name := Put(u.name, c.name),
       isIncome := Put(u.isIncome, c.isIncome),
       orderIndex := Put(u.orderIndex, c.orderIndex),
       mainCategoryId := Assign(u.mainCategoryId, c.mainCategoryId))
  }

  /** A parent id sent in the update, null excluded: what `if main_category_id:`
      checks, a UUID always being truthy. */
  predicate NewParent(u: CategoryUpdate) {
    u.mainCategoryId.Given?
  }

  function Update(cats: map<Id, Category>, userId: Id, id: Id, u: CategoryUpdate): Result<map<Id, Category>> {
    if !OwnedLive(cats, userId, id) then Err(NotFound("Category not found"))
    else if NewParent(u) && !OwnedLive(cats, userId, u.mainCategoryId.value) then
      Err(NotFound("Parent category not found"))
    else if NullOnRequired(u) then Err(ServerError("Internal server error"))
    else Ok(cats[id := Patched(cats[id], u)])
  }

  lemma UpdateSpec(cats: map<Id, Category>, userId: Id, id: Id, u: CategoryUpdate)
    ensures var r := Update(cats, userId, id, u);
      var parentOk := NewParent(u) ==> OwnedLive(cats, userId, u.mainCategoryId.value);
      (r.Ok? <==> OwnedLive(cats, userId, id) && parentOk && !NullOnRequired(u))
      && (!OwnedLive(cats, userId, id) ==> r == Err(NotFound("Category not found")))
      && (OwnedLive(cats, userId, id) && !parentOk ==> r == Err(NotFound("Parent category not found")))
      && (OwnedLive(cats, userId, id) && parentOk && NullOnRequired(u) ==> r == Err(ServerError("Internal server error")))
      && (r.Ok? ==> r.value.Keys == cats.Keys && r.value[id] == Patched(cats[id], u)
                    && (u.mainCategoryId.Null? ==> r.value[id].mainCategoryId.None?)
                    && (u.mainCategoryId.Absent? ==> r.value[id].mainCategoryId == cats[id].mainCategoryId)
                    && (forall k :: k in cats && k != id ==> r.value[k] == cats[k]))
      && (r.Ok? && ParentsOwned(cats) ==> ParentsOwned(r.value))
  {
  }

  /** There is no cycle check: a category may be made its own parent, after which it
      is neither top-level nor anybody's listed child. */
  lemma UpdateAllowsCycle(cats: map<Id, Category>, userId: Id, id: Id)
    requires OwnedLive(cats, userId, id)
    ensures var r := Update(cats, userId, id, CategoryUpdate(Absent, Absent, Absent, Given(id)));
      r.Ok? && r.value[id].mainCategoryId == Some(id)
      && id !in ListCategories(r.value, userId, false, None)
  {
  }

  method UpdateCategory(db: Db, userId: Id, id: Id, u: CategoryUpdate) returns (r: Result<Category>)
    modifies db`categories
    ensures var c := Update(old(db.categories), userId, id, u);
      (r.Ok? <==> c.Ok?)
      && (r.Err? ==> r == Err(c.error) && db.categories == old(db.categories))
      && (r.Ok? ==> db.categories == c.value && r.value == db.categories[id])
  {
    if !OwnedLive(db.categories, userId, id) {
      return Err(NotFound("Category not found"));
    }
    if NewParent(u) && !OwnedLive(db.categories, userId, u.mainCategoryId.value) {
      return Err(NotFound("Parent category not found"));
    }
    if NullOnRequired(u) {
      return Err(ServerError("Internal server error"));
    }
    db.categories := db.categories[id := Patched(db.categories[id], u)];
    r := Ok(db.categories[id]);
  }

  // ---------------------------------------------------------------------------
  // `delete_category`: a soft delete cascading to direct children.

  /** The category and its live direct children marked deleted. */
  function Cascade(cats: map<Id, Category>, id: Id, now: Instant): (r: map<Id, Category>)
    ensures r.Keys == cats.Keys
  {
    map k | k in cats ::
      if k == id || (cats[k].mainCategoryId == Some(id) && cats[k].deletedAt.None?) then cats[k].(deletedAt := Some(now))
      else cats[k]
  }

  function Delete(cats: map<Id, Category>, userId: Id, id: Id, now: Instant): Result<map<Id, Category>> {
    if !OwnedLive(cats, userId, id) then Err(NotFound("Category not found")) else Ok(Cascade(cats, id, now))
  }

  /** The category and its live children are deleted, and nothing else: a grandchild
      stays live under a deleted parent. Afterwards the category is "not found", and
      under one-user parent links no other user's category changes. */
  lemma DeleteSpec(cats: map<Id, Category>, userId: Id, id: Id, now: Instant)
    ensures var r := Delete(cats, userId, id, now);
      (r.Ok? <==> OwnedLive(cats, userId, id))
      && (r.Err? ==> r.error == NotFound("Category not found"))
      && (r.Ok? ==>
            GetCategory(r.value, userId, id).Err?
            && (forall k :: k in cats && cats[k].mainCategoryId == Some(id) ==> r.value[k].deletedAt.Some?)
            && (forall k :: k in cats && k != id && cats[k].mainCategoryId != Some(id) ==> r.value[k] == cats[k])
            && (forall k :: k in cats ==> r.value[k] == cats[k].(deletedAt := r.value[k].deletedAt))
            && (ParentsOwned(cats) ==>
                  ParentsOwned(r.value) && forall k :: k in cats && cats[k].userId != userId ==> r.value[k] == cats[k]))
  {
    if OwnedLive(cats, userId, id) {
      var m := Cascade(cats, id, now);
      assert GetCategory(m, userId, id).Err?;
    }
  }

  /** Grandchildren survive the cascade. */
  lemma GrandchildUntouched(cats: map<Id, Category>, userId: Id, id: Id, child: Id, g: Id, now: Instant)
    requires OwnedLive(cats, userId, id)
    requires child in cats && cats[child].mainCategoryId == Some(id) && child != id
    requires g in cats && cats[g].mainCategoryId == Some(child) && cats[g].deletedAt.None? && g != id
    ensures var r := Delete(cats, userId, id, now);
      r.Ok? && r.value[child].deletedAt.Some? && r.value[g].deletedAt.None?
  {
  }

  method DeleteCategory(db: Db, userId: Id, id: Id, now: Instant) returns (r: Result<()>)
    modifies db`categories
    ensures var c := Delete(old(db.categories), userId, id, now);
      (r.Ok? <==> c.Ok?)
      && (r.Err? ==> r == Err(c.error) && db.categories == old(db.categories))
      && (r.Ok? ==> db.categories == c.value)
  {
    if !OwnedLive(db.categories, userId, id) {
      return Err(NotFound("Category not found"));
    }
    db.categories := db.categories[id := db.categories[id].(deletedAt := Some(now))];
    var cats := db.categories;
    db.categories := map k | k in cats ::
      if cats[k].mainCategoryId == Some(id) && cats[k].deletedAt.None? then cats[k].(deletedAt := Some(now)) else cats[k];
    r := Ok(());
  }
}
