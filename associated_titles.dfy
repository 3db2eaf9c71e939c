/** Smart categorisation: a per-user table mapping merchant titles to categories.
    Titles are stored lower-cased and stripped; an entry matches a transaction title
    either exactly or as a substring, and a suggestion prefers an exact entry to the
    first containing one. */
module AssociatedTitlesApi {
  import opened Wrappers
  import opened Fields
  import opened DateTimes
  import opened Text
  import opened Uuid
  import opened Store

  // ---------------------------------------------------------------------------
  // `AssociatedTitle.matches`.

  /** Both titles are lower-cased and stripped; an exact entry matches an equal
      title, any other entry matches a title it is a substring of. */
  predicate Matches(a: AssociatedTitle, transactionTitle: string) {
    var (n, stored) := (Normalize(transactionTitle), Normalize(a.title));
    if a.isExactMatch then n == stored else IsSubstring(stored, n)
  }

  /** Matching ignores case and surrounding whitespace on both sides: normalising
      either title first changes nothing. */
  lemma MatchesNormalized(a: AssociatedTitle, transactionTitle: string)
    ensures Matches(a, Normalize(transactionTitle)) == Matches(a, transactionTitle)
    ensures Matches(a.(title := Normalize(a.title)), transactionTitle) == Matches(a, transactionTitle)
  {
    NormalizeIdempotent(transactionTitle);
    NormalizeIdempotent(a.title);
  }

  /** Every entry matches its own title, and an entry matching exactly also matches
      as a containing entry. */
  lemma MatchesOwnTitle(a: AssociatedTitle, transactionTitle: string)
    ensures Matches(a, a.title)
    ensures Matches(a, transactionTitle) ==> Matches(a.(isExactMatch := false), transactionTitle)
  {
    SubstringReflexive(Normalize(a.title));
  }

  // ---------------------------------------------------------------------------
  // Lookups.

  /** The caller's entries whose stored title is `title` (`.filter(user_id, title)`). */
  function TitleIds(titles: map<Id, AssociatedTitle>, userId: Id, title: string): set<Id> {
    set k | k in titles && titles[k].userId == userId && titles[k].title == title
  }

  /** No two of a user's entries share a stored title. */
  predicate UniqueTitles(titles: map<Id, AssociatedTitle>) {
    forall a, b ::
      a in titles && b in titles && titles[a].userId == titles[b].userId && titles[a].title == titles[b].title ==>
        a == b
  }

  /** Every stored title is in normal form. */
  predicate NormalizedTitles(titles: map<Id, AssociatedTitle>) {
    forall k :: k in titles ==> Normalize(titles[k].title) == titles[k].title
  }

  /** `.first()` over the caller's entries with the stored title `title`. */
  function FindTitle(titles: map<Id, AssociatedTitle>, userId: Id, title: string): (r: Option<Id>)
    ensures r.Some? ==> r.value in titles && titles[r.value].userId == userId && titles[r.value].title == title
    ensures r.None? ==> forall k :: k in titles && titles[k].userId == userId ==> titles[k].title != title
  {
    var ids := TitleIds(titles, userId, title);
    if ids == {} then
      assert forall k :: k in titles && titles[k].userId == userId && titles[k].title == title ==> k in ids;
      None
    else
      var k := MinId(ids);
      assert k in ids;
      Some(k)
  }

  // ---------------------------------------------------------------------------
  // `create_associated_title`: normalise, then upsert on (user, title).

  datatype TitleCreate = TitleCreate(title: string, categoryId: Id, isExactMatch: bool)

  predicate OwnedLiveCategory(categories: map<Id, Category>, userId: Id, id: Id) {
    id in categories && categories[id].userId == userId && categories[id].deletedAt.None?
  }

  /** The table and the entry id after a create; a new entry takes `newId`. */
  function CreateTitle(titles: map<Id, AssociatedTitle>, categories: map<Id, Category>, userId: Id,
                       b: TitleCreate, newId: Id, now: Instant): Result<(map<Id, AssociatedTitle>, Id)>
  {
    if !OwnedLiveCategory(categories, userId, b.categoryId) then Err(NotFound("Category not found"))
    else
      var n := Normalize(b.title);
      var existing := FindTitle(titles, userId, n);
      if existing.Some? then
        var x := titles[existing.value];
        Ok((titles[existing.value := x.(categoryId := b.categoryId, isExactMatch := b.isExactMatch)], existing.value))
      else Ok((titles[newId := AssociatedTitle(userId, n, b.categoryId, b.isExactMatch, now)], newId))
  }

  /** Create fails exactly when the category is not the caller's live one. Otherwise
      the entry returned holds the normalised title, the category and the exact flag;
      an entry already holding that title is overwritten rather than duplicated, and
      no other entry changes. Unique and normalised titles stay so. */
  lemma CreateTitleSpec(titles: map<Id, AssociatedTitle>, categories: map<Id, Category>, userId: Id,
                        b: TitleCreate, newId: Id, now: Instant)
    requires newId !in titles
    ensures var r := CreateTitle(titles, categories, userId, b, newId, now);
      (r.Err? <==> !OwnedLiveCategory(categories, userId, b.categoryId))
      && (r.Err? ==> r.error == NotFound("Category not found"))
      && (r.Ok? ==>
            var (m, id) := r.value;
            id in m && m[id].userId == userId && m[id].title == Normalize(b.title)
            && m[id].categoryId == b.categoryId && m[id].isExactMatch == b.isExactMatch
            && m.Keys == titles.Keys + {id}
            && (id in titles <==> FindTitle(titles, userId, Normalize(b.title)).Some?)
            && (forall k :: k in titles && k != id ==> m[k] == titles[k])
            && (UniqueTitles(titles) ==> UniqueTitles(m))
            && (NormalizedTitles(titles) ==> NormalizedTitles(m)))
  {
    var r := CreateTitle(titles, categories, userId, b, newId, now);
    if r.Ok? {
      var (m, id) := r.value;
      NormalizeIdempotent(b.title);
      if UniqueTitles(titles) {
        forall p, q | p in m && q in m && m[p].userId == m[q].userId && m[p].title == m[q].title
          ensures p == q
        {
          if p != id && q != id {
            assert titles[p].userId == titles[q].userId && titles[p].title == titles[q].title;
          }
        }
      }
    }
  }

  /** Creating the same title twice, in any case and spacing, leaves one entry. */
  lemma CreateTwiceSameEntry(titles: map<Id, AssociatedTitle>, categories: map<Id, Category>, userId: Id,
                             b: TitleCreate, b2: TitleCreate, newId: Id, newId2: Id, now: Instant)
    requires newId !in titles && UniqueTitles(titles) && Normalize(b2.title) == Normalize(b.title)
    requires OwnedLiveCategory(categories, userId, b2.categoryId)
    requires CreateTitle(titles, categories, userId, b, newId, now).Ok?
    ensures var (m, id) := CreateTitle(titles, categories, userId, b, newId, now).value;
      var r2 := CreateTitle(m, categories, userId, b2, newId2, now);
      r2.Ok? && r2.value.1 == id && r2.value.0.Keys == m.Keys && r2.value.0[id].categoryId == b2.categoryId
  {
    CreateTitleSpec(titles, categories, userId, b, newId, now);
    var (m, id) := CreateTitle(titles, categories, userId, b, newId, now).value;
    var k := FindTitle(m, userId, Normalize(b2.title));
    assert k.Some? && m[k.value].title == m[id].title;
  }

  method CreateAssociatedTitle(db: Db, userId: Id, b: TitleCreate, now: Instant) returns (r: Result<Id>)
    requires db.Valid()
    modifies db`associatedTitles, db`nextId
    ensures db.Valid()
    ensures var c := CreateTitle(old(db.associatedTitles), old(db.categories), userId, b, old(db.nextId), now);
      (r.Err? <==> c.Err?)
      && (r.Err? ==> r == Err(c.error) && db.associatedTitles == old(db.associatedTitles))
      && (r.Ok? ==> db.associatedTitles == c.value.0 && r.value == c.value.1)
  {
    if !OwnedLiveCategory(db.categories, userId, b.categoryId) {
      return Err(NotFound("Category not found"));
    }
    var n := Normalize(b.title);
    var existing := FindTitle(db.associatedTitles, userId, n);
    if existing.Some? {
      var x := db.associatedTitles[existing.value];
      db.associatedTitles := db.associatedTitles[existing.value := x.(categoryId := b.categoryId, isExactMatch := b.isExactMatch)];
      return Ok(existing.value);
    }
    var id := db.NewId();
    db.associatedTitles := db.associatedTitles[id := AssociatedTitle(userId, n, b.categoryId, b.isExactMatch, now)];
    r := Ok(id);
  }

  // ---------------------------------------------------------------------------
  // `suggest_category`.

  datatype Suggestion = Suggestion(categoryId: Option<Id>, confidence: string, matchedTitle: Option<string>)

  /** `.first()` over the caller's exact entries whose stored title is `n`. */
  function FindExact(titles: map<Id, AssociatedTitle>, userId: Id, n: string): (r: Option<Id>)
    ensures r.Some? ==> r.value in titles && titles[r.value].userId == userId
                        && titles[r.value].isExactMatch && titles[r.value].title == n
    ensures r.None? ==> forall k :: k in titles && titles[k].userId == userId && titles[k].isExactMatch ==> titles[k].title != n
  {
    var ids := set k | k in titles && titles[k].userId == userId && titles[k].isExactMatch && titles[k].title == n;
    if ids == {} then
      assert forall k :: k in titles && titles[k].userId == userId && titles[k].isExactMatch && titles[k].title == n ==> k in ids;
      None
    else
      var k := MinId(ids);
      assert k in ids;
      Some(k)
  }

  /** The caller's non-exact entries, in the order the query yields them. */
  function ContainsCandidates(titles: map<Id, AssociatedTitle>, userId: Id): (r: seq<Id>)
    ensures forall k :: k in r <==> k in titles && titles[k].userId == userId && !titles[k].isExactMatch
  {
    SortedIds(set k | k in titles && titles[k].userId == userId && !titles[k].isExactMatch)
  }

  /** The first position at or after `i` whose entry's stored title occurs in `n`. */
  function FirstContaining(titles: map<Id, AssociatedTitle>, ids: seq<Id>, n: string, i: nat): (r: Option<nat>)
    requires i <= |ids| && forall k :: k in ids ==> k in titles
    ensures r.Some? ==> i <= r.value < |ids| && IsSubstring(titles[ids[r.value]].title, n)
    ensures forall j :: i <= j < |ids| && (r.None? || j < r.value) ==> !IsSubstring(titles[ids[j]].title, n)
    decreases |ids| - i
  {
    if i == |ids| then None
    else if IsSubstring(titles[ids[i]].title, n) then Some(i)
    else FirstContaining(titles, ids, n, i + 1)
  }

  /** The first of the caller's non-exact entries, by id, whose stored title occurs
      in `n`; none when no such entry exists. */
  function ContainsEntry(titles: map<Id, AssociatedTitle>, userId: Id, n: string): (r: Option<Id>)
    ensures r.Some? ==>
      r.value in titles && titles[r.value].userId == userId && !titles[r.value].isExactMatch
      && IsSubstring(titles[r.value].title, n)
      && forall k :: (k in titles && titles[k].userId == userId && !titles[k].isExactMatch && k < r.value) ==>
           !IsSubstring(titles[k].title, n)
    ensures r.None? ==>
      forall k :: k in titles && titles[k].userId == userId && !titles[k].isExactMatch ==> !IsSubstring(titles[k].title, n)
  {
    var ids := ContainsCandidates(titles, userId);
    var first := FirstContaining(titles, ids, n, 0);
    if first.Some? then
      assert forall k :: (k in titles && titles[k].userId == userId && !titles[k].isExactMatch && k < ids[first.value]) ==>
        exists j :: 0 <= j < first.value && ids[j] == k;
      Some(ids[first.value])
    else
      assert forall k :: k in titles && titles[k].userId == userId && !titles[k].isExactMatch ==>
        exists j :: 0 <= j < |ids| && ids[j] == k;
      None
  }

  /** The suggestion for `title`: an exact entry equal to its normal form, else the
      first non-exact entry contained in it, else nothing. */
  function Suggest(titles: map<Id, AssociatedTitle>, userId: Id, title: string): Suggestion {
    var n := Normalize(title);
    var exact := FindExact(titles, userId, n);
    if exact.Some? then Suggestion(Some(titles[exact.value].categoryId), "exact", Some(titles[exact.value].title))
    else
      var c := ContainsEntry(titles, userId, n);
      if c.Some? then Suggestion(Some(titles[c.value].categoryId), "contains", Some(titles[c.value].title))
      else Suggestion(None, "none", None)
  }

  /** An exact entry equal to the normalised title wins and names that title;
      otherwise a containing entry is named if there is one; "none", with no
      category, means no entry of the caller matches at all. */
  lemma SuggestSpec(titles: map<Id, AssociatedTitle>, userId: Id, title: string)
    ensures var s := Suggest(titles, userId, title);
      var n := Normalize(title);
      var c := ContainsEntry(titles, userId, n);
      (s.confidence == "exact" <==>
         exists k :: k in titles && titles[k].userId == userId && titles[k].isExactMatch && titles[k].title == n)
      && (s.confidence == "exact" ==> s.matchedTitle == Some(n))
      && (s.confidence == "contains" ==>
            c.Some? && s.categoryId == Some(titles[c.value].categoryId) && s.matchedTitle == Some(titles[c.value].title))
      && (s.confidence == "none" <==> s.categoryId.None?)
      && (s.confidence == "none" ==>
            forall k :: k in titles && titles[k].userId == userId ==>
              (if titles[k].isExactMatch then titles[k].title != n else !IsSubstring(titles[k].title, n)))
      && (s.confidence == "exact" || s.confidence == "contains" || s.confidence == "none")
  {
  }

  /** When stored titles are in normal form, the entry a suggestion names matches the
      title in the sense of `AssociatedTitle.matches`. */
  lemma SuggestMatches(titles: map<Id, AssociatedTitle>, userId: Id, title: string, k: Id)
    requires NormalizedTitles(titles) && k in titles && titles[k].userId == userId
    requires Suggest(titles, userId, title).confidence != "none"
    requires Suggest(titles, userId, title).matchedTitle == Some(titles[k].title)
    requires Suggest(titles, userId, title).confidence == "exact" <==> titles[k].isExactMatch
    ensures Matches(titles[k], title)
  {
    SuggestSpec(titles, userId, title);
  }

  /** After creating an exact entry, suggesting the same title returns its category. */
  lemma CreateThenSuggest(titles: map<Id, AssociatedTitle>, categories: map<Id, Category>, userId: Id,
                          b: TitleCreate, newId: Id, now: Instant)
    requires newId !in titles && UniqueTitles(titles) && b.isExactMatch
    requires CreateTitle(titles, categories, userId, b, newId, now).Ok?
    ensures var (m, _) := CreateTitle(titles, categories, userId, b, newId, now).value;
      Suggest(m, userId, b.title) == Suggestion(Some(b.categoryId), "exact", Some(Normalize(b.title)))
  {
    CreateTitleSpec(titles, categories, userId, b, newId, now);
    var (m, id) := CreateTitle(titles, categories, userId, b, newId, now).value;
    var e := FindExact(m, userId, Normalize(b.title));
    assert e.Some? && e.value == id;
  }

  /** The endpoint: the exact lookup, then a scan of the non-exact entries that
      stops at the first one whose title occurs in the normalised title. */
  method SuggestCategory(db: Db, userId: Id, title: string) returns (s: Suggestion)
    ensures s == Suggest(db.associatedTitles, userId, title)
  {
    var n := Normalize(title);
    var exact := FindExact(db.associatedTitles, userId, n);
    if exact.Some? {
      var x := db.associatedTitles[exact.value];
      return Suggestion(Some(x.categoryId), "exact", Some(x.title));
    }
    var ids := ContainsCandidates(db.associatedTitles, userId);
    var i := 0;
    while i < |ids|
      invariant 0 <= i <= |ids|
      invariant FirstContaining(db.associatedTitles, ids, n, 0) == FirstContaining(db.associatedTitles, ids, n, i)
    {
      var x := db.associatedTitles[ids[i]];
      if IsSubstring(x.title, n) {
        return Suggestion(Some(x.categoryId), "contains", Some(x.title));
      }
      i := i + 1;
    }
    s := Suggestion(None, "none", None);
  }

  // ---------------------------------------------------------------------------
  // `update_associated_title`.

  /** `AssociatedTitleUpdate`: each field left out, sent as null or given. */
  datatype TitleUpdate = TitleUpdate(title: Field<string>, categoryId: Field<Id>, isExactMatch: Field<bool>)

  /** A null title raises `AttributeError` on `.lower()`, and a null category or
      flag lands on a NOT NULL column and fails the commit. */
  predicate SendsNull(u: TitleUpdate) {
    u.title.Null? || u.categoryId.Null? || u.isExactMatch.Null?
  }

  function UpdateTitle(titles: map<Id, AssociatedTitle>, userId: Id, id: Id, u: TitleUpdate): Result<map<Id, AssociatedTitle>> {
    if id !in titles || titles[id].userId != userId then Err(NotFound("Associated title not found"))
    else if SendsNull(u) then Err(ServerError("Internal server error"))
    else
      var x := titles[id];
      Ok(titles[id := x.(title := if u.title.Given? then Normalize(u.title.value) else x.title,
                         categoryId := Put(u.categoryId, x.categoryId),
                         isExactMatch := Put(u.isExactMatch, x.isExactMatch))])
  }

  /** Update finds only the caller's entry and fails on a null; a new title is
      stored normalised, a field not sent is kept, and no other entry changes. */
  lemma UpdateTitleSpec(titles: map<Id, AssociatedTitle>, userId: Id, id: Id, u: TitleUpdate)
    ensures var r := UpdateTitle(titles, userId, id, u);
      var owned := id in titles && titles[id].userId == userId;
      (r.Ok? <==> owned && !SendsNull(u))
      && (!owned ==> r == Err(NotFound("Associated title not found")))
      && (owned && SendsNull(u) ==> r == Err(ServerError("Internal server error")))
      && (r.Ok? ==>
            r.value.Keys == titles.Keys
            && (u.title.Given? ==> r.value[id].title == Normalize(u.title.value))
            && (u.title.Absent? ==> r.value[id].title == titles[id].title)
            && (u.categoryId.Given? ==> r.value[id].categoryId == u.categoryId.value)
            && (u.categoryId.Absent? ==> r.value[id].categoryId == titles[id].categoryId)
            && (u.isExactMatch.Given? ==> r.value[id].isExactMatch == u.isExactMatch.value)
            && (u.isExactMatch.Absent? ==> r.value[id].isExactMatch == titles[id].isExactMatch)
            && r.value[id].userId == userId
            && (NormalizedTitles(titles) ==> NormalizedTitles(r.value))
            && forall k :: k in titles && k != id ==> r.value[k] == titles[k])
  {
    if u.title.Given? {
      NormalizeIdempotent(u.title.value);
    }
  }

  /** Unlike create, update does not merge: renaming one entry to another's title
      leaves two entries with that title. */
  lemma UpdateCanDuplicate()
    ensures var titles := map[1 := AssociatedTitle(0, "a", 7, false, 0), 2 := AssociatedTitle(0, "b", 8, false, 0)];
      UniqueTitles(titles)
      && var r := UpdateTitle(titles, 0, 2, TitleUpdate(Given("a"), Absent, Absent));
      r.Ok? && !UniqueTitles(r.value)
  {
    var titles := map[1 := AssociatedTitle(0, "a", 7, false, 0), 2 := AssociatedTitle(0, "b", 8, false, 0)];
    assert titles[1].title != titles[2].title;
    var r := UpdateTitle(titles, 0, 2, TitleUpdate(Given("a"), Absent, Absent));
    assert Normalize("a") == "a";
    assert r.value[1].title == r.value[2].title;
  }

  method UpdateAssociatedTitle(db: Db, userId: Id, id: Id, u: TitleUpdate) returns (r: Result<AssociatedTitle>)
    modifies db`associatedTitles
    ensures var m := UpdateTitle(old(db.associatedTitles), userId, id, u);
      (r.Err? <==> m.Err?)
      && (r.Err? ==> r == Err(m.error) && db.associatedTitles == old(db.associatedTitles))
      && (r.Ok? ==> db.associatedTitles == m.value && r.value == m.value[id])
  {
    var m := UpdateTitle(db.associatedTitles, userId, id, u);
    if m.Err? {
      return Err(m.error);
    }
    db.associatedTitles := m.value;
    r := Ok(db.associatedTitles[id]);
  }
}
