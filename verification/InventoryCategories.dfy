/** `MemoryInventoryCategories`: the category table updated in place, and its pages. */
module InventoryCategories {
  import opened Outcomes
  import opened CategoryCursor
  import opened CategoryForest
  import opened CategoryListing

  class MemoryInventoryCategories {
    const naming: Naming
    const legacy: LegacyParser
    var categories: Categories

    constructor (naming: Naming, legacy: LegacyParser, seed: Categories)
      ensures categories == seed && this.naming == naming && this.legacy == legacy
    {
      this.naming, this.legacy, categories := naming, legacy, seed;
    }

    method CreateCategory(id: CategoryId, name: string, parent: Option<CategoryId>, sortOrder: nat)
      returns (created: Result<Category>)
      modifies this
      ensures match Create(naming, old(categories), id, name, parent, sortOrder)
              case Ok(after) => categories == after && created == Ok(after[id])
              case Err(error) => categories == old(categories) && created == Err(error)
    {
      if parent.Some? {
        if parent.value !in categories {
          return Err(NotFound);
        }
        if categories[parent.value].parent.Some? || categories[parent.value].archived {
          return Err(Validation);
        }
      }
      var cleaned := naming.clean(name);
      if cleaned.None? {
        return Err(Validation);
      }
      if Taken(naming, categories, cleaned.value, parent, id) {
        return Err(Conflict);
      }
      var category := Category(cleaned.value, parent, sortOrder, false, 1);
      if id in categories {
        return Err(Conflict);
      }
      categories := categories[id := category];
      return Ok(category);
    }

    method UpdateCategory(id: CategoryId, name: Option<string>, sortOrder: Option<nat>, expected: int)
      returns (updated: Result<Category>)
      modifies this
      ensures match Update(naming, old(categories), id, name, sortOrder, expected)
              case Ok(after) => categories == after && updated == Ok(after[id])
              case Err(error) => categories == old(categories) && updated == Err(error)
    {
      if id !in categories {
        return Err(NotFound);
      }
      var current := categories[id];
      if expected < 1 {
        return Err(Validation);
      }
      if current.version != expected {
        return Err(Conflict);
      }
      var cleaned := current.name;
      if name.Some? {
        var given := naming.clean(name.value);
        if given.None? {
          return Err(Validation);
        }
        cleaned := given.value;
      }
      if Taken(naming, categories, cleaned, current.parent, id) {
        return Err(Conflict);
      }
      var order := if sortOrder.Some? then sortOrder.value else current.sortOrder;
      var next := current.(name := cleaned, sortOrder := order, version := current.version + 1);
      categories := categories[id := next];
      return Ok(next);
    }

    method ArchiveCategory(items: map<ItemId, Item>, id: CategoryId, expected: int) returns (archived: Result<Category>)
      modifies this
      ensures match Archive(old(categories), items, id, expected)
              case Ok(after) => categories == after && archived == Ok(after[id])
              case Err(error) => categories == old(categories) && archived == Err(error)
    {
      if id !in categories {
        return Err(NotFound);
      }
      var current := categories[id];
      if expected < 1 {
        return Err(Validation);
      }
      if current.version != expected || HasActiveChild(categories, id) || HasActiveItem(items, id) {
        return Err(Conflict);
      }
      var next := current.(archived := true, version := current.version + 1);
      categories := categories[id := next];
      return Ok(next);
    }

    /** The whole table in order, whatever order it is stored in. */
    method Sorted() returns (all: seq<CategoryId>)
      ensures IsListing(naming, categories, true, all)
    {
      hide Before;
      all := [];
      var rest := categories.Keys;
      while rest != {}
        invariant rest <= categories.Keys
        invariant Ordered(naming, categories, all)
        invariant forall id: CategoryId :: id in all <==> id in categories && id !in rest
        decreases rest
      {
        var next: CategoryId :| next in rest;
        var at: nat := |all|;
        while at > 0 && Before(naming, categories, next, all[at - 1])
          invariant at <= |all|
          invariant forall i :: at <= i < |all| ==> Before(naming, categories, next, all[i])
        {
          at := at - 1;
        }
        ghost var was := all;
        InsertKeepsOrder(naming, categories, all, next, at);
        all := all[..at] + [next] + all[at..];
        rest := rest - {next};
        assert was == was[..at] + was[at..];
      }
    }

    method ListCategories(includeArchived: bool, limit: nat, cursor: Option<string>)
      returns (page: Result<CategoryPage>)
      ensures cursor == None ==> page.Ok? && IsPage(naming, categories, includeArchived, limit, None, page.value)
      ensures cursor.Some? ==>
                var position := Decode(cursor.value, legacy);
                if position.Err? || position.value !in categories then page == Err(Validation)
                else page.Ok? && IsPage(naming, categories, includeArchived, limit, Some(position.value), page.value)
    {
      hide Before, Ordered, Encode, Decode, IsPage;
      var all := Sorted();
      var at: Option<CategoryId> := None;
      if cursor.Some? {
        var position := Decode(cursor.value, legacy);
        if position.Err? || position.value !in categories {
          return Err(Validation);
        }
        at := Some(position.value);
      }
      var table, rules := categories, naming;
      var shown := Keep(all, (id: CategoryId) => Shown(table, includeArchived, id));
      var visible := Keep(all,
        (id: CategoryId) => Shown(table, includeArchived, id) && (at.None? || Before(rules, table, at.value, id)));
      var size := if limit < |visible| then limit else |visible|;
      var next := if |visible| > size && size > 0 then Some(Encode(visible[size - 1])) else None;
      KeepOrdered(naming, table, all, (id: CategoryId) => Shown(table, includeArchived, id));
      KeepOrdered(naming, table, all,
        (id: CategoryId) => Shown(table, includeArchived, id) && (at.None? || Before(rules, table, at.value, id)));
      page := Ok(CategoryPage(visible[..size], |shown|, next));
      FilteredIsPage(naming, table, includeArchived, limit, at, shown, visible, page.value);
    }

    /** Following the cursors over an unchanged table lists every shown category once, in order. */
    method ReadCategories(includeArchived: bool, limit: nat) returns (ids: seq<CategoryId>)
      requires limit >= 1
      ensures IsListing(naming, categories, includeArchived, ids)
    {
      hide Before, Ordered, Encode, Decode, Compact, IsListing, IsPage, ReadSoFar;
      var page := ListCategories(includeArchived, limit, None);
      ghost var shown := FirstRead(naming, categories, includeArchived, limit, page.value);
      ids := page.value.data;
      while page.value.nextCursor.Some?
        invariant page.Ok? && ReadSoFar(shown, ids, page.value.nextCursor) && |ids| <= |shown|
        decreases |shown| - |ids|, page.value.nextCursor.Some?
      {
        ReadOn(naming, categories, includeArchived, limit, legacy, shown, ids, page.value.nextCursor.value);
        page := ListCategories(includeArchived, limit, page.value.nextCursor);
        ids := ids + page.value.data;
      }
      AllRead(shown, ids);
    }
  }

  /** The ids read are the front of the listing; the cursor names the last of them, or nothing is left. */
  ghost predicate ReadSoFar(shown: seq<CategoryId>, ids: seq<CategoryId>, next: Option<string>) {
    && ids <= shown
    && match next
       case None => ids == shown
       case Some(cursor) => ids != [] && cursor == Encode(ids[|ids| - 1])
  }

  lemma AllRead(shown: seq<CategoryId>, ids: seq<CategoryId>)
    requires ReadSoFar(shown, ids, None)
    ensures ids == shown
  {
  }

  lemma FirstRead(naming: Naming, cs: Categories, includeArchived: bool, limit: nat, page: CategoryPage)
    returns (shown: seq<CategoryId>)
    requires limit >= 1 && IsPage(naming, cs, includeArchived, limit, None, page)
    ensures IsListing(naming, cs, includeArchived, shown)
    ensures ReadSoFar(shown, page.data, page.nextCursor) && |page.data| <= |shown|
  {
    hide Before, Ordered, Encode;
    var from: nat;
    shown, from :| IsListing(naming, cs, includeArchived, shown) && StartsAfter(naming, cs, shown, None, from)
                   && CutPage(shown, from, limit, page);
    CutOn(shown, 0, limit, page);
    assert shown[..0] + page.data == page.data;
  }

  /** The next page, wherever it was read from, continues the reading. */
  lemma ReadOn(
    naming: Naming, cs: Categories, includeArchived: bool, limit: nat, legacy: LegacyParser,
    shown: seq<CategoryId>, ids: seq<CategoryId>, cursor: string)
    requires limit >= 1 && IsListing(naming, cs, includeArchived, shown) && ReadSoFar(shown, ids, Some(cursor))
    ensures Decode(cursor, legacy).Ok? && Decode(cursor, legacy).value in cs
    ensures forall page: CategoryPage ::
              IsPage(naming, cs, includeArchived, limit, Some(Decode(cursor, legacy).value), page) ==>
                && ReadSoFar(shown, ids + page.data, page.nextCursor)
                && |ids| + |page.data| <= |shown| && (page.nextCursor.Some? ==> page.data != [])
  {
    hide Before, Ordered, Encode, Decode, IsListing, StartsAfter, CutPage, IsPage;
    var last := ids[|ids| - 1];
    RoundTrip(last, legacy);
    assert last == shown[|ids| - 1];
    ListedInTable(naming, cs, includeArchived, shown, last);
    NextStart(naming, cs, includeArchived, shown, |ids|);
    forall page: CategoryPage | IsPage(naming, cs, includeArchived, limit, Some(last), page)
      ensures ReadSoFar(shown, ids + page.data, page.nextCursor) && |ids| + |page.data| <= |shown|
      ensures page.nextCursor.Some? ==> page.data != []
    {
      PageCutHere(naming, cs, includeArchived, limit, Some(last), page, shown, |ids|);
      CutOn(shown, |ids|, limit, page);
      assert shown[..|ids|] == ids;
    }
  }
}
