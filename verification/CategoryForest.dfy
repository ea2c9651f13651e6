/** The category tree as a value: what each call of `MemoryInventoryCategories` does to it, over whole runs. */
module CategoryForest {
  import opened Outcomes
  import opened CategoryCursor

  /** Every id has passed the request schema. */
  type CategoryId = id: string | ValidId(id) witness "a"

  type ItemId = string

  datatype Category = Category(name: string, parent: Option<CategoryId>, sortOrder: nat, archived: bool, version: nat)

  datatype Item = Item(retired: bool, node: Option<CategoryId>)

  type Categories = map<CategoryId, Category>

  datatype Taxonomy = Taxonomy(categories: Categories, items: map<ItemId, Item>)

  /** Name handling taken from the domain package: trimming, which may refuse, and the sibling key. */
  datatype Naming = Naming(clean: string -> Option<string>, key: string -> string)

  // ---------- the calls ----------

  predicate Taken(naming: Naming, cs: Categories, name: string, parent: Option<CategoryId>, self: CategoryId) {
    exists other :: other in cs && other != self && cs[other].parent == parent
      && naming.key(cs[other].name) == naming.key(name)
  }

  function Create(
    naming: Naming, cs: Categories, id: CategoryId, name: string, parent: Option<CategoryId>, sortOrder: nat)
    : Result<Categories>
  {
    if parent.Some? && parent.value !in cs then Err(NotFound)
    else if parent.Some? && (cs[parent.value].parent.Some? || cs[parent.value].archived) then Err(Validation)
    else
      var cleaned := naming.clean(name);
      if cleaned.None? then Err(Validation)
      else if Taken(naming, cs, cleaned.value, parent, id) || id in cs then Err(Conflict)
      else Ok(cs[id := Category(cleaned.value, parent, sortOrder, false, 1)])
  }

  function Update(
    naming: Naming, cs: Categories, id: CategoryId, name: Option<string>, sortOrder: Option<nat>, expected: int)
    : Result<Categories>
  {
    if id !in cs then Err(NotFound)
    else if expected < 1 then Err(Validation)
    else if cs[id].version != expected then Err(Conflict)
    else
      var cleaned := if name.None? then Some(cs[id].name) else naming.clean(name.value);
      if cleaned.None? then Err(Validation)
      else if Taken(naming, cs, cleaned.value, cs[id].parent, id) then Err(Conflict)
      else
        var order := if sortOrder.Some? then sortOrder.value else cs[id].sortOrder;
        Ok(cs[id := cs[id].(name := cleaned.value, sortOrder := order, version := cs[id].version + 1)])
  }

  predicate HasActiveChild(cs: Categories, id: CategoryId) {
    exists child :: child in cs && cs[child].parent == Some(id) && !cs[child].archived
  }

  predicate HasActiveItem(items: map<ItemId, Item>, id: CategoryId) {
    exists item :: item in items && !items[item].retired && items[item].node == Some(id)
  }

  function Archive(cs: Categories, items: map<ItemId, Item>, id: CategoryId, expected: int): Result<Categories> {
    if id !in cs then Err(NotFound)
    else if expected < 1 then Err(Validation)
    else if cs[id].version != expected then Err(Conflict)
    else if HasActiveChild(cs, id) || HasActiveItem(items, id) then Err(Conflict)
    else Ok(cs[id := cs[id].(archived := true, version := cs[id].version + 1)])
  }

  /** Creating or moving an item goes through the service's check of the category it names. */
  function PlaceItem(t: Taxonomy, item: ItemId, node: Option<CategoryId>): Result<Taxonomy> {
    if node.Some? && node.value !in t.categories then Err(NotFound)
    else if node.Some? && t.categories[node.value].archived then Err(Validation)
    else
      var retired := item in t.items && t.items[item].retired;
      Ok(t.(items := t.items[item := Item(retired, node)]))
  }

  // ---------- runs ----------

  datatype Step =
    | DoCreate(id: CategoryId, name: string, parent: Option<CategoryId>, sortOrder: nat)
    | DoUpdate(id: CategoryId, rename: Option<string>, reorder: Option<nat>, expected: int)
    | DoArchive(id: CategoryId, expected: int)
    | DoPlaceItem(item: ItemId, node: Option<CategoryId>)
    | DoRetireItem(item: ItemId)

  function WithCategories(t: Taxonomy, cs: Result<Categories>): Taxonomy {
    if cs.Ok? then t.(categories := cs.value) else t
  }

  function Apply(naming: Naming, t: Taxonomy, step: Step): Taxonomy {
    match step
    case DoCreate(id, name, parent, sortOrder) =>
      WithCategories(t, Create(naming, t.categories, id, name, parent, sortOrder))
    case DoUpdate(id, rename, reorder, expected) =>
      WithCategories(t, Update(naming, t.categories, id, rename, reorder, expected))
    case DoArchive(id, expected) => WithCategories(t, Archive(t.categories, t.items, id, expected))
    case DoPlaceItem(item, node) => (match PlaceItem(t, item, node) case Ok(placed) => placed case Err(_) => t)
    case DoRetireItem(item) =>
      if item in t.items then t.(items := t.items[item := t.items[item].(retired := true)]) else t
  }

  function Run(naming: Naming, t: Taxonomy, steps: seq<Step>): Taxonomy {
    if steps == [] then t else Apply(naming, Run(naming, t, steps[..|steps| - 1]), steps[|steps| - 1])
  }

  /** Two levels at most, and nothing active under an archived category. */
  ghost predicate Rooted(cs: Categories) {
    forall id :: id in cs && cs[id].parent.Some? ==>
      var above := cs[id].parent.value;
      above in cs && cs[above].parent.None? && (cs[above].archived ==> cs[id].archived)
  }

  ghost predicate SiblingsDistinct(naming: Naming, cs: Categories) {
    forall a, b :: a in cs && b in cs && a != b && cs[a].parent == cs[b].parent ==>
      naming.key(cs[a].name) != naming.key(cs[b].name)
  }

  /** An item that is still in use sits in a category that is still in use. */
  ghost predicate ItemsPlaced(t: Taxonomy) {
    forall item :: item in t.items && !t.items[item].retired && t.items[item].node.Some? ==>
      t.items[item].node.value in t.categories && !t.categories[t.items[item].node.value].archived
  }

  ghost predicate Inv(naming: Naming, t: Taxonomy) {
    Rooted(t.categories) && SiblingsDistinct(naming, t.categories) && ItemsPlaced(t)
  }

  lemma CreateKeeps(
    naming: Naming, t: Taxonomy, id: CategoryId, name: string, parent: Option<CategoryId>, sortOrder: nat)
    requires Inv(naming, t)
    ensures Inv(naming, WithCategories(t, Create(naming, t.categories, id, name, parent, sortOrder)))
  {
    var result := Create(naming, t.categories, id, name, parent, sortOrder);
    if result.Ok? {
      var before, after := t.categories, result.value;
      forall other | other in after && after[other].parent.Some?
        ensures var above := after[other].parent.value;
                above in after && after[above].parent.None? && (after[above].archived ==> after[other].archived)
      {
        if other != id {
          assert other in before;
        }
      }
      forall a, b | a in after && b in after && a != b && after[a].parent == after[b].parent
        ensures naming.key(after[a].name) != naming.key(after[b].name)
      {
        if a != id && b != id {
          assert a in before && b in before;
        }
      }
    }
  }

  lemma UpdateKeeps(
    naming: Naming, t: Taxonomy, id: CategoryId, name: Option<string>, sortOrder: Option<nat>, expected: int)
    requires Inv(naming, t)
    ensures Inv(naming, WithCategories(t, Update(naming, t.categories, id, name, sortOrder, expected)))
  {
    var result := Update(naming, t.categories, id, name, sortOrder, expected);
    if result.Ok? {
      var before, after := t.categories, result.value;
      assert after.Keys == before.Keys;
      forall a, b | a in after && b in after && a != b && after[a].parent == after[b].parent
        ensures naming.key(after[a].name) != naming.key(after[b].name)
      {
        assert before[a].parent == before[b].parent;
      }
    }
  }

  lemma ArchiveKeeps(naming: Naming, t: Taxonomy, id: CategoryId, expected: int)
    requires Inv(naming, t)
    ensures Inv(naming, WithCategories(t, Archive(t.categories, t.items, id, expected)))
  {
    var result := Archive(t.categories, t.items, id, expected);
    if result.Ok? {
      assert result.value.Keys == t.categories.Keys;
      assert !HasActiveChild(t.categories, id) && !HasActiveItem(t.items, id);
    }
  }

  lemma {:induction false} RunKeeps(naming: Naming, t: Taxonomy, steps: seq<Step>)
    requires Inv(naming, t)
    ensures Inv(naming, Run(naming, t, steps))
  {
    if steps != [] {
      var before := Run(naming, t, steps[..|steps| - 1]);
      RunKeeps(naming, t, steps[..|steps| - 1]);
      match steps[|steps| - 1]
      case DoCreate(id, name, parent, sortOrder) => CreateKeeps(naming, before, id, name, parent, sortOrder);
      case DoUpdate(id, rename, reorder, expected) => UpdateKeeps(naming, before, id, rename, reorder, expected);
      case DoArchive(id, expected) => ArchiveKeeps(naming, before, id, expected);
      case DoPlaceItem(item, node) =>
      case DoRetireItem(item) =>
    }
  }

  // ---------- what never changes ----------

  /** A category keeps its place, its archived mark never goes away, and its version never falls. */
  ghost predicate Later(before: Category, after: Category) {
    after.parent == before.parent && (before.archived ==> after.archived) && before.version <= after.version
  }

  lemma {:induction false} CategoriesStay(naming: Naming, t: Taxonomy, steps: seq<Step>, id: CategoryId)
    requires id in t.categories
    ensures id in Run(naming, t, steps).categories
    ensures Later(t.categories[id], Run(naming, t, steps).categories[id])
  {
    if steps != [] {
      CategoriesStay(naming, t, steps[..|steps| - 1], id);
    }
  }

  lemma ArchivedIsUnused(naming: Naming, t: Taxonomy, id: CategoryId)
    requires Inv(naming, t) && id in t.categories && t.categories[id].archived
    ensures !HasActiveChild(t.categories, id) && !HasActiveItem(t.items, id)
  {
  }

  lemma NoNewChild(naming: Naming, t: Taxonomy, step: Step, id: CategoryId, child: CategoryId)
    requires id in t.categories && t.categories[id].archived
    requires child in Apply(naming, t, step).categories && Apply(naming, t, step).categories[child].parent == Some(id)
    ensures child in t.categories && t.categories[child].parent == Some(id)
  {
    hide Taken, HasActiveChild, HasActiveItem;
  }

  /** An archived category gains no child and no item in use, whatever happens later. */
  lemma {:induction false} ArchivedForGood(naming: Naming, t: Taxonomy, steps: seq<Step>, id: CategoryId)
    requires Inv(naming, t) && id in t.categories && t.categories[id].archived
    ensures var after := Run(naming, t, steps);
            && (forall child :: child in after.categories && after.categories[child].parent == Some(id) ==>
              child in t.categories)
            && !HasActiveChild(after.categories, id) && !HasActiveItem(after.items, id)
  {
    hide Apply, Inv, HasActiveChild, HasActiveItem;
    var after := Run(naming, t, steps);
    CategoriesStay(naming, t, steps, id);
    RunKeeps(naming, t, steps);
    ArchivedIsUnused(naming, after, id);
    if steps != [] {
      var rest, last := steps[..|steps| - 1], steps[|steps| - 1];
      var before := Run(naming, t, rest);
      ArchivedForGood(naming, t, rest, id);
      CategoriesStay(naming, t, rest, id);
      forall child | child in after.categories && after.categories[child].parent == Some(id)
        ensures child in t.categories
      {
        NoNewChild(naming, before, last, id, child);
      }
    }
  }

  /** A cursor handed out once names its category for ever. */
  lemma CursorStaysGood(naming: Naming, t: Taxonomy, steps: seq<Step>, id: CategoryId, legacy: LegacyParser)
    requires id in t.categories
    ensures Decode(Encode(id), legacy) == Ok(id) && id in Run(naming, t, steps).categories
  {
    RoundTrip(id, legacy);
    CategoriesStay(naming, t, steps, id);
  }

  /** The same expectation is honoured once: after it, every repeat of it is a conflict. */
  lemma OneUpdateWins(naming: Naming, t: Taxonomy, first: Step, between: seq<Step>, id: CategoryId, expected: int,
                      name: Option<string>, sortOrder: Option<nat>)
    requires id in t.categories && expected >= 1
    requires (first.DoUpdate? || first.DoArchive?) && first.id == id && first.expected == expected
    requires Apply(naming, t, first) != t
    ensures var later := Run(naming, Apply(naming, t, first), between);
            && Update(naming, later.categories, id, name, sortOrder, expected) == Err(Conflict)
            && Archive(later.categories, later.items, id, expected) == Err(Conflict)
  {
    CategoriesStay(naming, Apply(naming, t, first), between, id);
  }

  // ---------- the built-in categories ----------

  /** Lower-case words joined by hyphens, as the built-in slugs are. */
  type Slug = slug: string | |slug| <= 120 && forall i :: 0 <= i < |slug| ==> 'a' <= slug[i] <= 'z' || slug[i] == '-'

  function SlugId(slug: Slug): CategoryId {
    "category-" + slug
  }

  /** The seed: one active, top-level category for each slug, in the order of the list. */
  function BuiltIn(slugs: seq<Slug>, title: Slug -> string): Categories {
    if slugs == [] then map[]
    else
      var last := slugs[|slugs| - 1];
      BuiltIn(slugs[..|slugs| - 1], title)[SlugId(last) := Category(title(last), None, |slugs| - 1, false, 1)]
  }

  lemma {:induction false} BuiltInFlat(slugs: seq<Slug>, title: Slug -> string)
    ensures forall id :: id in BuiltIn(slugs, title) ==>
              var c := BuiltIn(slugs, title)[id];
              && c.parent == None && !c.archived
              && exists slug: Slug :: slug in slugs && id == SlugId(slug) && c.name == title(slug)
  {
    if slugs != [] {
      BuiltInFlat(slugs[..|slugs| - 1], title);
      assert slugs[|slugs| - 1] in slugs;
    }
  }

  /** The base case: the built-in categories, whose names have different keys, are a sound start for any run. */
  lemma BuiltInSound(naming: Naming, slugs: seq<Slug>, title: Slug -> string)
    requires forall a: Slug, b: Slug :: a in slugs && b in slugs && naming.key(title(a)) == naming.key(title(b)) ==>
               a == b
    ensures Inv(naming, Taxonomy(BuiltIn(slugs, title), map[]))
  {
    hide BuiltIn;
    BuiltInFlat(slugs, title);
    var cs := BuiltIn(slugs, title);
    forall a, b | a in cs && b in cs && a != b ensures naming.key(cs[a].name) != naming.key(cs[b].name) {
      var x: Slug :| x in slugs && a == SlugId(x) && cs[a].name == title(x);
      var y: Slug :| y in slugs && b == SlugId(y) && cs[b].name == title(y);
    }
  }
}
