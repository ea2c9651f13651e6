/** What the category calls answer, as conditions on the tree, and which way a listing runs. */
module CategoryAnswers {
  import opened Outcomes
  import opened CategoryCursor
  import opened CategoryForest
  import opened CategoryListing
  import opened Tables

  /** No other category beside this place has the name. */
  ghost predicate NameFree(naming: Naming, cs: Categories, name: string, parent: Option<CategoryId>, self: CategoryId) {
    forall id :: id in cs && id != self && naming.key(cs[id].name) == naming.key(name) ==> cs[id].parent != parent
  }

  /** A category is created under nothing or under an unarchived root, with a usable name that no sibling has. */
  lemma CreateAnswers(
    naming: Naming, cs: Categories, id: CategoryId, name: string, parent: Option<CategoryId>, sortOrder: nat)
    ensures var answer := Create(naming, cs, id, name, parent, sortOrder);
            var missing := parent.Some? && parent.value !in cs;
            var barred := !missing && parent.Some?
              && (cs[parent.value].archived || cs[parent.value].parent != None);
            var unusable := naming.clean(name) == None;
            && (answer == Err(NotFound) <==> missing)
            && (answer == Err(Validation) <==> !missing && (barred || unusable))
            && (answer.Ok? <==> !missing && !barred && !unusable && id !in cs
                                && NameFree(naming, cs, naming.clean(name).value, parent, id))
            && (answer.Err? ==> answer.error in {NotFound, Validation, Conflict})
            && (answer.Ok? ==>
                  && OnlyAt(cs, answer.value, id) && !answer.value[id].archived && answer.value[id].version == 1
                  && Some(answer.value[id].name) == naming.clean(name)
                  && answer.value[id].parent == parent && answer.value[id].sortOrder == sortOrder)
  {
  }

  /** A change that names the current version renames, unless a sibling has the name, and reorders; the place stays. */
  lemma UpdateAnswers(
    naming: Naming, cs: Categories, id: CategoryId, name: Option<string>, sortOrder: Option<nat>, expected: int)
    ensures var answer := Update(naming, cs, id, name, sortOrder, expected);
            && (answer == Err(NotFound) <==> id !in cs)
            && (answer.Err? ==> answer.error in {NotFound, Validation, Conflict})
            && (id in cs ==>
                  var current := expected == cs[id].version && expected >= 1;
                  var unusable := name.Some? && naming.clean(name.value) == None;
                  && (answer == Err(Validation) <==> expected < 1 || (current && unusable))
                  && (answer.Ok? <==>
                        && current && !unusable
                        && NameFree(naming, cs, if name.Some? then naming.clean(name.value).value else cs[id].name,
                             cs[id].parent, id)))
            && (answer.Ok? ==>
                  && OnlyAt(cs, answer.value, id) && answer.value[id].version == cs[id].version + 1
                  && answer.value[id].parent == cs[id].parent && answer.value[id].archived == cs[id].archived
                  && Some(answer.value[id].name) == (if name.Some? then naming.clean(name.value) else Some(cs[id].name))
                  && (sortOrder == Some(answer.value[id].sortOrder)
                      || (sortOrder == None && answer.value[id].sortOrder == cs[id].sortOrder)))
  {
  }

  /** A category is archived once nothing that is in use is left in it: neither a category nor an item. */
  lemma ArchiveAnswers(cs: Categories, items: map<ItemId, Item>, id: CategoryId, expected: int)
    ensures var answer := Archive(cs, items, id, expected);
            && (answer == Err(NotFound) <==> id !in cs)
            && (answer == Err(Validation) <==> id in cs && expected < 1)
            && (answer.Err? ==> answer.error in {NotFound, Validation, Conflict})
            && (answer.Ok? <==>
                  && id in cs && expected >= 1 && cs[id].version == expected
                  && (forall child :: child in cs && cs[child].parent == Some(id) ==> cs[child].archived)
                  && (forall item :: item in items && items[item].node == Some(id) ==> items[item].retired))
            && (answer.Ok? ==>
                  && OnlyAt(cs, answer.value, id)
                  && answer.value[id] == cs[id].(archived := true, version := cs[id].version + 1))
  {
  }

  lemma PlaceAnswers(t: Taxonomy, item: ItemId, node: Option<CategoryId>)
    ensures var answer := PlaceItem(t, item, node);
            && (answer == Err(NotFound) <==> node.Some? && node.value !in t.categories)
            && (answer == Err(Validation) <==>
                  node.Some? && node.value in t.categories && t.categories[node.value].archived)
            && (answer.Err? ==> answer.error in {NotFound, Validation})
            && (answer.Ok? ==>
                  && answer.value.categories == t.categories && OnlyAt(t.items, answer.value.items, item)
                  && answer.value.items[item].node == node
                  && (answer.value.items[item].retired <==> item in t.items && t.items[item].retired))
  {
  }

  // ---------- which way a listing runs ----------

  /** The texts agree up to k, where the first ends or has the smaller letter. */
  predicate LowerAt(a: string, b: string, k: nat) {
    k <= |a| && k < |b| && a[..k] == b[..k] && (k < |a| ==> a[k] < b[k])
  }

  lemma FirstDiffers(a: string, b: string)
    requires a == "" || b == "" || a[0] != b[0]
    ensures forall k: nat :: LowerAt(a, b, k) ==> k == 0
  {
    forall k: nat ensures LowerAt(a, b, k) ==> k == 0 {
      if 0 < k <= |a| && k <= |b| {
        assert a[..k][0] == a[0] && b[..k][0] == b[0];
      }
    }
  }

  lemma {:induction false} LessIff(a: string, b: string)
    ensures Less(a, b) <==> exists k: nat :: LowerAt(a, b, k)
  {
    if a == "" || b == "" || a[0] != b[0] {
      if b != "" && (a == "" || a[0] < b[0]) {
        assert LowerAt(a, b, 0);
      }
      FirstDiffers(a, b);
    } else {
      LessIff(a[1..], b[1..]);
      if k: nat :| LowerAt(a[1..], b[1..], k) {
        assert a[..k + 1] == [a[0]] + a[1..][..k] && b[..k + 1] == [b[0]] + b[1..][..k];
        assert LowerAt(a, b, k + 1);
      }
      if k: nat :| LowerAt(a, b, k) {
        assert k > 0;
        assert a[1..][..k - 1] == a[..k][1..] && b[1..][..k - 1] == b[..k][1..];
        assert LowerAt(a[1..], b[1..], k - 1);
      }
    }
  }

  /**
   A listing shows what is to be shown, by rising sort order; where that is equal, by rising name; and where that is
   equal too, by rising id.
   */
  lemma ListingRises(naming: Naming, cs: Categories, includeArchived: bool, ids: seq<CategoryId>)
    requires IsListing(naming, cs, includeArchived, ids)
    ensures forall id: CategoryId :: id in ids <==> id in cs && (cs[id].archived ==> includeArchived)
    ensures forall i, j :: 0 <= i < j < |ids| ==>
              && cs[ids[i]].sortOrder <= cs[ids[j]].sortOrder
              && (cs[ids[i]].sortOrder == cs[ids[j]].sortOrder ==>
                    var left, right := naming.key(cs[ids[i]].name), naming.key(cs[ids[j]].name);
                    || (exists k: nat :: LowerAt(left, right, k))
                    || (left == right && exists k: nat :: LowerAt(ids[i], ids[j], k)))
  {
    forall i, j | 0 <= i < j < |ids|
      ensures ids[i] in cs && ids[j] in cs
      ensures cs[ids[i]].sortOrder <= cs[ids[j]].sortOrder
      ensures cs[ids[i]].sortOrder == cs[ids[j]].sortOrder ==>
                var left, right := naming.key(cs[ids[i]].name), naming.key(cs[ids[j]].name);
                || (exists k: nat :: LowerAt(left, right, k))
                || (left == right && exists k: nat :: LowerAt(ids[i], ids[j], k))
    {
      assert Before(naming, cs, ids[i], ids[j]);
      LessIff(naming.key(cs[ids[i]].name), naming.key(cs[ids[j]].name));
      LessIff(ids[i], ids[j]);
    }
  }

  ghost function AllShown(cs: Categories, includeArchived: bool): set<CategoryId> {
    set id | id in cs && (cs[id].archived ==> includeArchived)
  }

  lemma {:induction false} NoRepeats(ids: seq<CategoryId>)
    requires forall i, j :: 0 <= i < j < |ids| ==> ids[i] != ids[j]
    ensures |set id | id in ids| == |ids|
  {
    if ids == [] {
      assert (set id: CategoryId | id in ids) == {};
    } else {
      var rest, last := ids[..|ids| - 1], ids[|ids| - 1];
      NoRepeats(rest);
      assert ids == rest + [last];
      assert (set id | id in ids) == (set id | id in rest) + {last};
    }
  }

  lemma ListingLength(naming: Naming, cs: Categories, includeArchived: bool, ids: seq<CategoryId>)
    requires IsListing(naming, cs, includeArchived, ids)
    ensures |ids| == |AllShown(cs, includeArchived)|
  {
    ListingRises(naming, cs, includeArchived, ids);
    forall i, j | 0 <= i < j < |ids| ensures ids[i] != ids[j] {
      assert Before(naming, cs, ids[i], ids[j]);
      BeforeTotal(naming, cs, ids[i], ids[j]);
    }
    NoRepeats(ids);
    assert (set id | id in ids) == AllShown(cs, includeArchived);
  }

  /** What is shown behind the cursor's category and not on the page. */
  ghost function LeftAfter(
    naming: Naming, cs: Categories, includeArchived: bool, cursor: Option<CategoryId>, page: CategoryPage)
    : set<CategoryId>
  {
    set id | id in AllShown(cs, includeArchived) && id !in page.data
             && (cursor.Some? ==> Before(naming, cs, cursor.value, id))
  }

  /** The page was cut here. */
  ghost predicate CutHere(
    naming: Naming, cs: Categories, includeArchived: bool, cursor: Option<CategoryId>, page: CategoryPage,
    shown: seq<CategoryId>, from: nat)
  {
    && IsListing(naming, cs, includeArchived, shown) && StartsAfter(naming, cs, shown, cursor, from)
    && from + |page.data| <= |shown| && page.data == shown[from..from + |page.data|]
  }

  lemma InListing(naming: Naming, cs: Categories, includeArchived: bool, shown: seq<CategoryId>)
    requires IsListing(naming, cs, includeArchived, shown)
    ensures forall id: CategoryId :: id in AllShown(cs, includeArchived) <==> id in shown
  {
    hide Before;
    forall id: CategoryId ensures id in AllShown(cs, includeArchived) <==> id in shown {
      assert id in shown <==> Shown(cs, includeArchived, id);
    }
  }

  lemma OnPage(
    naming: Naming, cs: Categories, includeArchived: bool, cursor: Option<CategoryId>, page: CategoryPage,
    shown: seq<CategoryId>, from: nat, id: CategoryId)
    requires CutHere(naming, cs, includeArchived, cursor, page, shown, from) && id in page.data
    ensures id in AllShown(cs, includeArchived) && (cursor.Some? ==> Before(naming, cs, cursor.value, id))
  {
    hide Before, IsListing;
    InListing(naming, cs, includeArchived, shown);
    var k :| 0 <= k < |page.data| && page.data[k] == id;
    assert shown[from + k] == id;
  }

  lemma LeftBehind(
    naming: Naming, cs: Categories, includeArchived: bool, cursor: Option<CategoryId>, page: CategoryPage,
    shown: seq<CategoryId>, from: nat, id: CategoryId)
    requires CutHere(naming, cs, includeArchived, cursor, page, shown, from)
    ensures id in LeftAfter(naming, cs, includeArchived, cursor, page) <==> id in shown[from + |page.data|..]
  {
    hide Before, IsListing;
    InListing(naming, cs, includeArchived, shown);
    var to := from + |page.data|;
    if id in shown {
      var n :| 0 <= n < |shown| && shown[n] == id;
      if from <= n < to {
        assert page.data[n - from] == id;
      } else if to <= n {
        assert shown[to..][n - to] == id;
      }
    }
    if id in shown[to..] {
      var n :| 0 <= n < |shown[to..]| && shown[to..][n] == id;
      assert shown[to + n] == id;
      NotBefore(naming, cs, includeArchived, shown, from, to, to + n, page);
    }
  }

  lemma LeftLater(
    naming: Naming, cs: Categories, includeArchived: bool, cursor: Option<CategoryId>, page: CategoryPage,
    shown: seq<CategoryId>, from: nat, last: CategoryId, id: CategoryId)
    requires CutHere(naming, cs, includeArchived, cursor, page, shown, from)
    requires last in page.data && id in LeftAfter(naming, cs, includeArchived, cursor, page)
    ensures Before(naming, cs, last, id)
  {
    hide Before, LeftAfter;
    LeftBehind(naming, cs, includeArchived, cursor, page, shown, from, id);
    var to := from + |page.data|;
    var n :| 0 <= n < |shown[to..]| && shown[to..][n] == id;
    var k :| 0 <= k < |page.data| && page.data[k] == last;
    assert shown[from + k] == last && shown[to + n] == id;
  }

  /**
   A page holds the first `limit` of the shown categories behind the cursor's, states how many are shown in all, and
   has a cursor, that of its last category, if and only if some are left.
   */
  lemma PageHolds(
    naming: Naming, cs: Categories, includeArchived: bool, limit: nat, cursor: Option<CategoryId>, page: CategoryPage)
    requires limit >= 1 && (cursor.Some? ==> cursor.value in cs)
    requires IsPage(naming, cs, includeArchived, limit, cursor, page)
    ensures page.total == |AllShown(cs, includeArchived)| && |page.data| <= limit
    ensures forall id: CategoryId :: id in page.data ==>
              id in AllShown(cs, includeArchived) && (cursor.Some? ==> Before(naming, cs, cursor.value, id))
    ensures var left := LeftAfter(naming, cs, includeArchived, cursor, page);
            && (forall id, last :: id in left && last in page.data ==> Before(naming, cs, last, id))
            && (page.nextCursor.Some? <==> left != {})
            && (page.nextCursor.Some? ==>
                  |page.data| == limit && page.nextCursor == Some(Encode(page.data[limit - 1])))
  {
    hide Before, Encode, IsListing, StartsAfter, LeftAfter, AllShown;
    var shown, from: nat :|
      IsListing(naming, cs, includeArchived, shown) && StartsAfter(naming, cs, shown, cursor, from)
      && CutPage(shown, from, limit, page);
    ListingLength(naming, cs, includeArchived, shown);
    CutOn(shown, from, limit, page);
    var left, to := LeftAfter(naming, cs, includeArchived, cursor, page), from + |page.data|;
    assert CutHere(naming, cs, includeArchived, cursor, page, shown, from);
    hide CutPage;
    forall id: CategoryId | id in page.data
      ensures id in AllShown(cs, includeArchived) && (cursor.Some? ==> Before(naming, cs, cursor.value, id))
    {
      OnPage(naming, cs, includeArchived, cursor, page, shown, from, id);
    }
    forall id: CategoryId ensures id in left <==> id in shown[to..] {
      LeftBehind(naming, cs, includeArchived, cursor, page, shown, from, id);
    }
    assert to < |shown| ==> shown[to..][0] in left;
    forall id, last | id in left && last in page.data ensures Before(naming, cs, last, id) {
      LeftLater(naming, cs, includeArchived, cursor, page, shown, from, last, id);
    }
  }

  lemma NotBefore(
    naming: Naming, cs: Categories, includeArchived: bool, shown: seq<CategoryId>, from: nat, to: nat, n: nat,
    page: CategoryPage)
    requires IsListing(naming, cs, includeArchived, shown) && from <= to <= n < |shown| && page.data == shown[from..to]
    ensures shown[n] !in page.data
  {
    hide Before;
    forall k | 0 <= k < |page.data| ensures page.data[k] != shown[n] {
      assert Before(naming, cs, shown[from + k], shown[n]);
      assert shown[from + k] in shown && shown[n] in shown;
      BeforeTotal(naming, cs, shown[from + k], shown[n]);
    }
  }

  // ---------- the seed ----------

  /** The built-in categories are roots in use, numbered in the order of the list. */
  lemma {:induction false} BuiltInAt(slugs: seq<Slug>, title: Slug -> string, n: nat)
    requires n < |slugs| && forall j, k :: 0 <= j < k < |slugs| ==> slugs[j] != slugs[k]
    ensures SlugId(slugs[n]) in BuiltIn(slugs, title)
    ensures BuiltIn(slugs, title)[SlugId(slugs[n])] == Category(title(slugs[n]), None, n, false, 1)
    ensures SlugId(slugs[n])[..9] == "category-" && SlugId(slugs[n])[9..] == slugs[n]
  {
    if n < |slugs| - 1 {
      BuiltInAt(slugs[..|slugs| - 1], title, n);
      assert SlugId(slugs[|slugs| - 1])[9..] == slugs[|slugs| - 1];
      assert slugs[n] != slugs[|slugs| - 1];
    }
  }
}
