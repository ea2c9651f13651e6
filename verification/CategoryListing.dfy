/** The order of categories and keyset paging over it. */
module CategoryListing {
  import opened Outcomes
  import opened CategoryCursor
  import opened CategoryForest

  // ---------- a strict total order ----------

  /** The language's `<` on strings. */
  predicate Less(a: string, b: string) {
    b != "" && (a == "" || a[0] < b[0] || (a[0] == b[0] && Less(a[1..], b[1..])))
  }

  lemma {:induction false} LessTotal(a: string, b: string)
    ensures a == b ==> !Less(a, b)
    ensures a != b ==> Less(a, b) != Less(b, a)
  {
    if a != "" && b != "" {
      LessTotal(a[1..], b[1..]);
      assert a == [a[0]] + a[1..] && b == [b[0]] + b[1..];
    }
  }

  lemma {:induction false} LessTransitive(a: string, b: string, c: string)
    requires Less(a, b) && Less(b, c)
    ensures Less(a, c)
  {
    if a != "" && a[0] == b[0] == c[0] {
      LessTransitive(a[1..], b[1..], c[1..]);
    }
  }

  /** `compareInventoryCategories(left, right) < 0`. */
  predicate Before(naming: Naming, cs: Categories, a: CategoryId, b: CategoryId) {
    && a in cs && b in cs
    && var left, right := naming.key(cs[a].name), naming.key(cs[b].name);
       cs[a].sortOrder < cs[b].sortOrder
       || (cs[a].sortOrder == cs[b].sortOrder && (Less(left, right) || (left == right && Less(a, b))))
  }

  lemma BeforeTotal(naming: Naming, cs: Categories, a: CategoryId, b: CategoryId)
    requires a in cs && b in cs
    ensures a == b ==> !Before(naming, cs, a, b)
    ensures a != b ==> Before(naming, cs, a, b) != Before(naming, cs, b, a)
  {
    LessTotal(naming.key(cs[a].name), naming.key(cs[b].name));
    LessTotal(a, b);
  }

  lemma BeforeTransitive(naming: Naming, cs: Categories, a: CategoryId, b: CategoryId, c: CategoryId)
    requires Before(naming, cs, a, b) && Before(naming, cs, b, c)
    ensures Before(naming, cs, a, c)
  {
    hide Less;
    var x, y, z := naming.key(cs[a].name), naming.key(cs[b].name), naming.key(cs[c].name);
    if Less(x, y) && Less(y, z) {
      LessTransitive(x, y, z);
    }
    if Less(a, b) && Less(b, c) {
      LessTransitive(a, b, c);
    }
  }

  // ---------- sorted listings ----------

  ghost predicate Ordered(naming: Naming, cs: Categories, ids: seq<CategoryId>) {
    forall i, j :: 0 <= i < j < |ids| ==> Before(naming, cs, ids[i], ids[j])
  }

  predicate Shown(cs: Categories, includeArchived: bool, id: CategoryId) {
    id in cs && (includeArchived || !cs[id].archived)
  }

  /** Every category to show, each once, in order. */
  ghost predicate IsListing(naming: Naming, cs: Categories, includeArchived: bool, ids: seq<CategoryId>) {
    Ordered(naming, cs, ids) && forall id: CategoryId :: id in ids <==> Shown(cs, includeArchived, id)
  }

  lemma FirstIsMember(ids: seq<CategoryId>)
    ensures ids == [] || ids[0] in ids
  {
  }

  /** There is only one such listing. */
  lemma {:induction false} OrderedUnique(naming: Naming, cs: Categories, a: seq<CategoryId>, b: seq<CategoryId>)
    requires Ordered(naming, cs, a) && Ordered(naming, cs, b)
    requires forall id: CategoryId :: id in a <==> id in b
    requires forall id: CategoryId :: id in a ==> id in cs
    ensures a == b
  {
    hide Before;
    if a == [] {
      FirstIsMember(b);
    } else {
      assert a[0] in b;
      assert b[0] in a;
      var i :| 0 <= i < |a| && a[i] == b[0];
      var j :| 0 <= j < |b| && b[j] == a[0];
      BeforeTotal(naming, cs, a[0], b[0]);
      assert a[0] == b[0];
      forall id: CategoryId | id in a[1..] ensures id in b[1..] {
        NotFirst(naming, cs, a, id);
      }
      forall id: CategoryId | id in b[1..] ensures id in a[1..] {
        NotFirst(naming, cs, b, id);
      }
      OrderedUnique(naming, cs, a[1..], b[1..]);
      assert a == [a[0]] + a[1..] && b == [b[0]] + b[1..];
    }
  }

  lemma NotFirst(naming: Naming, cs: Categories, ids: seq<CategoryId>, id: CategoryId)
    requires Ordered(naming, cs, ids) && ids != [] && id in ids[1..]
    ensures id in ids && id != ids[0]
  {
    hide Before;
    var k :| 0 <= k < |ids[1..]| && ids[1..][k] == id;
    assert ids[k + 1] == id;
    assert Before(naming, cs, ids[0], id);
    InTable(naming, cs, ids[0], id);
    BeforeTotal(naming, cs, ids[0], id);
  }

  lemma InTable(naming: Naming, cs: Categories, a: CategoryId, b: CategoryId)
    requires Before(naming, cs, a, b)
    ensures a in cs && b in cs
  {
  }

  // ---------- one page ----------

  function Keep(ids: seq<CategoryId>, keep: CategoryId -> bool): (kept: seq<CategoryId>)
    ensures forall id: CategoryId :: id in kept <==> id in ids && keep(id)
  {
    if ids == [] then []
    else
      var rest, last := ids[..|ids| - 1], ids[|ids| - 1];
      assert ids == rest + [last];
      Keep(rest, keep) + if keep(last) then [last] else []
  }

  lemma {:induction false} KeepOrdered(naming: Naming, cs: Categories, ids: seq<CategoryId>, keep: CategoryId -> bool)
    requires Ordered(naming, cs, ids)
    ensures Ordered(naming, cs, Keep(ids, keep))
  {
    hide Before;
    if ids != [] {
      var rest, last := ids[..|ids| - 1], ids[|ids| - 1];
      KeepOrdered(naming, cs, rest, keep);
      forall id: CategoryId | id in Keep(rest, keep) ensures Before(naming, cs, id, last) {
        var k :| 0 <= k < |rest| && rest[k] == id;
        assert ids[k] == id;
      }
    }
  }

  datatype CategoryPage = CategoryPage(data: seq<CategoryId>, total: nat, nextCursor: Option<string>)

  /** The page after the position of `cursor`, cut from the listing of what is shown. */
  ghost predicate IsPage(naming: Naming, cs: Categories, includeArchived: bool, limit: nat, cursor: Option<CategoryId>,
                         page: CategoryPage)
    requires cursor.Some? ==> cursor.value in cs
  {
    exists shown, from: nat ::
      IsListing(naming, cs, includeArchived, shown) && StartsAfter(naming, cs, shown, cursor, from)
      && CutPage(shown, from, limit, page)
  }

  ghost predicate StartsAfter(
    naming: Naming, cs: Categories, shown: seq<CategoryId>, cursor: Option<CategoryId>, from: nat)
  {
    && from <= |shown|
    && (cursor == None ==> from == 0)
    && (cursor.Some? ==> forall i :: 0 <= i < |shown| ==> (from <= i <==> Before(naming, cs, cursor.value, shown[i])))
  }

  ghost predicate CutPage(shown: seq<CategoryId>, from: nat, limit: nat, page: CategoryPage)
  {
    var to := if from + limit < |shown| then from + limit else |shown|;
    && from <= |shown| && page.data == shown[from..to] && page.total == |shown|
    && page.nextCursor == if to < |shown| && from < to then Some(Encode(shown[to - 1])) else None
  }

  /** A cut page goes on where the reading stands, and its cursor names the last id read. */
  lemma CutOn(shown: seq<CategoryId>, from: nat, limit: nat, page: CategoryPage)
    requires CutPage(shown, from, limit, page) && limit >= 1
    ensures var to := from + |page.data|;
            && from <= to <= |shown| && shown[..from] + page.data == shown[..to] && (from < |shown| ==> from < to)
            && match page.nextCursor
               case None => to == |shown|
               case Some(cursor) => from < to < |shown| && cursor == Encode(shown[to - 1])
  {
    hide Encode;
  }

  lemma StartDetermined(
    naming: Naming, cs: Categories, shown: seq<CategoryId>, cursor: Option<CategoryId>, a: nat, b: nat)
    requires StartsAfter(naming, cs, shown, cursor, a) && StartsAfter(naming, cs, shown, cursor, b)
    ensures a == b
  {
    hide Before;
    var least := if a < b then a else b;
    if cursor.Some? && least < |shown| {
      assert Before(naming, cs, cursor.value, shown[least]) <==> a <= least;
    }
  }

  /** A state and a position leave no choice of page. */
  lemma PageDetermined(naming: Naming, cs: Categories, includeArchived: bool, limit: nat, cursor: Option<CategoryId>,
                       a: CategoryPage, b: CategoryPage)
    requires cursor.Some? ==> cursor.value in cs
    requires IsPage(naming, cs, includeArchived, limit, cursor, a)
          && IsPage(naming, cs, includeArchived, limit, cursor, b)
    ensures a == b
  {
    hide StartsAfter, Before;
    var x: seq<CategoryId>, i: nat :|
      IsListing(naming, cs, includeArchived, x) && StartsAfter(naming, cs, x, cursor, i) && CutPage(x, i, limit, a);
    var y: seq<CategoryId>, j: nat :|
      IsListing(naming, cs, includeArchived, y) && StartsAfter(naming, cs, y, cursor, j) && CutPage(y, j, limit, b);
    OrderedUnique(naming, cs, x, y);
    StartDetermined(naming, cs, x, cursor, i, j);
  }

  /** Dropping what is not after the cursor leaves a suffix of what is shown. */
  lemma AfterIsSuffix(naming: Naming, cs: Categories, shown: seq<CategoryId>, cursor: CategoryId, rest: seq<CategoryId>)
    returns (from: nat)
    requires Ordered(naming, cs, shown) && Ordered(naming, cs, rest)
    requires forall id: CategoryId :: id in rest <==> id in shown && Before(naming, cs, cursor, id)
    requires forall id: CategoryId :: id in shown ==> id in cs
    ensures StartsAfter(naming, cs, shown, Some(cursor), from) && rest == shown[from..]
  {
    hide Before;
    from := 0;
    while from < |shown| && !Before(naming, cs, cursor, shown[from])
      invariant from <= |shown|
      invariant forall i :: 0 <= i < from ==> !Before(naming, cs, cursor, shown[i])
    {
      from := from + 1;
    }
    forall i | from < i < |shown| ensures Before(naming, cs, cursor, shown[i]) {
      BeforeTransitive(naming, cs, cursor, shown[from], shown[i]);
    }
    assert StartsAfter(naming, cs, shown, Some(cursor), from);
    var suffix := shown[from..];
    assert Ordered(naming, cs, suffix);
    forall id: CategoryId ensures id in rest <==> id in suffix {
      if id in suffix {
        var k :| 0 <= k < |suffix| && suffix[k] == id;
        assert shown[from + k] == id;
      }
      if id in rest {
        var k :| 0 <= k < |shown| && shown[k] == id;
        assert suffix[k - from] == id;
      }
    }
    OrderedUnique(naming, cs, rest, suffix);
  }

  lemma ListedInTable(naming: Naming, cs: Categories, includeArchived: bool, shown: seq<CategoryId>, id: CategoryId)
    requires IsListing(naming, cs, includeArchived, shown) && id in shown
    ensures id in cs
  {
    hide Before;
  }

  /** After a page that is not the last, the cursor stands exactly at the end of that page. */
  lemma NextStart(naming: Naming, cs: Categories, includeArchived: bool, shown: seq<CategoryId>, to: nat)
    requires IsListing(naming, cs, includeArchived, shown) && 0 < to <= |shown|
    ensures StartsAfter(naming, cs, shown, Some(shown[to - 1]), to)
  {
    hide Before;
    forall i | 0 <= i < |shown| ensures to <= i <==> Before(naming, cs, shown[to - 1], shown[i]) {
      assert shown[i] in shown && shown[to - 1] in shown;
      BeforeTotal(naming, cs, shown[to - 1], shown[i]);
    }
  }

  /** Whatever listing a page was cut from, it is this one. */
  lemma PageCutHere(naming: Naming, cs: Categories, includeArchived: bool, limit: nat, cursor: Option<CategoryId>,
                    page: CategoryPage, shown: seq<CategoryId>, from: nat)
    requires cursor.Some? ==> cursor.value in cs
    requires IsPage(naming, cs, includeArchived, limit, cursor, page)
    requires IsListing(naming, cs, includeArchived, shown) && StartsAfter(naming, cs, shown, cursor, from)
    ensures CutPage(shown, from, limit, page)
  {
    var cut := if from + limit < |shown| then from + limit else |shown|;
    var next := if cut < |shown| && from < cut then Some(Encode(shown[cut - 1])) else None;
    var built := CategoryPage(shown[from..cut], |shown|, next);
    assert CutPage(shown, from, limit, built);
    PageDetermined(naming, cs, includeArchived, limit, cursor, page, built);
  }

  lemma InsertKeepsOrder(naming: Naming, cs: Categories, ids: seq<CategoryId>, next: CategoryId, at: nat)
    requires Ordered(naming, cs, ids) && next in cs && next !in ids && at <= |ids|
    requires forall i :: 0 <= i < |ids| ==> ids[i] in cs
    requires at == 0 || !Before(naming, cs, next, ids[at - 1])
    requires forall i :: at <= i < |ids| ==> Before(naming, cs, next, ids[i])
    ensures Ordered(naming, cs, ids[..at] + [next] + ids[at..])
  {
    hide Before;
    forall i | 0 <= i < at ensures Before(naming, cs, ids[i], next) {
      BeforeTotal(naming, cs, ids[at - 1], next);
      if i < at - 1 {
        BeforeTransitive(naming, cs, ids[i], ids[at - 1], next);
      }
    }
  }

  /** Filtering the sorted table and cutting the result gives the page of the position. */
  lemma FilteredIsPage(naming: Naming, cs: Categories, includeArchived: bool, limit: nat, cursor: Option<CategoryId>,
                       shown: seq<CategoryId>, visible: seq<CategoryId>, page: CategoryPage)
    requires cursor.Some? ==> cursor.value in cs
    requires IsListing(naming, cs, includeArchived, shown) && Ordered(naming, cs, visible)
    requires forall id: CategoryId :: id in visible <==>
               id in shown && (cursor.None? || Before(naming, cs, cursor.value, id))
    requires var size := if limit < |visible| then limit else |visible|;
             && page.data == visible[..size] && page.total == |shown|
             && page.nextCursor == if |visible| > size && size > 0 then Some(Encode(visible[size - 1])) else None
    ensures IsPage(naming, cs, includeArchived, limit, cursor, page)
  {
    hide Before, Ordered, Encode;
    var from: nat := 0;
    if cursor.Some? {
      from := AfterIsSuffix(naming, cs, shown, cursor.value, visible);
    } else {
      OrderedUnique(naming, cs, visible, shown);
    }
    assert CutPage(shown, from, limit, page);
  }
}
