/** The inventory summary: reading every page, and counting what was read into buckets. */
module InventorySummary {
  import opened Outcomes
  import Source = FilteredSource

  const MAX_INVENTORY_SUMMARY_PAGES := 1000

  datatype EvidenceState =
    | PhysicallyCounted | Commissioned | DeliveredUncounted | OrderedUnverified | AllocatedElsewhere | UsedUp | Other

  datatype ApiItem = ApiItem(
    kind: string, retired: bool, state: EvidenceState, quantity: real, available: real, held: Option<real>,
    unit: string)

  datatype Availability = Retired | Depleted | Allocated | Confirmed | Uncounted | Unverified | InspectFirst

  datatype McpItem = McpItem(
    category: string, availability: Availability, available: real, held: real, unit: string, confirmedEvidence: bool)

  predicate Counted(state: EvidenceState) {
    state == PhysicallyCounted || state == Commissioned
  }

  function ToAvailability(item: ApiItem): Availability {
    if item.retired then Retired
    else
      match item.state
      case PhysicallyCounted | Commissioned =>
        var held := if item.held.Some? then item.held.value else Max(0.0, item.quantity - item.available);
        if item.quantity <= 0.0 then Depleted else if held > 0.0 then Allocated else Confirmed
      case DeliveredUncounted => Uncounted
      case OrderedUnverified => Unverified
      case AllocatedElsewhere => Allocated
      case UsedUp => Depleted
      case Other => InspectFirst
  }

  function ToItem(item: ApiItem): McpItem {
    var held :=
      if item.held.Some? then item.held.value
      else if Counted(item.state) then Max(0.0, Min(item.quantity, item.quantity - item.available))
      else 0.0;
    McpItem(item.kind, ToAvailability(item), item.available, held, item.unit, Counted(item.state))
  }

  // ---------- the buckets ----------

  predicate HasAllocation(item: McpItem) {
    item.availability != Retired && (item.availability == Allocated || item.held > 0.0)
  }

  predicate PlainlyConfirmed(item: McpItem) {
    item.availability == Confirmed && !HasAllocation(item)
  }

  function Count<T>(items: seq<T>, p: T -> bool): nat {
    if items == [] then 0
    else Count(items[..|items| - 1], p) + if p(items[|items| - 1]) then 1 else 0
  }

  datatype Counts = Counts(
    total: nat, confirmed: nat, confirmedEvidence: nat, availableConfirmed: nat, inspectFirst: nat,
    held: nat, depleted: nat, unverified: nat, retired: nat)

  function CountsOf(items: seq<McpItem>): Counts {
    Counts(
      |items|,
      Count(items, PlainlyConfirmed),
      Count(items, (i: McpItem) => i.confirmedEvidence),
      Count(items, (i: McpItem) => i.availability != Retired && i.confirmedEvidence && i.available > 0.0),
      Count(items, (i: McpItem) => i.availability == InspectFirst),
      Count(items, HasAllocation),
      Count(items, (i: McpItem) => i.availability == Depleted),
      Count(items, (i: McpItem) => i.availability == Unverified || i.availability == Uncounted),
      Count(items, (i: McpItem) => i.availability == Retired))
  }

  function BucketSum(c: Counts): nat {
    c.confirmed + c.inspectFirst + c.held + c.depleted + c.unverified + c.retired
  }

  /** An allocation recorded on an item whose availability already puts it in another bucket. */
  predicate CountedTwice(item: McpItem) {
    item.held > 0.0 && item.availability in {InspectFirst, Depleted, Uncounted, Unverified}
  }

  /** The primary buckets cover every item, and exceed the total by exactly the items counted twice. */
  lemma {:induction false} BucketsCover(items: seq<McpItem>)
    ensures BucketSum(CountsOf(items)) == |items| + Count(items, CountedTwice)
  {
    if items != [] {
      BucketsCover(items[..|items| - 1]);
    }
  }

  lemma {:induction false} NoneCounted<T>(items: seq<T>, p: T -> bool)
    ensures Count(items, p) == 0 <==> forall k :: 0 <= k < |items| ==> !p(items[k])
  {
    if items != [] {
      NoneCounted(items[..|items| - 1], p);
    }
  }

  /** The buckets sum to the total exactly when no item is counted twice. */
  lemma BucketsSumIff(items: seq<McpItem>)
    ensures BucketSum(CountsOf(items)) == CountsOf(items).total <==>
              forall k :: 0 <= k < |items| ==> !CountedTwice(items[k])
  {
    BucketsCover(items);
    NoneCounted(items, CountedTwice);
  }

  /** Only a recorded allocation can be counted twice: one on evidence that is not a count, or on a count of nothing. */
  lemma CountedTwiceIff(item: ApiItem)
    ensures CountedTwice(ToItem(item)) <==>
              && !item.retired && item.held.Some? && item.held.value > 0.0
              && item.state != AllocatedElsewhere && (Counted(item.state) ==> item.quantity <= 0.0)
  {
  }

  /** What the durable runtime lists of an item: an allocation only for counted stock, clamped to what is on hand. */
  function FromDurable(
    kind: string, retired: bool, state: EvidenceState, onHand: real, reported: real, available: real,
    unit: string): ApiItem
  {
    var quantity := if Counted(state) then onHand else reported;
    var free := if Counted(state) then Max(0.0, available) else 0.0;
    var held := if Counted(state) then Max(0.0, Min(quantity, quantity - free)) else 0.0;
    ApiItem(kind, retired, state, quantity, free, Some(held), unit)
  }

  /** What the memory stores list: no allocation of their own. */
  function FromMemory(
    kind: string, retired: bool, state: EvidenceState, quantity: real, available: real, unit: string): ApiItem
  {
    ApiItem(kind, retired, state, quantity, available, None, unit)
  }

  /** An item that one of the two stores lists. */
  ghost predicate Listed(item: ApiItem) {
    || (exists onHand, reported, available ::
          item == FromDurable(item.kind, item.retired, item.state, onHand, reported, available, item.unit))
    || item == FromMemory(item.kind, item.retired, item.state, item.quantity, item.available, item.unit)
  }

  lemma ListedOnce(item: ApiItem)
    requires Listed(item)
    ensures !CountedTwice(ToItem(item))
  {
    CountedTwiceIff(item);
  }

  /** The promise of the summary: over items that the stores list, the primary buckets sum to the total. */
  lemma ListedBucketsSum(items: seq<ApiItem>)
    requires forall k :: 0 <= k < |items| ==> Listed(items[k])
    ensures BucketSum(CountsOf(ToItems(items))) == |items|
  {
    hide Listed, CountedTwice, ToItem;
    forall k | 0 <= k < |items| ensures !CountedTwice(ToItems(items)[k]) {
      ListedOnce(items[k]);
    }
    BucketsSumIff(ToItems(items));
  }

  /**
   The promise rests on the stores. The item schema alone would let through an uncounted delivery with a recorded
   allocation, and such an item fills two buckets.
   */
  lemma SchemaAdmitsOverlap()
    ensures var item := ApiItem("other", false, DeliveredUncounted, 2.0, 0.0, Some(1.0), "each");
            item.available <= item.quantity && !Listed(item) && BucketSum(CountsOf([ToItem(item)])) == 2
  {
    var item := ApiItem("other", false, DeliveredUncounted, 2.0, 0.0, Some(1.0), "each");
    BucketsCover([ToItem(item)]);
    assert [ToItem(item)][..0] == [];
    assert Count([ToItem(item)], CountedTwice) == 1;
  }

  // ---------- inventorySummary ----------

  function HeldIn(items: seq<McpItem>, unit: string): real {
    if items == [] then 0.0
    else
      var last := items[|items| - 1];
      HeldIn(items[..|items| - 1], unit)
      + if last.availability != Retired && last.held > 0.0 && last.unit == unit then last.held else 0.0
  }

  method CountCategories(items: seq<McpItem>) returns (categories: map<string, nat>)
    ensures forall c :: (if c in categories then categories[c] else 0) == Count(items, (i: McpItem) => i.category == c)
    ensures forall c :: c in categories ==> categories[c] > 0
  {
    categories := map[];
    for n := 0 to |items|
      invariant forall c :: (if c in categories then categories[c] else 0) ==
                  Count(items[..n], (i: McpItem) => i.category == c)
      invariant forall c :: c in categories ==> categories[c] > 0
    {
      var item := items[n];
      assert items[..n + 1][..n] == items[..n];
      var before := if item.category in categories then categories[item.category] else 0;
      categories := categories[item.category := before + 1];
    }
    assert items[..|items|] == items;
  }

  method HeldQuantities(items: seq<McpItem>) returns (quantities: map<string, real>)
    ensures forall u :: (if u in quantities then quantities[u] else 0.0) == HeldIn(items, u)
    ensures forall u :: u in quantities ==> quantities[u] > 0.0
  {
    quantities := map[];
    for n := 0 to |items|
      invariant forall u :: (if u in quantities then quantities[u] else 0.0) == HeldIn(items[..n], u)
      invariant forall u :: u in quantities ==> quantities[u] > 0.0
    {
      var item := items[n];
      assert items[..n + 1][..n] == items[..n];
      if item.availability == Retired || item.held <= 0.0 {
        continue;
      }
      var before := if item.unit in quantities then quantities[item.unit] else 0.0;
      quantities := quantities[item.unit := before + item.held];
    }
    assert items[..|items|] == items;
  }

  // ---------- reading every page ----------

  type ApiPage = Source.SourcePage<ApiItem>

  type Load = Option<string> -> ApiPage

  /** Pages met one after another from a starting cursor. */
  ghost predicate Linked(load: Load, start: Option<string>, pages: seq<ApiPage>) {
    forall k :: 0 <= k < |pages| ==>
      pages[k] == load(Source.CursorFrom(start, pages, k)) && (k > 0 ==> Source.CursorFrom(start, pages, k).Some?)
  }

  /** The whole reading: it ends at a page without a continuation. */
  ghost predicate Complete(load: Load, start: Option<string>, pages: seq<ApiPage>) {
    pages != [] && Linked(load, start, pages) && pages[|pages| - 1].nextCursor.None?
  }

  function ItemsOf(pages: seq<ApiPage>): seq<McpItem> {
    if pages == [] then [] else ItemsOf(pages[..|pages| - 1]) + ToItems(pages[|pages| - 1].data)
  }

  function ToItems(data: seq<ApiItem>): seq<McpItem> {
    seq(|data|, n requires 0 <= n < |data| => ToItem(data[n]))
  }

  /** What has been read is the front of the complete reading, if there is one. */
  lemma {:induction false} ReadIsFront(load: Load, start: Option<string>, read: seq<ApiPage>, pages: seq<ApiPage>)
    requires Linked(load, start, read) && Complete(load, start, pages)
    ensures |read| <= |pages| && read == pages[..|read|]
    ensures read != [] && read[|read| - 1].nextCursor.Some? ==> |read| < |pages|
  {
    if read != [] {
      hide Linked;
      var n: nat := |read| - 1;
      var rest := read[..n];
      LinkedFront(load, start, read);
      ReadIsFront(load, start, rest, pages);
      assert n < |pages|;
      LinkedAt(load, start, read, n);
      LinkedAt(load, start, pages, n);
      assert read == rest + [read[n]];
    }
  }

  lemma LinkedAt(load: Load, start: Option<string>, pages: seq<ApiPage>, k: nat)
    requires Linked(load, start, pages) && k < |pages|
    ensures pages[k] == load(Source.CursorFrom(start, pages, k)) && (k > 0 ==> Source.CursorFrom(start, pages, k).Some?)
  {
  }

  lemma LinkedFront(load: Load, start: Option<string>, read: seq<ApiPage>)
    requires Linked(load, start, read) && read != []
    ensures Linked(load, start, read[..|read| - 1])
    ensures |read| > 1 ==> read[|read| - 2].nextCursor.Some?
  {
    var rest := read[..|read| - 1];
    assert Source.CursorFrom(start, read, |read| - 1) == Source.CursorFrom(start, rest, |rest|);
    forall k | 0 <= k < |rest|
      ensures rest[k] == load(Source.CursorFrom(start, rest, k)) && (k > 0 ==> Source.CursorFrom(start, rest, k).Some?)
    {
      assert Source.CursorFrom(start, read, k) == Source.CursorFrom(start, rest, k);
      assert read[k] == rest[k];
    }
  }

  /** The pages behind one of them are the complete reading from its continuation. */
  lemma SuffixComplete(load: Load, start: Option<string>, pages: seq<ApiPage>, i: nat)
    requires Complete(load, start, pages) && i + 1 < |pages|
    ensures pages[i].nextCursor.Some? && Complete(load, pages[i].nextCursor, pages[i + 1..])
  {
    var cursor, tail := pages[i].nextCursor, pages[i + 1..];
    LinkedAt(load, start, pages, i + 1);
    forall k | 0 <= k < |tail|
      ensures tail[k] == load(Source.CursorFrom(cursor, tail, k))
           && (k > 0 ==> Source.CursorFrom(cursor, tail, k).Some?)
    {
      LinkedAt(load, start, pages, i + 1 + k);
      assert Source.CursorFrom(cursor, tail, k) == Source.CursorFrom(start, pages, i + 1 + k);
      assert tail[k] == pages[i + 1 + k];
    }
  }

  /** A cursor has at most one complete reading. */
  lemma OneReading(load: Load, start: Option<string>, a: seq<ApiPage>, b: seq<ApiPage>)
    requires Complete(load, start, a) && Complete(load, start, b)
    ensures a == b
  {
    ReadIsFront(load, start, a, b);
    ReadIsFront(load, start, b, a);
  }

  /** A reading that ends never meets a cursor twice, nor the one it started from. */
  lemma NeverRepeats(load: Load, start: Option<string>, pages: seq<ApiPage>, i: nat, j: nat)
    requires Complete(load, start, pages) && i < j < |pages|
    ensures pages[i].nextCursor != pages[j].nextCursor && pages[i].nextCursor != start
  {
    hide Linked;
    SuffixComplete(load, start, pages, i);
    if pages[i].nextCursor == start {
      OneReading(load, start, pages, pages[i + 1..]);
    }
    if pages[i].nextCursor == pages[j].nextCursor {
      SuffixComplete(load, start, pages, j);
      OneReading(load, pages[i].nextCursor, pages[i + 1..], pages[j + 1..]);
    }
  }

  lemma RepeatNeverEnds(load: Load, start: Option<string>, now: seq<ApiPage>, pages: seq<ApiPage>)
    requires Linked(load, start, now) && now != [] && Complete(load, start, pages)
    requires now[|now| - 1].nextCursor.Some?
    ensures now[|now| - 1].nextCursor != start
    ensures forall k :: 0 <= k < |now| - 1 ==> now[k].nextCursor != now[|now| - 1].nextCursor
  {
    hide Linked;
    ReadIsFront(load, start, now, pages);
    var last := |now| - 1;
    assert pages[last] == now[last];
    NeverRepeats(load, start, pages, last, last + 1);
    forall k | 0 <= k < last ensures now[k].nextCursor != now[last].nextCursor {
      assert pages[k] == now[k];
      NeverRepeats(load, start, pages, k, last);
    }
  }

  lemma ReadOneMore(load: Load, start: Option<string>, read: seq<ApiPage>, page: ApiPage)
    requires Linked(load, start, read) && page == load(Source.CursorFrom(start, read, |read|))
    requires read != [] ==> read[|read| - 1].nextCursor.Some?
    ensures Linked(load, start, read + [page]) && ItemsOf(read + [page]) == ItemsOf(read) + ToItems(page.data)
  {
    hide ToItems, Linked;
    assert (read + [page])[..|read|] == read;
    LinkOneMore(load, start, read, page);
  }

  lemma LinkOneMore(load: Load, start: Option<string>, read: seq<ApiPage>, page: ApiPage)
    requires Linked(load, start, read) && page == load(Source.CursorFrom(start, read, |read|))
    requires read != [] ==> read[|read| - 1].nextCursor.Some?
    ensures Linked(load, start, read + [page])
  {
    var now := read + [page];
    forall k | 0 <= k < |now|
      ensures now[k] == load(Source.CursorFrom(start, now, k)) && (k > 0 ==> Source.CursorFrom(start, now, k).Some?)
    {
      SameCursor(start, now, read, k);
      hide Source.CursorFrom;
      if k < |read| {
        LinkedAt(load, start, read, k);
      }
    }
  }

  /** A cursor depends on the page before it only. */
  lemma SameCursor(start: Option<string>, a: seq<ApiPage>, b: seq<ApiPage>, k: nat)
    requires k <= |a| && k <= |b| && (k > 0 ==> a[k - 1] == b[k - 1])
    ensures Source.CursorFrom(start, a, k) == Source.CursorFrom(start, b, k)
  {
  }

  ghost predicate Visited(start: Option<string>, read: seq<ApiPage>, visited: set<string>) {
    forall c :: c in visited <==> start == Some(c) || exists k :: 0 <= k < |read| && read[k].nextCursor == Some(c)
  }

  lemma VisitOneMore(start: Option<string>, read: seq<ApiPage>, visited: set<string>, page: ApiPage)
    requires Visited(start, read, visited) && page.nextCursor.Some?
    ensures Visited(start, read + [page], visited + {page.nextCursor.value})
  {
    var now := read + [page];
    assert now[|read|] == page && forall k :: 0 <= k < |read| ==> now[k] == read[k];
  }

  /**
   The reading loop succeeds exactly when the source ends within the page limit, and then returns every item of
   every page. The check on repeated cursors therefore refuses only sources that never end.
   */
  method ReadItems(load: Load, start: Option<string>) returns (items: Result<seq<McpItem>>)
    ensures forall pages :: Complete(load, start, pages) && |pages| <= MAX_INVENTORY_SUMMARY_PAGES ==>
              items == Ok(ItemsOf(pages))
    ensures items.Ok? ==> exists pages ::
              Complete(load, start, pages) && |pages| <= MAX_INVENTORY_SUMMARY_PAGES && items.value == ItemsOf(pages)
    ensures items.Err? ==> items.error == BackendError
  {
    hide Linked, ItemsOf, ToItems;
    var cursor := start;
    var gathered: seq<McpItem> := [];
    var visited: set<string> := if start.Some? then {start.value} else {};
    ghost var read: seq<ApiPage> := [];
    ReadNothing(load, start);
    for pageNumber := 0 to MAX_INVENTORY_SUMMARY_PAGES
      invariant |read| == pageNumber && Linked(load, start, read) && gathered == ItemsOf(read)
      invariant cursor == Source.CursorFrom(start, read, |read|)
      invariant read != [] ==> cursor.Some?
      invariant Visited(start, read, visited)
    {
      var page := load(cursor);
      ReadOneMore(load, start, read, page);
      gathered := gathered + ToItems(page.data);
      ghost var now := read + [page];
      if page.nextCursor.None? {
        forall pages | Complete(load, start, pages) ensures pages == now {
          OneReading(load, start, now, pages);
        }
        assert Complete(load, start, now);
        return Ok(gathered);
      }
      if page.nextCursor.value in visited {
        forall pages ensures !Complete(load, start, pages) {
          if Complete(load, start, pages) {
            assert forall k :: 0 <= k < |read| ==> now[k] == read[k];
            RepeatNeverEnds(load, start, now, pages);
          }
        }
        return Err(BackendError);
      }
      VisitOneMore(start, read, visited, page);
      visited := visited + {page.nextCursor.value};
      cursor := page.nextCursor;
      read := now;
    }
    forall pages | Complete(load, start, pages) ensures |pages| > MAX_INVENTORY_SUMMARY_PAGES {
      ReadIsFront(load, start, read, pages);
    }
    return Err(BackendError);
  }

  lemma ReadNothing(load: Load, start: Option<string>)
    ensures Linked(load, start, []) && ItemsOf([]) == []
  {
  }
}
