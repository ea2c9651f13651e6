/** The memory stores' own pages as a source of the filtered view: longer lists do not qualify. */
module StoreBackedSource {
  import opened Outcomes
  import opened FilteredSource
  import opened FilteredTrace
  import opened FilteredAnswers

  /** `page` of the memory stores: a slice, the offset of the next one, and the length of the whole list. */
  function StorePage<T>(items: seq<T>, limit: nat, offset: nat, render: nat -> string): SourcePage<T>
    requires offset <= |items|
  {
    var selected := Take(items[offset..], limit);
    var next := offset + |selected|;
    SourcePage(selected, limit, if next < |items| then Some(render(next)) else None, Some(|items|))
  }

  /** A page is the next items, up to its limit; it names the whole length, and a next page where items are left. */
  lemma StorePageCuts<T>(items: seq<T>, limit: nat, offset: nat, render: nat -> string)
    requires offset <= |items|
    ensures var page := StorePage(items, limit, offset, render);
            && |page.data| <= limit && offset + |page.data| <= |items|
            && (|page.data| < limit ==> offset + |page.data| == |items|)
            && (forall n :: 0 <= n < |page.data| ==> page.data[n] == items[offset + n])
            && page.limit == limit && page.total == Some(|items|)
            && (page.nextCursor == None <==> offset + |page.data| == |items|)
            && (page.nextCursor.Some? ==> page.nextCursor.value == render(offset + |page.data|))
  {
  }

  /**
   The page check compares one page's length with the whole list's total. A page of a store's list passes
   exactly when it is not a last page behind earlier non-empty ones: lists longer than one page never read to the end.
   */
  lemma StorePageValidIff<T>(items: seq<T>, limit: nat, offset: nat, render: nat -> string)
    requires 1 <= limit <= FILTERED_SOURCE_PAGE_LIMIT && offset <= |items| && IsSafe(|items|)
    requires forall n :: 0 <= n <= |items| ==> ValidSourceCursor(render(n))
    ensures PageValid(StorePage(items, limit, offset, render)) <==> offset == 0 || offset + limit < |items|
  {
  }

  /** The cursor of an offset: none at the start. */
  function StoreCursor(offset: nat, render: nat -> string): Option<string> {
    if offset == 0 then None else Some(render(offset))
  }

  lemma StoreNext<T>(items: seq<T>, limit: nat, offset: nat, render: nat -> string) returns (next: nat)
    requires 1 <= limit && offset <= |items| && StorePage(items, limit, offset, render).nextCursor.Some?
    ensures offset < next <= |items| && StorePage(items, limit, offset, render).nextCursor == StoreCursor(next, render)
    ensures next == offset + |StorePage(items, limit, offset, render).data|
  {
    next := offset + |Take(items[offset..], limit)|;
  }

  // ---------- reading a store's list to the end ----------

  /** The source keeps behind the cursor of each offset the slice at that offset. */
  ghost predicate StoreBacked<T(!new), M(!new)>(o: Options<T, M>, items: seq<T>, limit: nat, render: nat -> string) {
    forall n: nat :: n <= |items| ==> o.load(StoreCursor(n, render)) == StorePage(items, limit, n, render)
  }

  lemma {:induction false} FilterSplits<T>(matches: T -> bool, a: seq<T>, b: seq<T>)
    ensures |Filter(matches, a + b)| == |Filter(matches, a)| + |Filter(matches, b)|
  {
    if b == [] {
      assert a + b == a;
    } else {
      var rest := b[..|b| - 1];
      assert (a + b)[..|a + b| - 1] == a + rest;
      FilterSplits(matches, a, rest);
    }
  }

  /** The matches from an offset on. */
  function MatchesFrom<T(!new), M(!new)>(o: Options<T, M>, items: seq<T>, offset: nat): nat
    requires offset <= |items|
  {
    |Filter(o.matches, items[offset..])|
  }

  lemma MatchesOfPage<T(!new), M(!new)>(o: Options<T, M>, items: seq<T>, limit: nat, offset: nat, render: nat -> string)
    requires offset <= |items|
    ensures var page := StorePage(items, limit, offset, render);
            && offset + |page.data| <= |items|
            && MatchesFrom(o, items, offset) == |Matching(o, page)| + MatchesFrom(o, items, offset + |page.data|)
  {
    var data := Take(items[offset..], limit);
    FilterSplits(o.matches, data, items[offset + |data|..]);
    assert items[offset..] == data + items[offset + |data|..];
  }

  /**
   Every page a request reads of a store's list is a slice, behind the cursor of its offset, with all before it read.
   */
  lemma {:induction false} ReadIsSlice<T(!new), M(!new)>(
    o: Options<T, M>, items: seq<T>, limit: nat, render: nat -> string, start: nat, read: seq<SourcePage<T>>, k: nat)
    returns (offset: nat)
    requires 1 <= limit && StoreBacked(o, items, limit, render) && start <= |items| && k < |read|
    requires Trace(o, StoreCursor(start, render), read)
    ensures offset <= |items| && read[k] == StorePage(items, limit, offset, render)
    ensures CursorFrom(StoreCursor(start, render), read, k) == StoreCursor(offset, render)
    ensures |AllMatching(o, read[..k])| + MatchesFrom(o, items, offset) == MatchesFrom(o, items, start)
  {
    hide StorePage, Matching, MatchesFrom;
    assert PageRead(o, StoreCursor(start, render), read, k);
    if k == 0 {
      offset := start;
    } else {
      var before := ReadIsSlice(o, items, limit, render, start, read, k - 1);
      offset := StoreNext(items, limit, before, render);
      MatchesOfPage(o, items, limit, before, render);
      assert read[..k][..k - 1] == read[..k - 1];
    }
  }

  lemma NotTheWhole<T>(items: seq<T>, limit: nat, offset: nat, render: nat -> string)
    requires limit < |items| && offset <= |items|
    ensures var page := StorePage(items, limit, offset, render); PageValid(page) ==> page.nextCursor.Some?
  {
  }

  /**
   Over a list longer than one page every answer has a continuation, which leads back into the list, with exactly the
   answer's matches less to come.
   */
  lemma LongListTakes<T(!new), M(!new)>(
    o: Options<T, M>, items: seq<T>, limit: nat, render: nat -> string, start: nat, state: CursorState,
    read: seq<SourcePage<T>>, page: Page<M>) returns (next: nat)
    requires 1 <= limit < |items| && o.limit >= 1 && StoreBacked(o, items, limit, render)
    requires start <= |items| && state.sourceCursor == StoreCursor(start, render) && Justified(o, state, read, page)
    ensures page.nextCursor.Some? && next <= |items| && Skip(state) + o.limit <= MatchesFrom(o, items, start)
    ensures Decode(page.nextCursor).Ok? ==>
              var after := Decode(page.nextCursor).value;
              && after.sourceCursor == StoreCursor(next, render)
              && MatchesFrom(o, items, next) - Skip(after) == MatchesFrom(o, items, start) - Skip(state) - o.limit
  {
    hide Matching, Map, StorePage, MatchesFrom, Trace;
    var last: nat := |read| - 1;
    var offset := ReadIsSlice(o, items, limit, render, start, read, last);
    LastIsRead(o, state.sourceCursor, read);
    NotTheWhole(items, limit, offset, render);
    MatchesOfPage(o, items, limit, offset, render);
    next := StoreNext(items, limit, offset, render);
    assert |AllMatching(o, read)| == |AllMatching(o, read[..last])| + |Matching(o, read[last])|;
    if |AllMatching(o, read)| - Skip(state) - o.limit > 0 {
      next := offset;
    }
  }

  lemma LastIsRead<T(!new), M(!new)>(o: Options<T, M>, start: Option<string>, read: seq<SourcePage<T>>)
    requires read != [] && Trace(o, start, read)
    ensures PageValid(read[|read| - 1])
  {
    assert PageRead(o, start, read, |read| - 1);
  }

  /**
   So however the requests over a longer list go, each promises more, and there are no more of them than fit into the
   matches: following the continuations comes to an error.
   */
  lemma {:induction false} LongListNeverEnds<T(!new), M(!new)>(
    o: Options<T, M>, items: seq<T>, limit: nat, render: nat -> string, start: nat, cursor: Option<Wire>,
    chain: seq<Page<M>>)
    requires 1 <= limit < |items| && o.limit >= 1 && StoreBacked(o, items, limit, render) && start <= |items|
    requires Requests(o, cursor, chain) && Decode(cursor).value.sourceCursor == StoreCursor(start, render)
    ensures chain[|chain| - 1].nextCursor.Some?
    ensures |chain| * o.limit <= MatchesFrom(o, items, start) - Skip(Decode(cursor).value)
    decreases |chain|
  {
    hide Justified, StoreBacked, Decode, MatchesFrom;
    var state := Decode(cursor).value;
    var read :| |read| <= MAX_FILTERED_SOURCE_PAGES && Justified(o, state, read, chain[0]);
    var next := LongListTakes(o, items, limit, render, start, state, read, chain[0]);
    if |chain| > 1 {
      LongListNeverEnds(o, items, limit, render, next, chain[0].nextCursor, chain[1..]);
      assert |chain| * o.limit == |chain[1..]| * o.limit + o.limit;
    }
  }

  /** The requests before an error, and the cursor of the request that has no answer. */
  lemma {:induction false} LongListFails<T(!new), M(!new)>(
    o: Options<T, M>, items: seq<T>, limit: nat, render: nat -> string, start: nat, cursor: Option<Wire>)
    returns (chain: seq<Page<M>>, last: Option<Wire>)
    requires 1 <= limit < |items| && o.limit >= 1 && StoreBacked(o, items, limit, render) && start <= |items|
    requires Decode(cursor).Ok? ==> Decode(cursor).value.sourceCursor == StoreCursor(start, render)
    ensures if chain == [] then last == cursor else Requests(o, cursor, chain) && last == chain[|chain| - 1].nextCursor
    ensures forall page: Page<M> :: !Given(o, last, page)
    decreases if Decode(cursor).Ok? then MatchesFrom(o, items, start) - Skip(Decode(cursor).value) else 0
  {
    hide Justified, StoreBacked, Decode, MatchesFrom;
    if page: Page<M> :| Given(o, cursor, page) {
      var state := Decode(cursor).value;
      var read :| |read| <= MAX_FILTERED_SOURCE_PAGES && Justified(o, state, read, page);
      var next := LongListTakes(o, items, limit, render, start, state, read, page);
      var rest;
      rest, last := LongListFails(o, items, limit, render, next, page.nextCursor);
      chain := [page] + rest;
      assert chain[1..] == rest;
    } else {
      chain, last := [], cursor;
    }
  }

  /**
   Requests for the filtered view of a memory store's list read to the end if and only if one source page holds all
   of the list; then they give its filtered view. On a longer list every answer promises more, until one fails.
   */
  lemma StoreReadsToEndIff<T(!new), M(!new)>(o: Options<T, M>, items: seq<T>, limit: nat, render: nat -> string)
    requires 1 <= o.limit && 1 <= limit <= FILTERED_SOURCE_PAGE_LIMIT && IsSafe(|items|)
          && StoreBacked(o, items, limit, render)
    requires FreshIds(o, items, {}) && forall m :: 0 <= m <= FILTERED_SOURCE_PAGE_LIMIT ==> o.fits(None, m)
    ensures (exists chain: seq<Page<M>> :: ReadsToEnd(o, None, chain)) <==> |items| <= limit
    ensures |items| <= limit ==>
              exists chain: seq<Page<M>> :: ReadsToEnd(o, None, chain)
                && Items(chain) == Map(o.project, Filter(o.matches, items))
  {
    hide Requests, Serves, Map;
    if |items| <= limit {
      var only := OnlyPage(o, items, limit, render);
      var chain := WellFormedReadsToEnd(o, [only], None, Filter(o.matches, items));
    } else {
      forall chain: seq<Page<M>> ensures !ReadsToEnd(o, None, chain) {
        if ReadsToEnd(o, None, chain) {
          LongListNeverEnds(o, items, limit, render, 0, None, chain);
        }
      }
    }
  }

  lemma OnlyPage<T(!new), M(!new)>(o: Options<T, M>, items: seq<T>, limit: nat, render: nat -> string)
    returns (only: SourcePage<T>)
    requires 1 <= limit <= FILTERED_SOURCE_PAGE_LIMIT && IsSafe(|items|) && StoreBacked(o, items, limit, render)
    requires FreshIds(o, items, {}) && forall m :: 0 <= m <= FILTERED_SOURCE_PAGE_LIMIT ==> o.fits(None, m)
    requires |items| <= limit
    ensures Serves(o, [only]) && From(o, [only], 0) == Filter(o.matches, items)
  {
    only := StorePage(items, limit, 0, render);
    assert o.load(StoreCursor(0, render)) == only;
    assert items[0..] == items && only.data == items;
    assert CursorFrom(None, [only], 0) == None;
    assert From(o, [only], 1) == [];
  }

  // ---------- a list of two, one to a page ----------

  function TwoCursors(offset: nat): string {
    if offset == 1 then "1" else "2"
  }

  function TwoItems(): Options<int, int> {
    Options(
      1,
      (c: Option<string>) => StorePage([7, 8], 1, if c == None then 0 else if c == Some("1") then 1 else 2, TwoCursors),
      (n: int) => true, (n: int) => n, (n: int) => Some(if n == 7 then "seven" else "eight"),
        (c: Option<string>, m: nat) => true)
  }

  lemma TwoItemsBacked()
    ensures StoreBacked(TwoItems(), [7, 8], 1, TwoCursors) && FreshIds(TwoItems(), [7, 8], {})
  {
  }

  /** The first request is answered, and no chain of requests reads to the end. */
  lemma TwoItemsNeverEnd()
    ensures StoreBacked(TwoItems(), [7, 8], 1, TwoCursors)
    ensures Given(TwoItems(), None, SevenAnswered())
    ensures !exists chain: seq<Page<int>> :: ReadsToEnd(TwoItems(), None, chain)
  {
    TwoItemsBacked();
    FirstOfTwo();
    hide StoreBacked, FreshIds, Given, ReadsToEnd;
    StoreReadsToEndIff(TwoItems(), [7, 8], 1, TwoCursors);
  }

  function SevenFirst(): SourcePage<int> {
    SourcePage([7], 1, Some("1"), Some(2))
  }

  function SevenAnswered(): Page<int> {
    Page([7], Some(Opaque(1, Some("1"), 0, false)), true)
  }

  lemma SevenIsRead()
    ensures Trace(TwoItems(), None, [SevenFirst()])
  {
    var o, page := TwoItems(), SevenFirst();
    assert [7, 8][0..] == [7, 8] && [7, 8][..1] == [7];
    assert o.load(None) == page;
    assert PageValid(page) && FreshIds(o, page.data, {});
    hide FreshIds, PageValid, TwoItems;
    assert PageRead(o, None, [page], 0);
  }

  lemma SevenMatches()
    ensures Matching(TwoItems(), SevenFirst()) == [7] && AllMatching(TwoItems(), [SevenFirst()]) == [7]
  {
    assert [SevenFirst()][..0] == [] && [7][..0] == [];
  }

  lemma SevenContinues()
    ensures Continuation(TwoItems(), None, [SevenFirst()], 0) == Ok(Opaque(1, Some("1"), 0, false))
  {
  }

  lemma SevenMapped()
    ensures Map(TwoItems().project, Take(Drop([7], 0), 1)) == [7]
  {
  }

  lemma FirstOfTwo()
    ensures Given(TwoItems(), None, SevenAnswered())
  {
    SevenIsRead();
    SevenMatches();
    SevenContinues();
    SevenMapped();
    hide Trace, AllMatching, Matching, Continuation, Map, Take, Drop;
    assert Justified(TwoItems(), CursorState(None, 0, None), [SevenFirst()], SevenAnswered());
    hide Justified;
    assert Decode(None) == Ok(CursorState(None, 0, None));
  }
}
