/**
 What a request owes over a well-formed source: an answer exists, and it is the next `limit` of what the cursor
 leaves to read, together with a cursor for the remainder.
 */
module FilteredAnswers {
  import opened Outcomes
  import opened FilteredSource
  import opened FilteredTrace

  /** Where the loop stands: `selected` was taken off the front, and this much of page k is consumed. */
  ghost predicate Standing<T(!new), M(!new)>(
    o: Options<T, M>, pages: seq<SourcePage<T>>, rest: seq<T>, k: nat, selected: seq<M>, offset: nat,
    legacy: Option<nat>)
    requires k < |pages|
  {
    match legacy
    case Some(n) => selected == [] && offset == 0 && rest == Drop(From(o, pages, k), n)
    case None =>
      && |selected| <= |rest| && selected == Map(o.project, rest[..|selected|])
      && offset <= |Matching(o, pages[k])|
      && rest[|selected|..] == Matching(o, pages[k])[offset..] + From(o, pages, k + 1)
  }

  /** The loop's starting point for a cursor that points at `rest`. */
  lemma Starts<T(!new), M(!new)>(o: Options<T, M>, pages: seq<SourcePage<T>>, cursor: Option<Wire>, rest: seq<T>)
    returns (first: nat)
    requires Serves(o, pages) && Points(o, pages, cursor, rest)
    ensures Decode(cursor).Ok? && first < |pages|
    ensures var state := Decode(cursor).value;
            state.sourceCursor == CursorFrom(None, pages, first)
            && Standing(o, pages, rest, first, [], state.matchOffset, state.legacyOffset)
  {
    if cursor.Some? && cursor.value.Opaque? {
      first :| PointsInto(o, pages, first, cursor.value.sourceCursor, cursor.value.matchOffset, rest);
      assert PageValid(pages[first]);
      assert first > 0 ==> PageValid(pages[first - 1]);
    } else {
      first := 0;
      assert Matching(o, pages[0])[0..] == Matching(o, pages[0]);
    }
  }

  lemma LegacySkips<T(!new), M(!new)>(o: Options<T, M>, pages: seq<SourcePage<T>>, k: nat, n: nat)
    requires k < |pages|
    ensures n >= |Matching(o, pages[k])| ==>
              Drop(From(o, pages, k), n) == Drop(From(o, pages, k + 1), n - |Matching(o, pages[k])|)
    ensures n < |Matching(o, pages[k])| ==>
              Drop(From(o, pages, k), n) == Matching(o, pages[k])[n..] + From(o, pages, k + 1)
  {
  }

  lemma MapAppend<T(!new), M(!new)>(project: T -> M, a: seq<T>, b: seq<T>)
    ensures Map(project, a + b) == Map(project, a) + Map(project, b)
  {
  }

  /** Taking up to `room` more matches of page k off the front of what is left. */
  lemma Takes<T(!new), M(!new)>(
    o: Options<T, M>, rest: seq<T>, selected: seq<M>, matching: seq<T>, tail: seq<T>, offset: nat, room: nat)
    requires |selected| <= |rest| && selected == Map(o.project, rest[..|selected|])
    requires offset <= |matching| && rest[|selected|..] == matching[offset..] + tail
    ensures var take := Take(matching[offset..], room);
            var selected' := selected + Map(o.project, take);
            && |selected'| <= |rest| && selected' == Map(o.project, rest[..|selected'|])
            && offset + |take| <= |matching|
            && rest[|selected'|..] == matching[offset + |take|..] + tail
  {
    var take := Take(matching[offset..], room);
    var n := |selected|;
    assert rest[n..][..|take|] == take;
    assert rest[..n + |take|] == rest[..n] + take;
    MapAppend(o.project, rest[..n], take);
    assert rest[n + |take|..] == rest[n..][|take|..];
    assert (matching[offset..] + tail)[|take|..] == matching[offset..][|take|..] + tail;
  }

  lemma SkipPage<T(!new), M(!new)>(
    o: Options<T, M>, pages: seq<SourcePage<T>>, rest: seq<T>, k: nat, selected: seq<M>, offset: nat, n: nat)
    requires k < |pages| && Standing(o, pages, rest, k, selected, offset, Some(n)) && n >= |Matching(o, pages[k])|
    ensures k + 1 < |pages| ==> Standing(o, pages, rest, k + 1, selected, 0, Some(n - |Matching(o, pages[k])|))
    ensures k + 1 == |pages| ==> rest == []
  {
    LegacySkips(o, pages, k, n);
  }

  lemma UseOffset<T(!new), M(!new)>(
    o: Options<T, M>, pages: seq<SourcePage<T>>, rest: seq<T>, k: nat, selected: seq<M>, offset: nat, n: nat)
    requires k < |pages| && Standing(o, pages, rest, k, selected, offset, Some(n)) && n < |Matching(o, pages[k])|
    ensures Standing(o, pages, rest, k, selected, n, None)
  {
    LegacySkips(o, pages, k, n);
  }

  lemma TakeHere<T(!new), M(!new)>(
    o: Options<T, M>, pages: seq<SourcePage<T>>, rest: seq<T>, k: nat, selected: seq<M>, offset: nat, room: nat)
    requires k < |pages| && Standing(o, pages, rest, k, selected, offset, None)
    ensures offset <= |Matching(o, pages[k])|
    ensures var take := Take(Matching(o, pages[k])[offset..], room);
            Standing(o, pages, rest, k, selected + Map(o.project, take), offset + |take|, None)
  {
    Takes(o, rest, selected, Matching(o, pages[k]), From(o, pages, k + 1), offset, room);
  }

  lemma NextPage<T(!new), M(!new)>(o: Options<T, M>, pages: seq<SourcePage<T>>, rest: seq<T>, k: nat, selected: seq<M>)
    requires k + 1 < |pages| && Standing(o, pages, rest, k, selected, |Matching(o, pages[k])|, None)
    ensures Standing(o, pages, rest, k + 1, selected, 0, None)
  {
    assert Matching(o, pages[k + 1])[0..] == Matching(o, pages[k + 1]);
    assert Matching(o, pages[k])[|Matching(o, pages[k])|..] == [];
    assert [] + From(o, pages, k + 1) == From(o, pages, k + 1);
  }

  lemma FinishInside<T(!new), M(!new)>(
    o: Options<T, M>, pages: seq<SourcePage<T>>, rest: seq<T>, k: nat, selected: seq<M>, consumed: nat)
    requires Serves(o, pages) && k < |pages| && Standing(o, pages, rest, k, selected, consumed, None)
    requires |selected| == o.limit >= 1
    ensures var next := NextCursor(o, CursorFrom(None, pages, k), consumed, pages[k].nextCursor.None?);
            next.Ok? && Answers(o, pages, rest, Page(selected, Some(next.value), true))
  {
    ContinuesInside(o, pages, k, consumed, rest[o.limit..]);
  }

  lemma FinishAfter<T(!new), M(!new)>(
    o: Options<T, M>, pages: seq<SourcePage<T>>, rest: seq<T>, k: nat, selected: seq<M>)
    requires Serves(o, pages) && k + 1 < |pages| && Standing(o, pages, rest, k, selected, |Matching(o, pages[k])|, None)
    requires |selected| == o.limit >= 1
    ensures var next := Encode(o, pages[k].nextCursor, 0);
            next.Ok? && Answers(o, pages, rest, Page(selected, Some(next.value), true))
  {
    assert Matching(o, pages[k])[|Matching(o, pages[k])|..] == [];
    assert [] + From(o, pages, k + 1) == From(o, pages, k + 1);
    ContinuesAfter(o, pages, k, rest[o.limit..]);
  }

  lemma FinishLast<T(!new), M(!new)>(
    o: Options<T, M>, pages: seq<SourcePage<T>>, rest: seq<T>, k: nat, selected: seq<M>)
    requires k + 1 == |pages| && Standing(o, pages, rest, k, selected, |Matching(o, pages[k])|, None)
    requires |selected| <= o.limit && o.limit >= 1
    ensures Answers(o, pages, rest, Page(selected, None, false))
  {
    assert rest[|selected|..] == [];
    assert rest[..|selected|] == rest;
  }

  lemma FinishEmpty<T(!new), M(!new)>(o: Options<T, M>, pages: seq<SourcePage<T>>)
    requires o.limit >= 1
    ensures Answers(o, pages, [], Page([], None, false))
  {
    assert Map(o.project, []) == [];
  }

  /** The cursor emitted in the middle of page k, compact or opaque, points at the rest of the page. */
  lemma ContinuesInside<T(!new), M(!new)>(
    o: Options<T, M>, pages: seq<SourcePage<T>>, k: nat, consumed: nat, left: seq<T>)
    requires Serves(o, pages) && k < |pages| && consumed <= |Matching(o, pages[k])|
    requires left == Matching(o, pages[k])[consumed..] + From(o, pages, k + 1)
    ensures var next := NextCursor(o, CursorFrom(None, pages, k), consumed, pages[k].nextCursor.None?);
            next.Ok? && Points(o, pages, Some(next.value), left)
  {
    assert PageValid(pages[k]);
    if pages[k].nextCursor.None? && CursorFrom(None, pages, k).None? {
      assert CursorFrom(None, pages, 0) == CursorFrom(None, pages, k);
      LegacySkips(o, pages, 0, consumed);
    } else {
      assert PointsInto(o, pages, k, CursorFrom(None, pages, k), consumed, left);
    }
  }

  /** The cursor emitted at the end of page k points at the start of the next. */
  lemma ContinuesAfter<T(!new), M(!new)>(o: Options<T, M>, pages: seq<SourcePage<T>>, k: nat, left: seq<T>)
    requires Serves(o, pages) && k + 1 < |pages| && left == From(o, pages, k + 1)
    ensures Encode(o, pages[k].nextCursor, 0).Ok?
    ensures Points(o, pages, Some(Encode(o, pages[k].nextCursor, 0).value), left)
  {
    assert CursorFrom(None, pages, k + 1) == pages[k].nextCursor;
    assert Matching(o, pages[k + 1])[0..] == Matching(o, pages[k + 1]);
    assert PointsInto(o, pages, k + 1, pages[k].nextCursor, 0, left);
  }

  /** A cursor leaves exactly one thing to read. */
  lemma PointsUnique<T(!new), M(!new)>(
    o: Options<T, M>, pages: seq<SourcePage<T>>, cursor: Option<Wire>, a: seq<T>, b: seq<T>)
    requires Serves(o, pages) && Points(o, pages, cursor, a) && Points(o, pages, cursor, b)
    ensures a == b
  {
    hide Serves, From;
    if cursor.Some? && cursor.value.Opaque? {
      var j :| PointsInto(o, pages, j, cursor.value.sourceCursor, cursor.value.matchOffset, a);
      var k :| PointsInto(o, pages, k, cursor.value.sourceCursor, cursor.value.matchOffset, b);
      SamePage(o, pages, j, k);
    }
  }

  lemma SamePage<T(!new), M(!new)>(o: Options<T, M>, pages: seq<SourcePage<T>>, j: nat, k: nat)
    requires Serves(o, pages) && j < |pages| && k < |pages| && CursorFrom(None, pages, j) == CursorFrom(None, pages, k)
    ensures j == k
  {
  }

  lemma SafeInPage<T(!new), M(!new)>(o: Options<T, M>, page: SourcePage<T>, n: nat)
    requires PageValid(page) && n <= |Matching(o, page)|
    ensures IsSafe(n)
  {
  }

  lemma LastPageOnly<T(!new), M(!new)>(o: Options<T, M>, pages: seq<SourcePage<T>>, n: nat)
    requires |pages| == 1 && n <= |Matching(o, pages[0])|
    ensures Drop(From(o, pages, 0), n) == Matching(o, pages[0])[n..] + From(o, pages, 1)
  {
    assert From(o, pages, 1) == [];
    assert From(o, pages, 0) == Matching(o, pages[0]);
  }

  lemma PointsIntoOnly<T(!new), M(!new)>(o: Options<T, M>, pages: seq<SourcePage<T>>, n: nat, rest: seq<T>)
    requires |pages| == 1 && n <= |Matching(o, pages[0])|
    ensures (exists k :: PointsInto(o, pages, k, None, n, rest)) <==>
              rest == Matching(o, pages[0])[n..] + From(o, pages, 1)
  {
    hide From, Matching;
    if rest == Matching(o, pages[0])[n..] + From(o, pages, 1) {
      assert PointsInto(o, pages, 0, None, n, rest);
    }
  }

  /** On a one-page source the compact decimal cursor and the opaque one leave the same to read. */
  lemma CompactIsOpaque<T(!new), M(!new)>(o: Options<T, M>, pages: seq<SourcePage<T>>, n: nat, rest: seq<T>)
    requires Serves(o, pages) && |pages| == 1 && n <= |Matching(o, pages[0])|
    ensures Points(o, pages, Some(Decimal(n)), rest) <==> Points(o, pages, Some(Opaque(1, None, n, false)), rest)
  {
    hide Serves, From, Matching, PageValid, PointsInto, Drop;
    ServesPage(o, pages, 0);
    SafeInPage(o, pages[0], n);
    LastPageOnly(o, pages, n);
    PointsIntoOnly(o, pages, n, rest);
  }

  // ---------- over a well-formed source there is an answer ----------

  lemma LegacyStartsAtZero(cursor: Option<Wire>)
    ensures Decode(cursor).Ok? && Decode(cursor).value.legacyOffset.Some? ==> Decode(cursor).value.matchOffset == 0
  {
  }

  lemma SliceOn<T>(pages: seq<T>, first: nat, k: nat)
    requires first <= k < |pages|
    ensures pages[first..k + 1] == pages[first..k] + [pages[k]]
  {
  }

  lemma SliceCursor<T>(pages: seq<SourcePage<T>>, first: nat, k: nat, j: nat)
    requires first <= k <= |pages| && first + j <= k
    ensures CursorFrom(CursorFrom(None, pages, first), pages[first..k], j) == CursorFrom(None, pages, first + j)
  {
  }

  /** Pages first up to k of a well-formed source are a reading from the cursor of page first. */
  lemma ServesTrace<T(!new), M(!new)>(o: Options<T, M>, pages: seq<SourcePage<T>>, first: nat, k: nat)
    requires Serves(o, pages) && first <= k <= |pages| && first < |pages|
    ensures Trace(o, CursorFrom(None, pages, first), pages[first..k])
    ensures k < |pages| ==>
              CursorFrom(CursorFrom(None, pages, first), pages[first..k], k - first) == CursorFrom(None, pages, k)
    ensures k > first && k < |pages| ==> LeadsOn(CursorFrom(None, pages, first), pages[first..k])
  {
    hide PageValid, FreshIds, IdSet, CursorFrom;
    var start, read := CursorFrom(None, pages, first), pages[first..k];
    forall j: nat | j <= |read| ensures CursorFrom(start, read, j) == CursorFrom(None, pages, first + j) {
      SliceCursor(pages, first, k, j);
    }
    forall j | 0 <= j < |read| ensures PageRead(o, start, read, j) {
      ServesRead(o, pages, first + j);
    }
    forall i, j | 0 <= i < j < |read| ensures CursorFrom(start, read, i) != CursorFrom(start, read, j) {
      assert CursorFrom(None, pages, first + i) != CursorFrom(None, pages, first + j);
    }
    forall i, j | 0 <= i < j < |read| ensures IdSet(o, read[i].data) !! IdSet(o, read[j].data) {
      assert IdSet(o, pages[first + i].data) !! IdSet(o, pages[first + j].data);
    }
    if first < k < |pages| {
      ServesRead(o, pages, k);
    }
  }

  lemma ServesRead<T(!new), M(!new)>(o: Options<T, M>, pages: seq<SourcePage<T>>, k: nat)
    requires Serves(o, pages) && k < |pages|
    ensures PageValid(pages[k]) && FreshIds(o, pages[k].data, {}) && o.load(CursorFrom(None, pages, k)) == pages[k]
    ensures k > 0 ==> CursorFrom(None, pages, k).Some? && CursorFrom(None, pages, k) == pages[k - 1].nextCursor
    ensures forall j: nat :: j < k ==> CursorFrom(None, pages, j) != CursorFrom(None, pages, k)
  {
    hide PageValid, FreshIds, IdSet;
  }

  lemma ServesPage<T(!new), M(!new)>(o: Options<T, M>, pages: seq<SourcePage<T>>, k: nat)
    requires Serves(o, pages) && k < |pages|
    ensures PageValid(pages[k])
    ensures |pages| <= MAX_FILTERED_SOURCE_PAGES && (pages[k].nextCursor.None? <==> k + 1 == |pages|)
  {
  }

  lemma AllMatchingOn<T(!new), M(!new)>(o: Options<T, M>, read: seq<SourcePage<T>>, page: SourcePage<T>)
    ensures AllMatching(o, read + [page]) == AllMatching(o, read) + Matching(o, page)
  {
    assert (read + [page])[..|read|] == read;
  }

  /** Both the reading's and the source's view of the loop, page k being next. */
  ghost predicate At<T(!new), M(!new)>(
    o: Options<T, M>, pages: seq<SourcePage<T>>, rest: seq<T>, state: CursorState, first: nat, k: nat,
    selected: seq<M>, offset: nat, legacy: Option<nat>)
  {
    && first <= k < |pages| && |selected| < o.limit
    && Gathered(o, state, pages[first..k], selected, offset, legacy)
    && Standing(o, pages, rest, k, selected, offset, legacy)
  }

  /** Over a well-formed source a cursor that points at `rest` has a justified answer, and it is the right one. */
  lemma WellFormedAnswers<T(!new), M(!new)>(
    o: Options<T, M>, pages: seq<SourcePage<T>>, cursor: Option<Wire>, rest: seq<T>)
    returns (read: seq<SourcePage<T>>, page: Page<M>)
    requires 1 <= o.limit && Serves(o, pages) && Points(o, pages, cursor, rest)
    ensures Decode(cursor).Ok? && |read| <= MAX_FILTERED_SOURCE_PAGES
    ensures Justified(o, Decode(cursor).value, read, page) && Answers(o, pages, rest, page)
  {
    hide Serves, Points, Answers, Justified, Standing, Gathered, Decode;
    var first := Starts(o, pages, cursor, rest);
    var state := Decode(cursor).value;
    LegacyStartsAtZero(cursor);
    NothingRead<T, M>(o, state);
    assert pages[first..first] == [];
    read, page := AnswerFrom(o, pages, rest, state, first, first, [], state.matchOffset, state.legacyOffset);
  }

  lemma {:induction false} AnswerFrom<T(!new), M(!new)>(
    o: Options<T, M>, pages: seq<SourcePage<T>>, rest: seq<T>, state: CursorState, first: nat, k: nat,
    selected: seq<M>, offset: nat, legacy: Option<nat>) returns (read: seq<SourcePage<T>>, page: Page<M>)
    requires 1 <= o.limit && Serves(o, pages) && At(o, pages, rest, state, first, k, selected, offset, legacy)
    requires state.sourceCursor == CursorFrom(None, pages, first)
    ensures |read| <= MAX_FILTERED_SOURCE_PAGES && Justified(o, state, read, page) && Answers(o, pages, rest, page)
    decreases |pages| - k, 1
  {
    hide Serves, Answers, Justified, Standing, Gathered, Filled, Trace, Matching, AllMatching, From, LeadsOn;
    ServesPage(o, pages, k);
    ServesTrace(o, pages, first, k);
    ServesTrace(o, pages, first, k + 1);
    read := pages[first..k + 1];
    SliceOn(pages, first, k);
    AllMatchingOn(o, pages[first..k], pages[k]);
    if legacy.Some? && legacy.value >= |Matching(o, pages[k])| {
      read, page := SkipFrom(o, pages, rest, state, first, k, selected, offset, legacy.value);
    } else {
      var enters := Enters(legacy, offset);
      if legacy.Some? {
        UseOffset(o, pages, rest, k, selected, offset, legacy.value);
      }
      TakeHere(o, pages, rest, k, selected, enters, o.limit - |selected|);
      Fills(o, state, pages[first..k], pages[k], selected, offset, legacy);
      var take := Take(Matching(o, pages[k])[enters..], o.limit - |selected|);
      read, page := FinishFrom(o, pages, rest, state, first, k, selected + Map(o.project, take), enters + |take|);
    }
  }

  lemma SkipFrom<T(!new), M(!new)>(
    o: Options<T, M>, pages: seq<SourcePage<T>>, rest: seq<T>, state: CursorState, first: nat, k: nat,
    selected: seq<M>, offset: nat, n: nat) returns (read: seq<SourcePage<T>>, page: Page<M>)
    requires 1 <= o.limit && Serves(o, pages) && At(o, pages, rest, state, first, k, selected, offset, Some(n))
    requires state.sourceCursor == CursorFrom(None, pages, first) && n >= |Matching(o, pages[k])|
    ensures |read| <= MAX_FILTERED_SOURCE_PAGES && Justified(o, state, read, page) && Answers(o, pages, rest, page)
    decreases |pages| - k, 0
  {
    hide Serves, Answers, Justified, Standing, Gathered, Trace, Matching, AllMatching, From, LeadsOn;
    ServesPage(o, pages, k);
    ServesTrace(o, pages, first, k + 1);
    read := pages[first..k + 1];
    SliceOn(pages, first, k);
    AllMatchingOn(o, pages[first..k], pages[k]);
    SkipPage(o, pages, rest, k, selected, offset, n);
    SkipsPage(o, state, pages[first..k], pages[k], selected, offset, n);
    if k + 1 == |pages| {
      page := Page([], None, false);
      NothingLeft(o, state, read, selected, 0, n - |Matching(o, pages[k])|);
      FinishEmpty(o, pages);
    } else {
      read, page := AnswerFrom(o, pages, rest, state, first, k + 1, selected, 0, Some(n - |Matching(o, pages[k])|));
    }
  }

  lemma StandingFits<T(!new), M(!new)>(
    o: Options<T, M>, pages: seq<SourcePage<T>>, rest: seq<T>, k: nat, selected: seq<M>, consumed: nat)
    requires k < |pages| && Standing(o, pages, rest, k, selected, consumed, None)
    ensures consumed <= |Matching(o, pages[k])|
  {
  }

  lemma FinishFrom<T(!new), M(!new)>(
    o: Options<T, M>, pages: seq<SourcePage<T>>, rest: seq<T>, state: CursorState, first: nat, k: nat,
    selected: seq<M>, consumed: nat) returns (read: seq<SourcePage<T>>, page: Page<M>)
    requires 1 <= o.limit && Serves(o, pages) && first <= k < |pages|
          && state.sourceCursor == CursorFrom(None, pages, first)
    requires Filled(o, state, pages[first..k + 1], selected, consumed) && |selected| <= o.limit
    requires |selected| < o.limit ==> consumed == |Matching(o, pages[k])|
    requires Standing(o, pages, rest, k, selected, consumed, None)
    ensures |read| <= MAX_FILTERED_SOURCE_PAGES && Justified(o, state, read, page) && Answers(o, pages, rest, page)
    decreases |pages| - k, 0
  {
    hide Serves, Answers, Justified, Standing, Gathered, Filled, Trace, Matching, AllMatching, From, LeadsOn,
         NextCursor, Encode, PageValid;
    StandingFits(o, pages, rest, k, selected, consumed);
    ServesPage(o, pages, k);
    ServesTrace(o, pages, first, k);
    ServesTrace(o, pages, first, k + 1);
    read := pages[first..k + 1];
    var last := |read| - 1;
    assert read[last] == pages[k] && read[..last] == pages[first..k];
    assert CursorFrom(state.sourceCursor, read, last) == CursorFrom(None, pages, k);
    if k + 1 == |pages| && consumed == |Matching(o, pages[k])| {
      page := Page(selected, None, false);
      FinishLast(o, pages, rest, k, selected);
      AnswerJustified(o, state, read, selected, consumed, page);
    } else if |selected| < o.limit {
      GoesOn(o, state, read, selected, consumed);
      NextPage(o, pages, rest, k, selected);
      read, page := AnswerFrom(o, pages, rest, state, first, k + 1, selected, 0, None);
    } else if consumed < |Matching(o, pages[k])| {
      FinishInside(o, pages, rest, k, selected, consumed);
      var next := NextCursor(o, CursorFrom(None, pages, k), consumed, pages[k].nextCursor.None?).value;
      page := Page(selected, Some(next), true);
      AnswerJustified(o, state, read, selected, consumed, page);
    } else {
      FinishAfter(o, pages, rest, k, selected);
      page := Page(selected, Some(Encode(o, pages[k].nextCursor, 0).value), true);
      AnswerJustified(o, state, read, selected, consumed, page);
    }
  }

  // ---------- requests that follow each other ----------

  function Items<M>(chain: seq<Page<M>>): seq<M> {
    if chain == [] then [] else Items(chain[..|chain| - 1]) + chain[|chain| - 1].items
  }

  lemma ItemsAppend<M>(chain: seq<Page<M>>, page: Page<M>)
    ensures Items(chain + [page]) == Items(chain) + page.items
  {
    assert (chain + [page])[..|chain|] == chain;
  }

  lemma FrontOff<T>(done: seq<T>, rest: seq<T>, n: nat)
    requires n <= |rest|
    ensures (done + rest[..n]) + rest[n..] == done + rest
  {
  }

  lemma MapLength<T, M>(project: T -> M, data: seq<T>)
    ensures |Map(project, data)| == |data|
  {
  }

  /** What a request with this cursor answers, when it answers. */
  ghost predicate Given<T(!new), M(!new)>(o: Options<T, M>, cursor: Option<Wire>, page: Page<M>)
    requires o.limit >= 1
  {
    Decode(cursor).Ok? &&
    exists read :: |read| <= MAX_FILTERED_SOURCE_PAGES && Justified(o, Decode(cursor).value, read, page)
  }

  /** Answers to requests of which each one carries the cursor of the answer before. */
  ghost predicate Requests<T(!new), M(!new)>(o: Options<T, M>, cursor: Option<Wire>, chain: seq<Page<M>>)
    requires o.limit >= 1
    decreases |chain|
  {
    && chain != [] && Given(o, cursor, chain[0])
    && (|chain| > 1 ==> chain[0].nextCursor.Some? && Requests(o, chain[0].nextCursor, chain[1..]))
  }

  /** The requests read to the end. */
  ghost predicate ReadsToEnd<T(!new), M(!new)>(o: Options<T, M>, cursor: Option<Wire>, chain: seq<Page<M>>)
    requires o.limit >= 1
  {
    Requests(o, cursor, chain) && chain[|chain| - 1].nextCursor.None?
  }

  lemma {:induction false} ItemsFirst<M>(first: Page<M>, chain: seq<Page<M>>)
    ensures Items([first] + chain) == first.items + Items(chain)
  {
    var all := [first] + chain;
    if chain == [] {
      assert all[..0] == [];
    } else {
      ItemsFirst(first, chain[..|chain| - 1]);
      assert all[..|all| - 1] == [first] + chain[..|chain| - 1];
    }
  }

  /** From any cursor of a well-formed source the requests read to the end, and give what was left to read. */
  lemma {:induction false} WellFormedReadsToEnd<T(!new), M(!new)>(
    o: Options<T, M>, pages: seq<SourcePage<T>>, cursor: Option<Wire>, rest: seq<T>) returns (chain: seq<Page<M>>)
    requires 1 <= o.limit && Serves(o, pages) && Points(o, pages, cursor, rest)
    ensures ReadsToEnd(o, cursor, chain) && Items(chain) == Map(o.project, rest)
    decreases |rest|
  {
    hide Serves, Points, Justified, Decode, Map;
    var read, page := WellFormedAnswers(o, pages, cursor, rest);
    assert Given(o, cursor, page);
    chain := [page];
    assert [page][..0] == [];
    if page.nextCursor.Some? {
      var tail := WellFormedReadsToEnd(o, pages, page.nextCursor, rest[o.limit..]);
      chain := [page] + tail;
      assert chain[1..] == tail;
      ItemsFirst(page, tail);
      MapAppend(o.project, rest[..o.limit], rest[o.limit..]);
      assert rest == rest[..o.limit] + rest[o.limit..];
    } else {
      assert Take(rest, o.limit) == rest;
    }
  }
}
