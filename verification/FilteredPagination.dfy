/**
 `filteredPage` re-pages a filtered view over a source that is itself read in pages behind opaque cursors.
 The claim is completeness: following the returned cursors yields the filter of the whole source, once each.
 */
module FilteredPagination {
  import opened Outcomes
  import opened FilteredSource
  import opened FilteredTrace
  import opened FilteredAnswers
  import opened FilteredRows

  /** The duplicate check over one page. */
  method NoteIds<T(!new), M(!new)>(o: Options<T, M>, data: seq<T>, seen: set<string>)
    returns (unseen: bool, all: set<string>)
    ensures unseen == FreshIds(o, data, seen)
    ensures unseen ==> all == seen + IdSet(o, data)
  {
    all := seen;
    for n := 0 to |data|
      invariant all == seen + IdSet(o, data[..n])
      invariant FreshIds(o, data[..n], seen)
    {
      var id := o.id(data[n]);
      assert data[..n + 1] == data[..n] + [data[n]];
      assert IdSet(o, data[..n + 1]) == IdSet(o, data[..n]) + if id.Some? then {id.value} else {};
      if id.Some? {
        if id.value in all {
          Repeated(o, data, seen, n);
          return false, all;
        }
        all := all + {id.value};
      }
    }
    assert data[..|data|] == data;
    return true, all;
  }

  lemma Repeated<T(!new), M(!new)>(o: Options<T, M>, data: seq<T>, seen: set<string>, n: nat)
    requires n < |data| && o.id(data[n]).Some? && o.id(data[n]).value in seen + IdSet(o, data[..n])
    ensures !FreshIds(o, data, seen)
  {
    if o.id(data[n]).value in seen {
      assert o.id(data[n]).value in IdSet(o, data);
    } else {
      var j :| 0 <= j < n && o.id(data[..n][j]).Some? && o.id(data[..n][j]).value == o.id(data[n]).value;
      assert o.id(data[j]) == o.id(data[n]);
    }
  }

  /** `assertFilteredNextCursor` */
  predicate Progresses(next: string, current: Option<string>, visited: set<string>) {
    ValidSourceCursor(next) && Some(next) != current && next !in visited
  }

  /** No reading of at most a thousand pages justifies any answer. */
  ghost predicate NoAnswer<T(!new), M(!new)>(o: Options<T, M>, state: CursorState)
    requires o.limit >= 1
  {
    forall goal: seq<SourcePage<T>>, page: Page<M> :: |goal| <= MAX_FILTERED_SOURCE_PAGES ==>
      !Justified(o, state, goal, page)
  }

  /** The next page fails a check of the loop. */
  lemma NoneComes<T(!new), M(!new)>(
    o: Options<T, M>, state: CursorState, read: seq<SourcePage<T>>, visited: set<string>, seen: set<string>)
    requires o.limit >= 1 && Trace(o, state.sourceCursor, read) && Noted(o, state.sourceCursor, read, visited, seen)
    requires Unfinished(o, state, read)
    requires !Comes(o, state.sourceCursor, read, visited, seen, o.load(CursorFrom(state.sourceCursor, read, |read|)))
    ensures NoAnswer(o, state)
  {
    hide Trace, Noted, Unfinished, Justified, Comes;
    forall goal: seq<SourcePage<T>>, page: Page<M> ensures !Justified(o, state, goal, page) {
      if Justified(o, state, goal, page) {
        GoalComes(o, state, read, visited, seen, goal, page);
      }
    }
  }

  /** The first page has fewer matches than the cursor's offset; later pages are entered at their start. */
  lemma OffsetTooLong<T(!new), M(!new)>(
    o: Options<T, M>, state: CursorState, read: seq<SourcePage<T>>, visited: set<string>, seen: set<string>,
    page: SourcePage<T>, selected: seq<M>, offset: nat)
    requires o.limit >= 1 && Comes(o, state.sourceCursor, read, visited, seen, page)
    requires Gathered(o, state, read, selected, offset, None) && offset > |Matching(o, page)|
    ensures NoAnswer(o, state)
  {
    hide Matching, AllMatching, Map;
    assert read == [] && page == o.load(state.sourceCursor);
    forall goal: seq<SourcePage<T>>, other: Page<M> ensures !Justified(o, state, goal, other) {
      if Justified(o, state, goal, other) {
        JustifiedFirst(o, state, goal, other);
      }
    }
  }

  lemma JustifiedFirst<T(!new), M(!new)>(o: Options<T, M>, state: CursorState, goal: seq<SourcePage<T>>, page: Page<M>)
    requires o.limit >= 1 && Justified(o, state, goal, page)
    ensures state.legacyOffset.None? ==> state.matchOffset <= |Matching(o, o.load(state.sourceCursor))|
  {
    hide Matching, AllMatching, Map;
    assert PageRead(o, state.sourceCursor, goal, 0);
  }

  /** The page read names a further one that does not lead on. */
  lemma NoProgress<T(!new), M(!new)>(
    o: Options<T, M>, state: CursorState, read: seq<SourcePage<T>>, visited: set<string>, seen: set<string>)
    requires o.limit >= 1 && read != [] && Trace(o, state.sourceCursor, read)
          && Noted(o, state.sourceCursor, read, visited, seen)
    requires Unfinished(o, state, read)
    requires !Progresses(read[|read| - 1].nextCursor.value, CursorFrom(state.sourceCursor, read, |read| - 1), visited)
    ensures NoAnswer(o, state)
  {
    assert PageRead(o, state.sourceCursor, read, |read| - 1);
    NoneComes(o, state, read, visited, seen);
  }

  lemma TooManyPages<T(!new), M(!new)>(o: Options<T, M>, state: CursorState, read: seq<SourcePage<T>>)
    requires o.limit >= 1 && Trace(o, state.sourceCursor, read) && Unfinished(o, state, read)
          && |read| >= MAX_FILTERED_SOURCE_PAGES
    ensures NoAnswer(o, state)
  {
    hide Trace, Unfinished, Justified;
    forall goal: seq<SourcePage<T>>, page: Page<M>
      ensures |goal| <= MAX_FILTERED_SOURCE_PAGES ==> !Justified(o, state, goal, page)
    {
      if Justified(o, state, goal, page) {
        GoesFurther(o, state, read, goal, page);
      }
    }
  }

  /** What the loop returns after the last page it looks at. */
  ghost predicate AnswerShape<T(!new), M(!new)>(
    o: Options<T, M>, page: SourcePage<T>, sourceCursor: Option<string>, visited: set<string>, selected: seq<M>,
    consumed: nat, matched: nat, r: Page<M>)
  {
    && r.items == selected && r.hasMore == r.nextCursor.Some?
    && (r.nextCursor.None? ==> page.nextCursor.None? && consumed == matched)
    && (r.nextCursor.Some? ==>
          && |selected| == o.limit
          && (if consumed < matched
              then NextCursor(o, sourceCursor, consumed, page.nextCursor.None?) == Ok(r.nextCursor.value)
              else
                && page.nextCursor.Some? && Progresses(page.nextCursor.value, sourceCursor, visited)
                && Encode(o, page.nextCursor, 0) == Ok(r.nextCursor.value)))
  }

  /** The answer is full, but its continuation cannot be given. */
  ghost predicate Stuck<T(!new), M(!new)>(
    o: Options<T, M>, page: SourcePage<T>, sourceCursor: Option<string>, visited: set<string>, consumed: nat,
    matched: nat)
  {
    if consumed < matched then NextCursor(o, sourceCursor, consumed, page.nextCursor.None?).Err?
    else
      && page.nextCursor.Some?
      && (!Progresses(page.nextCursor.value, sourceCursor, visited) || Encode(o, page.nextCursor, 0).Err?)
  }

  lemma StuckNoAnswer<T(!new), M(!new)>(
    o: Options<T, M>, state: CursorState, now: seq<SourcePage<T>>, selected: seq<M>, consumed: nat,
    visited: set<string>, seen: set<string>)
    requires o.limit >= 1 && |selected| == o.limit && Filled(o, state, now, selected, consumed)
    requires Trace(o, state.sourceCursor, now) && Noted(o, state.sourceCursor, now, visited, seen)
    requires var last := now[|now| - 1];
             Stuck(o, last, CursorFrom(state.sourceCursor, now, |now| - 1), visited, consumed, |Matching(o, last)|)
    ensures NoAnswer(o, state)
  {
    forall goal: seq<SourcePage<T>>, page: Page<M> ensures !Justified(o, state, goal, page) {
      hide Justified, Filled, Noted, Trace, Stuck;
      if Justified(o, state, goal, page) {
        GoalStops(o, state, now, selected, consumed, goal, page);
        StuckNotJustified(o, state, now, selected, consumed, visited, seen, page);
      }
    }
  }

  lemma StuckNotJustified<T(!new), M(!new)>(
    o: Options<T, M>, state: CursorState, now: seq<SourcePage<T>>, selected: seq<M>, consumed: nat,
    visited: set<string>, seen: set<string>, page: Page<M>)
    requires o.limit >= 1 && |selected| == o.limit && Filled(o, state, now, selected, consumed)
    requires Trace(o, state.sourceCursor, now) && Noted(o, state.sourceCursor, now, visited, seen)
    requires var last := now[|now| - 1];
             Stuck(o, last, CursorFrom(state.sourceCursor, now, |now| - 1), visited, consumed, |Matching(o, last)|)
    ensures !Justified(o, state, now, page)
  {
    assert PageRead(o, state.sourceCursor, now, |now| - 1);
    LeadsOnProgresses(o, state.sourceCursor, now, visited, seen);
    hide Trace, Noted, Matching, AllMatching, Map, OffsetFits, LeadsOn, Progresses, NextCursor, Encode, PageRead,
         PageValid;
  }

  lemma LeadsOnProgresses<T(!new), M(!new)>(
    o: Options<T, M>, start: Option<string>, read: seq<SourcePage<T>>, visited: set<string>, seen: set<string>)
    requires read != [] && Noted(o, start, read, visited, seen) && PageValid(read[|read| - 1])
    ensures LeadsOn(start, read) ==>
              Progresses(read[|read| - 1].nextCursor.value, CursorFrom(start, read, |read| - 1), visited)
  {
  }

  lemma JustifiedByAnswer<T(!new), M(!new)>(
    o: Options<T, M>, state: CursorState, now: seq<SourcePage<T>>, selected: seq<M>, consumed: nat,
    visited: set<string>, seen: set<string>, r: Page<M>)
    requires o.limit >= 1 && now != [] && Trace(o, state.sourceCursor, now) && Filled(o, state, now, selected, consumed)
    requires Noted(o, state.sourceCursor, now, visited, seen)
    requires var last := now[|now| - 1];
             AnswerShape(o, last, CursorFrom(state.sourceCursor, now, |now| - 1), visited, selected, consumed,
               |Matching(o, last)|, r)
    ensures Justified(o, state, now, r)
  {
    hide Trace, NextCursor, Encode, Justified, Matching;
    if r.nextCursor.Some? && consumed == |Matching(o, now[|now| - 1])| {
      ProgressLeadsOn(o, state.sourceCursor, now, visited, seen);
    }
    AnswerJustified(o, state, now, selected, consumed, r);
  }

  lemma ProgressLeadsOn<T(!new), M(!new)>(
    o: Options<T, M>, start: Option<string>, read: seq<SourcePage<T>>, visited: set<string>, seen: set<string>)
    requires read != [] && Noted(o, start, read, visited, seen) && read[|read| - 1].nextCursor.Some?
    requires Progresses(read[|read| - 1].nextCursor.value, CursorFrom(start, read, |read| - 1), visited)
    ensures LeadsOn(start, read)
  {
  }

  /**
   One request, over any source whatever: it answers if and only if some reading of at most a thousand pages justifies
   an answer, and then with that answer.
   */
  method FilteredPage<T(!new), M(!new)>(o: Options<T, M>, cursor: Option<Wire>) returns (r: Result<Page<M>>)
    ensures o.limit < 1 || !IsSafe(o.limit) || Decode(cursor).Err? ==> r == Err(InvalidArgument)
    ensures 1 <= o.limit && IsSafe(o.limit) && Decode(cursor).Ok? ==>
              match r
              case Ok(page) =>
                exists read :: |read| <= MAX_FILTERED_SOURCE_PAGES && Justified(o, Decode(cursor).value, read, page)
              case Err(error) => error == BackendError && NoAnswer(o, Decode(cursor).value)
  {
    hide Filter, Map, FreshIds, PageValid, IdSet, Progresses, NextCursor, Encode, Trace, Noted, Gathered, Filled,
         Justified, AllMatching, Continuation, PageRead, AnswerShape, Stuck, CursorFrom, Skip, Decode, Take, Unfinished,
         NoAnswer, Comes, Matching;
    var decoded := Decode(cursor);
    if decoded.Err? {
      DecodeRefusal(cursor);
      return Err(InvalidArgument);
    }
    var limit := o.limit;
    if !IsSafe(limit) || limit < 1 {
      return Err(InvalidArgument);
    }
    var sourceCursor := decoded.value.sourceCursor;
    var pageMatchOffset: nat := decoded.value.matchOffset;
    var legacyOffset: Option<nat> := decoded.value.legacyOffset;
    var selected: seq<M> := [];
    ghost var state := decoded.value;
    ghost var read: seq<SourcePage<T>> := [];
    LegacyStartsAtZero(cursor);
    NothingRead(o, state);
    StartUnfinished(o, state);
    var visited: set<string> := {};
    var seen: set<string> := {};
    for pageNumber := 0 to MAX_FILTERED_SOURCE_PAGES
      invariant |selected| < limit && |read| == pageNumber && Unfinished(o, state, read)
      invariant sourceCursor == CursorFrom(state.sourceCursor, read, |read|) && (read != [] ==> sourceCursor.Some?)
      invariant Trace(o, state.sourceCursor, read) && Noted(o, state.sourceCursor, read, visited, seen)
      invariant Gathered(o, state, read, selected, pageMatchOffset, legacyOffset)
    {
      ghost var visitedBefore, seenBefore := visited, seen;
      var loaded;
      loaded, visited, seen := LoadPage(o, sourceCursor, visited, seen, state, read);
      if loaded.None? {
        NoneComes(o, state, read, visitedBefore, seenBefore);
        return Err(BackendError);
      }
      var page := loaded.value;
      OneMorePage(o, state.sourceCursor, read, visitedBefore, seenBefore, page);
      ghost var now := read + [page];
      var matching := Matching(o, page);
      var offset: nat := pageMatchOffset;
      if legacyOffset.Some? {
        if legacyOffset.value >= |matching| {
          SkipsPage(o, state, read, page, selected, pageMatchOffset, legacyOffset.value);
          legacyOffset := Some(legacyOffset.value - |matching|);
          if page.nextCursor.None? {
            NothingLeft(o, state, now, selected, 0, legacyOffset.value);
            return Ok(Page([], None, false));
          }
          GatheredUnfinished(o, state, now, selected, 0, legacyOffset);
          if !Progresses(page.nextCursor.value, sourceCursor, visited) {
            NoProgress(o, state, now, visited, seen);
            return Err(BackendError);
          }
          sourceCursor := page.nextCursor;
          pageMatchOffset := 0;
          read := now;
          continue;
        }
        offset := legacyOffset.value;
      }
      if offset > |matching| {
        OffsetTooLong(o, state, read, visitedBefore, seenBefore, page, selected, offset);
        return Err(BackendError);
      }
      Fills(o, state, read, page, selected, pageMatchOffset, legacyOffset);
      legacyOffset := None;
      var take := Take(matching[offset..], limit - |selected|);
      selected := selected + Map(o.project, take);
      var answer := AfterPage(o, page, sourceCursor, visited, selected, offset + |take|, |matching|);
      if answer.Some? {
        AnswerSettles(o, state, now, selected, offset + |take|, visited, seen, answer.value);
        return answer.value;
      }
      GoesOn(o, state, now, selected, offset + |take|);
      GatheredUnfinished(o, state, now, selected, 0, None);
      read := now;
      sourceCursor := page.nextCursor;
      pageMatchOffset := 0;
    }
    TooManyPages(o, state, read);
    return Err(BackendError);
  }

  /** The start of the loop body: visit, load, validate and check for duplicates. */
  method LoadPage<T(!new), M(!new)>(
    o: Options<T, M>, sourceCursor: Option<string>, visited: set<string>, seen: set<string>,
    ghost state: CursorState, ghost read: seq<SourcePage<T>>)
    returns (loaded: Option<SourcePage<T>>, passed: set<string>, all: set<string>)
    requires sourceCursor == CursorFrom(state.sourceCursor, read, |read|)
    ensures loaded.Some? ==>
              && Comes(o, state.sourceCursor, read, visited, seen, loaded.value)
              && all == seen + IdSet(o, loaded.value.data)
              && passed == visited + if sourceCursor.Some? then {sourceCursor.value} else {}
    ensures loaded.None? ==> !Comes(o, state.sourceCursor, read, visited, seen, o.load(sourceCursor))
  {
    hide FreshIds, PageValid, IdSet;
    passed, all := visited, seen;
    if sourceCursor.Some? {
      if sourceCursor.value in visited {
        return None, passed, all;
      }
      passed := visited + {sourceCursor.value};
    } else {
      assert visited + {} == visited;
    }
    var page := o.load(sourceCursor);
    if !PageValid(page) {
      return None, passed, all;
    }
    var unseen;
    unseen, all := NoteIds(o, page.data, seen);
    if !unseen {
      return None, passed, all;
    }
    return Some(page), passed, all;
  }

  /** The end of the loop body: answer the request, refuse a source that does not progress, or go on. */
  method AfterPage<T(!new), M(!new)>(
    o: Options<T, M>, page: SourcePage<T>, sourceCursor: Option<string>, visited: set<string>, selected: seq<M>,
    consumed: nat, matched: nat) returns (answer: Option<Result<Page<M>>>)
    requires |selected| <= o.limit && o.limit >= 1 && consumed <= matched
    requires |selected| < o.limit ==> consumed == matched
    ensures answer.Some? ==> Settles(o, page, sourceCursor, visited, selected, consumed, matched, answer.value)
    ensures answer.None? ==> |selected| < o.limit && page.nextCursor.Some?
  {
    hide Progresses, NextCursor, Encode;
    if |selected| >= o.limit {
      if consumed < matched {
        var next := NextCursor(o, sourceCursor, consumed, page.nextCursor.None?);
        if next.Err? {
          return Some(Err(BackendError));
        }
        return Some(Ok(Page(selected, Some(next.value), true)));
      }
      if page.nextCursor.Some? {
        if !Progresses(page.nextCursor.value, sourceCursor, visited) {
          return Some(Err(BackendError));
        }
        var next := Encode(o, page.nextCursor, 0);
        if next.Err? {
          return Some(Err(BackendError));
        }
        return Some(Ok(Page(selected, Some(next.value), true)));
      }
      return Some(Ok(Page(selected, None, false)));
    }
    if page.nextCursor.None? {
      return Some(Ok(Page(selected, None, false)));
    }
    if !Progresses(page.nextCursor.value, sourceCursor, visited) {
      return Some(Err(BackendError));
    }
    return None;
  }

  /** Where the loop ends: with an answer, full and stuck, or before a page that does not lead on. */
  ghost predicate Settles<T(!new), M(!new)>(
    o: Options<T, M>, page: SourcePage<T>, sourceCursor: Option<string>, visited: set<string>, selected: seq<M>,
    consumed: nat, matched: nat, r: Result<Page<M>>)
  {
    match r
    case Ok(answer) => AnswerShape(o, page, sourceCursor, visited, selected, consumed, matched, answer)
    case Err(error) =>
      && error == BackendError
      && (if |selected| >= o.limit then Stuck(o, page, sourceCursor, visited, consumed, matched)
          else page.nextCursor.Some? && !Progresses(page.nextCursor.value, sourceCursor, visited))
  }

  lemma AnswerSettles<T(!new), M(!new)>(
    o: Options<T, M>, state: CursorState, now: seq<SourcePage<T>>, selected: seq<M>, consumed: nat,
    visited: set<string>, seen: set<string>, r: Result<Page<M>>)
    requires o.limit >= 1 && now != [] && Trace(o, state.sourceCursor, now)
          && Noted(o, state.sourceCursor, now, visited, seen)
    requires Filled(o, state, now, selected, consumed)
    requires var last := now[|now| - 1];
             Settles(o, last, CursorFrom(state.sourceCursor, now, |now| - 1), visited, selected, consumed,
               |Matching(o, last)|, r)
    ensures r.Ok? ==> Justified(o, state, now, r.value)
    ensures r.Err? ==> r.error == BackendError && NoAnswer(o, state)
  {
    hide Trace, Noted, Justified, NoAnswer, AnswerShape, Stuck, Progresses, Matching;
    if r.Ok? {
      JustifiedByAnswer(o, state, now, selected, consumed, visited, seen, r.value);
    } else if |selected| >= o.limit {
      StuckNoAnswer(o, state, now, selected, consumed, visited, seen);
    } else {
      GoesOn(o, state, now, selected, consumed);
      GatheredUnfinished(o, state, now, selected, 0, None);
      NoProgress(o, state, now, visited, seen);
    }
  }

  lemma StartUnfinished<T(!new), M(!new)>(o: Options<T, M>, state: CursorState)
    ensures Unfinished(o, state, [])
  {
  }

  lemma DecodeRefusal(cursor: Option<Wire>)
    ensures Decode(cursor).Err? ==> Decode(cursor).error == InvalidArgument
  {
  }

  // ---------- following the continuations ----------

  /**
   Completeness: reading from the start and following every continuation gives the projection of every matching row
   of every page, once each and in reading order. All answers but the last hold `limit` items, so the chain ends.
   */
  method ReadAll<T(!new), M(!new)>(o: Options<T, M>, ghost pages: seq<SourcePage<T>>) returns (chain: seq<Page<M>>)
    requires 1 <= o.limit && IsSafe(o.limit) && Serves(o, pages)
    ensures Items(chain) == Map(o.project, From(o, pages, 0))
    ensures |chain| >= 1 && forall j :: 0 <= j < |chain| - 1 ==> |chain[j].items| == o.limit && chain[j].hasMore
    ensures !chain[|chain| - 1].hasMore
    ensures exists at :: Selects(o.matches, pages, 0, at) && Delivers(o, pages, at, chain)
  {
    hide Serves, From, PointsInto, Map, Justified, NoAnswer, Decode, Selects, Delivers;
    ghost var rest := From(o, pages, 0);
    ghost var done: seq<T> := [];
    var cursor: Option<Wire> := None;
    chain := [];
    MapLength(o.project, done);
    while true
      invariant Points(o, pages, cursor, rest)
      invariant done + rest == From(o, pages, 0) && Items(chain) == Map(o.project, done)
      invariant forall j :: 0 <= j < |chain| ==> |chain[j].items| == o.limit && chain[j].hasMore
      decreases |rest|
    {
      ghost var read, answer := WellFormedAnswers(o, pages, cursor, rest);
      var r := FilteredPage(o, cursor);
      AnswersOnly(o, Decode(cursor).value, read, answer, r);
      var page := r.value;
      ItemsAppend(chain, page);
      chain := chain + [page];
      ghost var front := Take(rest, o.limit);
      MapLength(o.project, front);
      MapAppend(o.project, done, front);
      if page.nextCursor.None? {
        assert front == rest;
        ghost var at := ChainDelivers(o, pages, chain);
        return;
      }
      FrontOff(done, rest, o.limit);
      done, rest := done + front, rest[o.limit..];
      cursor := page.nextCursor;
    }
  }

  /** A justified answer is the one a request gives. */
  lemma AnswersOnly<T(!new), M(!new)>(
    o: Options<T, M>, state: CursorState, read: seq<SourcePage<T>>, answer: Page<M>, r: Result<Page<M>>)
    requires o.limit >= 1 && |read| <= MAX_FILTERED_SOURCE_PAGES && Justified(o, state, read, answer)
    requires match r
             case Ok(page) => exists other :: |other| <= MAX_FILTERED_SOURCE_PAGES && Justified(o, state, other, page)
             case Err(_) => NoAnswer(o, state)
    ensures r == Ok(answer)
  {
    hide Justified;
    if r.Ok? {
      var other :| |other| <= MAX_FILTERED_SOURCE_PAGES && Justified(o, state, other, r.value);
      AnswerUnique(o, state, read, other, answer, r.value);
    }
  }
}
