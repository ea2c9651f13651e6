/**
 What one request did to a source, well-formed or not: the pages it loaded, each checked, and the answer they give.
 */
module FilteredTrace {
  import opened Outcomes
  import opened FilteredSource

  /** Page k is what the source gave, passed validation, and carries no id twice. */
  ghost predicate PageRead<T(!new), M(!new)>(o: Options<T, M>, start: Option<string>, read: seq<SourcePage<T>>, k: nat)
    requires k < |read|
  {
    && PageValid(read[k]) && FreshIds(o, read[k].data, {})
    && read[k] == o.load(CursorFrom(start, read, k))
    && (k > 0 ==> CursorFrom(start, read, k).Some?)
  }

  /** The pages of one request: linked, valid, behind distinct cursors and without a repeated id. */
  ghost predicate Trace<T(!new), M(!new)>(o: Options<T, M>, start: Option<string>, read: seq<SourcePage<T>>) {
    && (forall k :: 0 <= k < |read| ==> PageRead(o, start, read, k))
    && (forall j, k :: 0 <= j < k < |read| ==> CursorFrom(start, read, j) != CursorFrom(start, read, k))
    && (forall j, k :: 0 <= j < k < |read| ==> IdSet(o, read[j].data) !! IdSet(o, read[k].data))
  }

  function AllMatching<T(!new), M(!new)>(o: Options<T, M>, read: seq<SourcePage<T>>): seq<T> {
    if read == [] then [] else AllMatching(o, read[..|read| - 1]) + Matching(o, read[|read| - 1])
  }

  function Skip(state: CursorState): nat {
    if state.legacyOffset.Some? then state.legacyOffset.value else state.matchOffset
  }

  /** The continuation after a full answer that left `unread` matches of the last page. */
  function Continuation<T(!new), M(!new)>(
    o: Options<T, M>, start: Option<string>, read: seq<SourcePage<T>>, unread: nat): Result<Wire>
    requires read != [] && unread <= |Matching(o, read[|read| - 1])|
  {
    var last := read[|read| - 1];
    if unread > 0
    then NextCursor(o, CursorFrom(start, read, |read| - 1), |Matching(o, last)| - unread, last.nextCursor.None?)
    else Encode(o, last.nextCursor, 0)
  }

  ghost predicate OffsetFits<T(!new), M(!new)>(o: Options<T, M>, state: CursorState, read: seq<SourcePage<T>>) {
    read != [] && state.legacyOffset.None? ==> state.matchOffset <= |Matching(o, read[0])|
  }

  /** The last page names a further one, behind a cursor that none of the pages read was behind. */
  ghost predicate LeadsOn<T>(start: Option<string>, read: seq<SourcePage<T>>)
    requires read != []
  {
    && read[|read| - 1].nextCursor.Some?
    && forall k :: 0 <= k < |read| ==> CursorFrom(start, read, k) != read[|read| - 1].nextCursor
  }

  /**
   The answer that the pages read justify: the matches of these pages after the skipped ones, cut at the limit.
   Without a continuation the source has ended and nothing is left; with one, the page is full and the
   continuation is the one for the rest, behind a cursor not met before. No page was read beyond the one that
   filled the answer, and the first was long enough for the cursor's offset.
   */
  ghost predicate Justified<T(!new), M(!new)>(
    o: Options<T, M>, state: CursorState, read: seq<SourcePage<T>>, page: Page<M>)
    requires o.limit >= 1
  {
    && read != [] && Trace(o, state.sourceCursor, read) && OffsetFits(o, state, read)
    && var all := AllMatching(o, read);
       && page.items == Map(o.project, Take(Drop(all, Skip(state)), o.limit))
       && page.hasMore == page.nextCursor.Some?
       && (page.nextCursor.None? ==>
             && read[|read| - 1].nextCursor.None? && |all| <= Skip(state) + o.limit
             && (|all| == Skip(state) + o.limit ==> Matching(o, read[|read| - 1]) != []))
       && (page.nextCursor.Some? ==>
             && 0 <= |all| - Skip(state) - o.limit < |Matching(o, read[|read| - 1])|
             && (|all| == Skip(state) + o.limit ==> LeadsOn(state.sourceCursor, read))
             && Continuation(o, state.sourceCursor, read, |all| - Skip(state) - o.limit) == Ok(page.nextCursor.value))
  }

  // ---------- the loop's bookkeeping ----------

  /** The cursors and ids noted are those of the pages read. */
  ghost predicate Noted<T(!new), M(!new)>(
    o: Options<T, M>, start: Option<string>, read: seq<SourcePage<T>>, visited: set<string>, seen: set<string>)
  {
    && (forall k :: 0 <= k < |read| && CursorFrom(start, read, k).Some? ==> CursorFrom(start, read, k).value in visited)
    && (forall c :: c in visited ==> exists k :: 0 <= k < |read| && CursorFrom(start, read, k) == Some(c))
    && (forall k :: 0 <= k < |read| ==> IdSet(o, read[k].data) <= seen)
    && (forall c :: c in seen ==> exists k :: 0 <= k < |read| && c in IdSet(o, read[k].data))
  }

  /** Between pages: what the matches read so far gave. */
  ghost predicate Gathered<T(!new), M(!new)>(
    o: Options<T, M>, state: CursorState, read: seq<SourcePage<T>>, selected: seq<M>, offset: nat, legacy: Option<nat>)
  {
    var all := AllMatching(o, read);
    match legacy
    case Some(n) => state.legacyOffset.Some? && selected == [] && n + |all| == Skip(state)
    case None =>
      if read == [] then selected == [] && state.legacyOffset.None? && offset == state.matchOffset
      else offset == 0 && OffsetFits(o, state, read) && Skip(state) <= |all|
           && selected == Map(o.project, all[Skip(state)..])
  }

  lemma NothingRead<T(!new), M(!new)>(o: Options<T, M>, state: CursorState)
    requires state.legacyOffset.Some? ==> state.matchOffset == 0
    ensures Trace(o, state.sourceCursor, []) && Noted(o, state.sourceCursor, [], {}, {})
    ensures Gathered(o, state, [], [], state.matchOffset, state.legacyOffset)
    ensures CursorFrom<T>(state.sourceCursor, [], 0) == state.sourceCursor
  {
  }

  /** The next page passed every check of the loop. */
  ghost predicate Comes<T(!new), M(!new)>(
    o: Options<T, M>, start: Option<string>, read: seq<SourcePage<T>>, visited: set<string>, seen: set<string>,
    page: SourcePage<T>)
  {
    var cursor := CursorFrom(start, read, |read|);
    && page == o.load(cursor) && PageValid(page) && FreshIds(o, page.data, seen)
    && (cursor.Some? ==> cursor.value !in visited)
  }

  lemma OneMorePage<T(!new), M(!new)>(
    o: Options<T, M>, start: Option<string>, read: seq<SourcePage<T>>, visited: set<string>, seen: set<string>,
    page: SourcePage<T>)
    requires Trace(o, start, read) && Noted(o, start, read, visited, seen) && Comes(o, start, read, visited, seen, page)
    requires read != [] ==> CursorFrom(start, read, |read|).Some?
    ensures var cursor := CursorFrom(start, read, |read|);
            && Trace(o, start, read + [page])
            && Noted(o, start, read + [page], visited + (if cursor.Some? then {cursor.value} else {}),
              seen + IdSet(o, page.data))
    ensures AllMatching(o, read + [page]) == AllMatching(o, read) + Matching(o, page)
    ensures CursorFrom(start, read + [page], |read|) == CursorFrom(start, read, |read|)
    ensures CursorFrom(start, read + [page], |read| + 1) == page.nextCursor
  {
    hide PageValid, IdSet, Noted, Trace, FreshIds;
    assert (read + [page])[..|read|] == read;
    TraceOn(o, start, read, visited, seen, page);
    NotedOn(o, start, read, visited, seen, page);
  }

  lemma TraceOn<T(!new), M(!new)>(
    o: Options<T, M>, start: Option<string>, read: seq<SourcePage<T>>, visited: set<string>, seen: set<string>,
    page: SourcePage<T>)
    requires Trace(o, start, read) && Noted(o, start, read, visited, seen) && Comes(o, start, read, visited, seen, page)
    requires read != [] ==> CursorFrom(start, read, |read|).Some?
    ensures Trace(o, start, read + [page])
  {
    hide PageValid, IdSet;
    var now := read + [page];
    forall k | 0 <= k < |now| ensures CursorFrom(start, now, k) == CursorFrom(start, read, k) {
    }
    assert forall k :: 0 <= k < |read| ==> now[k] == read[k];
    forall k | 0 <= k < |now| ensures PageRead(o, start, now, k) {
      assert k < |read| ==> PageRead(o, start, read, k);
    }
    forall j, k | 0 <= j < k < |now| ensures CursorFrom(start, now, j) != CursorFrom(start, now, k) {
      assert j < |read|;
    }
    forall j, k | 0 <= j < k < |now| ensures IdSet(o, now[j].data) !! IdSet(o, now[k].data) {
      assert now[j] == read[j] && IdSet(o, read[j].data) <= seen;
    }
  }

  lemma NotedOn<T(!new), M(!new)>(
    o: Options<T, M>, start: Option<string>, read: seq<SourcePage<T>>, visited: set<string>, seen: set<string>,
    page: SourcePage<T>)
    requires Noted(o, start, read, visited, seen)
    ensures var cursor := CursorFrom(start, read, |read|);
            Noted(o, start, read + [page], visited + (if cursor.Some? then {cursor.value} else {}),
              seen + IdSet(o, page.data))
  {
    hide IdSet;
    var now := read + [page];
    var cursor := CursorFrom(start, read, |read|);
    forall k | 0 <= k < |now| ensures CursorFrom(start, now, k) == CursorFrom(start, read, k) {
    }
    assert now[|read|] == page && forall k :: 0 <= k < |read| ==> now[k] == read[k];
    forall c | c in visited + (if cursor.Some? then {cursor.value} else {})
      ensures exists k :: 0 <= k < |now| && CursorFrom(start, now, k) == Some(c)
    {
      if c in visited {
        var k :| 0 <= k < |read| && CursorFrom(start, read, k) == Some(c);
        assert CursorFrom(start, now, k) == Some(c);
      } else {
        assert CursorFrom(start, now, |read|) == Some(c);
      }
    }
    forall c | c in seen + IdSet(o, page.data) ensures exists k :: 0 <= k < |now| && c in IdSet(o, now[k].data) {
      if c in seen {
        var k :| 0 <= k < |read| && c in IdSet(o, read[k].data);
        assert c in IdSet(o, now[k].data);
      } else {
        assert c in IdSet(o, now[|read|].data);
      }
    }
  }

  /** A page that a decimal cursor skips whole. */
  lemma SkipsPage<T(!new), M(!new)>(
    o: Options<T, M>, state: CursorState, read: seq<SourcePage<T>>, page: SourcePage<T>, selected: seq<M>, offset: nat,
    n: nat)
    requires Gathered(o, state, read, selected, offset, Some(n)) && n >= |Matching(o, page)|
    requires AllMatching(o, read + [page]) == AllMatching(o, read) + Matching(o, page)
    ensures Gathered(o, state, read + [page], selected, 0, Some(n - |Matching(o, page)|))
  {
  }

  /** Where the page's own matches start to count. */
  function Enters(legacy: Option<nat>, offset: nat): nat {
    if legacy.Some? then legacy.value else offset
  }

  /** After the take: the matches read so far, after the skipped ones and cut at the limit. */
  ghost predicate Filled<T(!new), M(!new)>(
    o: Options<T, M>, state: CursorState, read: seq<SourcePage<T>>, selected: seq<M>, consumed: nat)
    requires o.limit >= 1
  {
    var all := AllMatching(o, read);
    && read != [] && OffsetFits(o, state, read) && Skip(state) <= |all| && |selected| <= o.limit
    && selected == Map(o.project, Take(all[Skip(state)..], o.limit))
    && consumed <= |Matching(o, read[|read| - 1])| && (|selected| == o.limit ==> consumed > 0)
    && |Matching(o, read[|read| - 1])| - consumed == |all| - Skip(state) - |selected|
  }

  lemma Fills<T(!new), M(!new)>(
    o: Options<T, M>, state: CursorState, read: seq<SourcePage<T>>, page: SourcePage<T>,
    selected: seq<M>, offset: nat, legacy: Option<nat>)
    requires o.limit >= 1 && |selected| < o.limit
    requires Gathered(o, state, read, selected, offset, legacy) && Enters(legacy, offset) <= |Matching(o, page)|
    requires AllMatching(o, read + [page]) == AllMatching(o, read) + Matching(o, page)
    ensures var take := Take(Matching(o, page)[Enters(legacy, offset)..], o.limit - |selected|);
            && Filled(o, state, read + [page], selected + Map(o.project, take), Enters(legacy, offset) + |take|)
            && |selected + Map(o.project, take)| <= o.limit && Enters(legacy, offset) + |take| <= |Matching(o, page)|
            && (|selected + Map(o.project, take)| < o.limit ==> Enters(legacy, offset) + |take| == |Matching(o, page)|)
  {
    hide Matching;
    var enters, matching, before := Enters(legacy, offset), Matching(o, page), AllMatching(o, read);
    var all, now := AllMatching(o, read + [page]), read + [page];
    assert now[|now| - 1] == page;
    var counted := if legacy.None? && read != [] then before[Skip(state)..] else [];
    assert all[Skip(state)..] == counted + matching[enters..];
    assert selected == Map(o.project, counted);
    var take := Take(matching[enters..], o.limit - |selected|);
    assert Take(counted + matching[enters..], o.limit) == counted + take;
    assert Map(o.project, counted + take) == Map(o.project, counted) + Map(o.project, take);
  }

  /** A page that did not fill the answer was used up, and the loop goes on from its end. */
  lemma GoesOn<T(!new), M(!new)>(
    o: Options<T, M>, state: CursorState, read: seq<SourcePage<T>>, selected: seq<M>, consumed: nat)
    requires o.limit >= 1 && Filled(o, state, read, selected, consumed) && |selected| < o.limit
    ensures Gathered(o, state, read, selected, 0, None) && consumed == |Matching(o, read[|read| - 1])|
  {
  }

  /** An answer of the shape the loop gives is justified by the pages it read. */
  lemma AnswerJustified<T(!new), M(!new)>(
    o: Options<T, M>, state: CursorState, read: seq<SourcePage<T>>, selected: seq<M>, consumed: nat, page: Page<M>)
    requires o.limit >= 1 && read != [] && Trace(o, state.sourceCursor, read)
          && Filled(o, state, read, selected, consumed)
    requires page.items == selected && page.hasMore == page.nextCursor.Some?
    requires var last := read[|read| - 1];
             && (page.nextCursor.None? ==> last.nextCursor.None? && consumed == |Matching(o, last)|)
             && (page.nextCursor.Some? ==>
                   && |selected| == o.limit && (consumed == |Matching(o, last)| ==> LeadsOn(state.sourceCursor, read))
                   && Continuation(o, state.sourceCursor, read, |Matching(o, last)| - consumed) ==
                     Ok(page.nextCursor.value))
    ensures Justified(o, state, read, page)
  {
    hide Trace, Matching, Continuation;
  }

  /** Running out of pages while still skipping is the empty answer. */
  lemma NothingLeft<T(!new), M(!new)>(
    o: Options<T, M>, state: CursorState, read: seq<SourcePage<T>>, selected: seq<M>, offset: nat, n: nat)
    requires o.limit >= 1 && read != [] && Trace(o, state.sourceCursor, read) && read[|read| - 1].nextCursor.None?
    requires Gathered(o, state, read, selected, offset, Some(n))
    ensures Justified(o, state, read, Page([], None, false))
  {
    hide Trace, Matching;
    assert Take(Drop(AllMatching(o, read), Skip(state)), o.limit) == [];
  }

  // ---------- the answer is determined ----------

  /** Two readings from the same cursor agree as far as the shorter one goes. */
  lemma {:induction false} ReadingsAgree<T(!new), M(!new)>(
    o: Options<T, M>, start: Option<string>, a: seq<SourcePage<T>>, b: seq<SourcePage<T>>, k: nat)
    requires Trace(o, start, a) && Trace(o, start, b) && k <= |a| && k <= |b|
    ensures a[..k] == b[..k]
    ensures k < |b| && k > 0 ==> a[k - 1].nextCursor.Some?
  {
    if k > 0 {
      ReadingsAgree(o, start, a, b, k - 1);
      assert PageRead(o, start, a, k - 1) && PageRead(o, start, b, k - 1);
      assert k > 1 ==> a[k - 2] == a[..k - 1][k - 2] && b[k - 2] == b[..k - 1][k - 2];
      assert a[..k] == a[..k - 1] + [a[k - 1]] && b[..k] == b[..k - 1] + [b[k - 1]];
      if k < |b| {
        assert PageRead(o, start, b, k);
      }
    }
  }

  lemma {:induction false} AllGrows<T(!new), M(!new)>(o: Options<T, M>, read: seq<SourcePage<T>>, k: nat)
    requires k <= |read|
    ensures |AllMatching(o, read[..k])| <= |AllMatching(o, read)|
  {
    if k < |read| {
      assert read[..|read| - 1][..k] == read[..k];
      AllGrows(o, read[..|read| - 1], k);
    } else {
      assert read[..k] == read;
    }
  }

  /** A request that stopped did so at the only page where it could. */
  lemma NoLongerReading<T(!new), M(!new)>(
    o: Options<T, M>, state: CursorState, a: seq<SourcePage<T>>, b: seq<SourcePage<T>>, pageA: Page<M>, pageB: Page<M>)
    requires o.limit >= 1 && Justified(o, state, a, pageA) && Justified(o, state, b, pageB)
    ensures |a| >= |b|
  {
    hide Trace, Matching, Continuation, Map, PageRead;
    if |a| < |b| {
      ReadingsAgree(o, state.sourceCursor, a, b, |a|);
      assert a[..|a|] == a;
      var rest := b[..|b| - 1];
      assert rest[..|a|] == a;
      AllGrows(o, rest, |a|);
    }
  }

  /** So a source and a cursor have at most one justified answer. */
  lemma AnswerUnique<T(!new), M(!new)>(
    o: Options<T, M>, state: CursorState, a: seq<SourcePage<T>>, b: seq<SourcePage<T>>, pageA: Page<M>, pageB: Page<M>)
    requires o.limit >= 1 && Justified(o, state, a, pageA) && Justified(o, state, b, pageB)
    ensures pageA == pageB
  {
    hide Trace, Matching, Continuation, Map, PageRead;
    NoLongerReading(o, state, a, b, pageA, pageB);
    NoLongerReading(o, state, b, a, pageB, pageA);
    ReadingsAgree(o, state.sourceCursor, a, b, |a|);
    assert a[..|a|] == a && b[..|b|] == b;
  }

  // ---------- a justified answer is found ----------

  /** The pages read so far do not fill the answer, and there is more to read. */
  ghost predicate Unfinished<T(!new), M(!new)>(o: Options<T, M>, state: CursorState, read: seq<SourcePage<T>>) {
    read == [] || (read[|read| - 1].nextCursor.Some? && |AllMatching(o, read)| < Skip(state) + o.limit)
  }

  lemma GatheredUnfinished<T(!new), M(!new)>(
    o: Options<T, M>, state: CursorState, read: seq<SourcePage<T>>, selected: seq<M>, offset: nat, legacy: Option<nat>)
    requires o.limit >= 1 && Gathered(o, state, read, selected, offset, legacy) && |selected| < o.limit
    requires read != [] ==> read[|read| - 1].nextCursor.Some?
    ensures Unfinished(o, state, read)
  {
  }

  /** A justified reading goes on where the answer is not filled. */
  lemma GoesFurther<T(!new), M(!new)>(
    o: Options<T, M>, state: CursorState, read: seq<SourcePage<T>>, goal: seq<SourcePage<T>>, page: Page<M>)
    requires o.limit >= 1 && Trace(o, state.sourceCursor, read) && Unfinished(o, state, read)
          && Justified(o, state, goal, page)
    ensures |read| < |goal| && goal[..|read|] == read
  {
    hide Trace, Matching, Continuation, Map, PageRead, OffsetFits, LeadsOn;
    var n := if |goal| <= |read| then |goal| else |read|;
    ReadingsAgree(o, state.sourceCursor, read, goal, n);
    ReadingsAgree(o, state.sourceCursor, goal, read, n);
    assert read[..|read|] == read && goal[..|goal|] == goal;
    if |goal| <= |read| {
      AllGrows(o, read, |goal|);
    }
  }

  /** The next page of a justified reading trips none of the loop's checks. */
  lemma GoalComes<T(!new), M(!new)>(
    o: Options<T, M>, state: CursorState, read: seq<SourcePage<T>>, visited: set<string>, seen: set<string>,
    goal: seq<SourcePage<T>>, page: Page<M>)
    requires o.limit >= 1 && Trace(o, state.sourceCursor, read) && Noted(o, state.sourceCursor, read, visited, seen)
    requires Unfinished(o, state, read) && Justified(o, state, goal, page)
    ensures |read| < |goal| && goal[..|read|] == read
         && goal[|read|] == o.load(CursorFrom(state.sourceCursor, read, |read|))
    ensures Comes(o, state.sourceCursor, read, visited, seen, goal[|read|])
  {
    GoesFurther(o, state, read, goal, page);
    hide Justified, Unfinished, PageValid, IdSet, AllMatching;
    var start, next := state.sourceCursor, goal[|read|];
    assert PageRead(o, start, goal, |read|);
    assert forall k :: 0 <= k < |read| ==> goal[k] == read[k];
    forall k | 0 <= k <= |read| ensures CursorFrom(start, goal, k) == CursorFrom(start, read, k) {
    }
    forall c | c in seen ensures c !in IdSet(o, next.data) {
      var k :| 0 <= k < |read| && c in IdSet(o, read[k].data);
      assert IdSet(o, goal[k].data) !! IdSet(o, next.data);
    }
    var cursor := CursorFrom(start, read, |read|);
    assert forall k :: 0 <= k < |read| ==> CursorFrom(start, goal, k) != CursorFrom(start, goal, |read|);
  }

  /** Before its last page a justified reading had not filled the answer. */
  lemma NotYet<T(!new), M(!new)>(o: Options<T, M>, state: CursorState, goal: seq<SourcePage<T>>, page: Page<M>, k: nat)
    requires o.limit >= 1 && Justified(o, state, goal, page) && k < |goal|
    ensures |AllMatching(o, goal[..k])| < Skip(state) + o.limit
  {
    hide Trace, Matching, Continuation, Map, OffsetFits, LeadsOn;
    AllGrows(o, goal[..|goal| - 1], k);
    assert goal[..|goal| - 1][..k] == goal[..k];
  }

  /** Nor had a reading that filled it with its last page. */
  lemma FilledLast<T(!new), M(!new)>(
    o: Options<T, M>, state: CursorState, read: seq<SourcePage<T>>, selected: seq<M>, consumed: nat, k: nat)
    requires o.limit >= 1 && Filled(o, state, read, selected, consumed) && |selected| == o.limit && k < |read|
    ensures |AllMatching(o, read[..k])| < Skip(state) + o.limit <= |AllMatching(o, read)|
  {
    hide Matching, Map, OffsetFits;
    AllGrows(o, read[..|read| - 1], k);
    assert read[..|read| - 1][..k] == read[..k];
  }

  /** Where the answer is filled the justified reading stops. */
  lemma GoalStops<T(!new), M(!new)>(
    o: Options<T, M>, state: CursorState, read: seq<SourcePage<T>>, selected: seq<M>, consumed: nat,
    goal: seq<SourcePage<T>>, page: Page<M>)
    requires o.limit >= 1 && Trace(o, state.sourceCursor, read) && Filled(o, state, read, selected, consumed)
    requires |selected| == o.limit && Justified(o, state, goal, page)
    ensures goal == read
  {
    hide Trace, AllMatching, Matching, Continuation, Map, OffsetFits, LeadsOn;
    var n := if |goal| <= |read| then |goal| else |read|;
    ReadingsAgree(o, state.sourceCursor, goal, read, n);
    assert read[..|read|] == read && goal[..|goal|] == goal;
    if |goal| < |read| {
      FilledLast(o, state, read, selected, consumed, |goal|);
      JustifiedOpen(o, state, goal, page);
    } else if |read| < |goal| {
      FilledLast(o, state, read, selected, consumed, 0);
      NotYet(o, state, goal, page, |read|);
    }
  }

  /** A justified answer that the reading did not fill ends the source. */
  lemma JustifiedOpen<T(!new), M(!new)>(o: Options<T, M>, state: CursorState, goal: seq<SourcePage<T>>, page: Page<M>)
    requires o.limit >= 1 && Justified(o, state, goal, page) && |AllMatching(o, goal)| < Skip(state) + o.limit
    ensures goal != [] && goal[|goal| - 1].nextCursor.None?
  {
    hide Trace, Matching, Continuation, Map, OffsetFits, LeadsOn;
  }
}
