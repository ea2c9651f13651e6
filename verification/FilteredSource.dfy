/** A source read in pages behind opaque cursors, the cursors of its filtered view, and what is left to read at one. */
module FilteredSource {
  import opened Outcomes

  const FILTERED_SOURCE_PAGE_LIMIT := 200
  const MAX_FILTERED_SOURCE_PAGES := 1000
  const MAX_SAFE_INTEGER := 0x1F_FFFF_FFFF_FFFF

  datatype SourcePage<T> = SourcePage(data: seq<T>, limit: int, nextCursor: Option<string>, total: Option<int>)

  datatype Page<M> = Page(items: seq<M>, nextCursor: Option<Wire>, hasMore: bool)

  /** A cursor as the client holds it: a decimal offset, the decoded JSON record, or anything else. */
  datatype Wire =
    | Decimal(offset: nat)
    | Opaque(version: int, sourceCursor: Option<string>, matchOffset: int, extraKeys: bool)
    | Malformed

  datatype CursorState = CursorState(sourceCursor: Option<string>, matchOffset: nat, legacyOffset: Option<nat>)

  /** `fits` says that the encoded form of an opaque state stays within 512 characters. */
  datatype Options<!T(!new), !M(!new)> = Options(
    limit: int,
    load: Option<string> -> SourcePage<T>,
    matches: T -> bool,
    project: T -> M,
    id: T -> Option<string>,
    fits: (Option<string>, nat) -> bool)

  predicate IsSafe(n: int) {
    -MAX_SAFE_INTEGER <= n <= MAX_SAFE_INTEGER
  }

  predicate ValidSourceCursor(cursor: string) {
    1 <= |cursor| <= 200
  }

  function Decode(cursor: Option<Wire>): Result<CursorState> {
    match cursor
    case None => Ok(CursorState(None, 0, None))
    case Some(Decimal(offset)) =>
      if IsSafe(offset) then Ok(CursorState(None, 0, Some(offset))) else Err(InvalidArgument)
    case Some(Opaque(version, source, offset, extra)) =>
      if version != 1 || (source.Some? && !ValidSourceCursor(source.value))
         || !(0 <= offset <= FILTERED_SOURCE_PAGE_LIMIT) || extra
      then Err(InvalidArgument)
      else Ok(CursorState(source, offset, None))
    case Some(Malformed) => Err(InvalidArgument)
  }

  function Encode<T(!new), M(!new)>(o: Options<T, M>, source: Option<string>, offset: nat): Result<Wire> {
    if o.fits(source, offset) then Ok(Opaque(1, source, offset, false)) else Err(BackendError)
  }

  /** `nextFilteredCursor`: the compact decimal form only where one source page holds everything. */
  function NextCursor<T(!new), M(!new)>(
    o: Options<T, M>, source: Option<string>, offset: nat, sourceExhausted: bool): Result<Wire>
  {
    if sourceExhausted && source.None? then Ok(Decimal(offset)) else Encode(o, source, offset)
  }

  /** `validateFilteredSourcePage` */
  predicate PageValid<T>(page: SourcePage<T>) {
    && 1 <= page.limit <= FILTERED_SOURCE_PAGE_LIMIT
    && |page.data| <= page.limit
    && (page.total.Some? ==> IsSafe(page.total.value) && |page.data| <= page.total.value)
    && (page.nextCursor.Some? ==> ValidSourceCursor(page.nextCursor.value))
    && (page.nextCursor.Some? && page.total.Some? ==> |page.data| < page.total.value)
    && (page.nextCursor.None? && page.total.Some? ==> |page.data| == page.total.value)
    && (page.nextCursor.None? && |page.data| >= FILTERED_SOURCE_PAGE_LIMIT ==> page.total.Some?)
  }

  function Filter<T>(matches: T -> bool, data: seq<T>): (kept: seq<T>)
    ensures |kept| <= |data|
  {
    if data == [] then []
    else Filter(matches, data[..|data| - 1]) + if matches(data[|data| - 1]) then [data[|data| - 1]] else []
  }

  function Map<T, M>(project: T -> M, data: seq<T>): (mapped: seq<M>)
    ensures |mapped| == |data|
    ensures forall i :: 0 <= i < |data| ==> mapped[i] == project(data[i])
  {
    seq(|data|, i requires 0 <= i < |data| => project(data[i]))
  }

  // ---------- a well-formed, unchanging source ----------

  function IdSet<T(!new), M(!new)>(o: Options<T, M>, data: seq<T>): set<string> {
    set n | 0 <= n < |data| && o.id(data[n]).Some? :: o.id(data[n]).value
  }

  ghost predicate FreshIds<T(!new), M(!new)>(o: Options<T, M>, data: seq<T>, seen: set<string>) {
    && IdSet(o, data) !! seen
    && (forall x, y :: 0 <= x < y < |data| && o.id(data[x]).Some? ==> o.id(data[x]) != o.id(data[y]))
  }

  /** The cursor behind which page k of a reading is kept; a reading of the whole source starts without one. */
  function CursorFrom<T>(start: Option<string>, pages: seq<SourcePage<T>>, k: nat): Option<string>
    requires k <= |pages|
  {
    if k == 0 then start else pages[k - 1].nextCursor
  }

  /**
   The pages a reader of the source meets: each valid, behind distinct cursors, with ids never repeated, at most
   a thousand of them, and with every continuation short enough to encode.
   */
  ghost predicate Serves<T(!new), M(!new)>(o: Options<T, M>, pages: seq<SourcePage<T>>) {
    && 1 <= |pages| <= MAX_FILTERED_SOURCE_PAGES
    && (forall k :: 0 <= k < |pages| ==> PageValid(pages[k]) && o.load(CursorFrom(None, pages, k)) == pages[k])
    && (forall k :: 0 <= k < |pages| ==> (pages[k].nextCursor.None? <==> k == |pages| - 1))
    && (forall j, k :: 0 <= j < k < |pages| ==> CursorFrom(None, pages, j) != CursorFrom(None, pages, k))
    && (forall k :: 0 <= k < |pages| ==> FreshIds(o, pages[k].data, {}))
    && (forall j, k :: 0 <= j < k < |pages| ==> IdSet(o, pages[j].data) !! IdSet(o, pages[k].data))
    && (forall k, m :: 0 <= k < |pages| && 0 <= m <= FILTERED_SOURCE_PAGE_LIMIT ==>
      o.fits(CursorFrom(None, pages, k), m))
  }

  function Matching<T(!new), M(!new)>(o: Options<T, M>, page: SourcePage<T>): seq<T> {
    Filter(o.matches, page.data)
  }

  /** The filtered view from page k on. */
  function From<T(!new), M(!new)>(o: Options<T, M>, pages: seq<SourcePage<T>>, k: nat): seq<T>
    requires k <= |pages|
    decreases |pages| - k
  {
    if k == |pages| then [] else Matching(o, pages[k]) + From(o, pages, k + 1)
  }

  function Drop<T>(s: seq<T>, n: nat): seq<T> {
    if n <= |s| then s[n..] else []
  }

  function Take<T>(s: seq<T>, n: nat): seq<T> {
    if n <= |s| then s[..n] else s
  }

  /** What is left to read at a cursor. */
  ghost predicate Points<T(!new), M(!new)>(
    o: Options<T, M>, pages: seq<SourcePage<T>>, cursor: Option<Wire>, rest: seq<T>)
  {
    match cursor
    case None => rest == From(o, pages, 0)
    case Some(Decimal(n)) => IsSafe(n) && rest == Drop(From(o, pages, 0), n)
    case Some(Opaque(version, source, m, extra)) =>
      version == 1 && !extra && exists k :: PointsInto(o, pages, k, source, m, rest)
    case Some(Malformed) => false
  }

  ghost predicate PointsInto<T(!new), M(!new)>(
    o: Options<T, M>, pages: seq<SourcePage<T>>, k: nat, source: Option<string>, m: int, rest: seq<T>)
  {
    && k < |pages| && source == CursorFrom(None, pages, k)
    && 0 <= m <= |Matching(o, pages[k])|
    && rest == Matching(o, pages[k])[m..] + From(o, pages, k + 1)
  }

  /** The right answer when `rest` is left to read. */
  ghost predicate Answers<T(!new), M(!new)>(o: Options<T, M>, pages: seq<SourcePage<T>>, rest: seq<T>, page: Page<M>)
    requires o.limit >= 1
  {
    && page.items == Map(o.project, Take(rest, o.limit))
    && page.hasMore == page.nextCursor.Some?
    && (page.nextCursor.Some? ==> |rest| >= o.limit && Points(o, pages, page.nextCursor, rest[o.limit..]))
    && (page.nextCursor.None? ==> |rest| <= o.limit)
  }
}
