/**
 What a filtered reading accepts from a client and from its source, and that its own cursors come back as they went.
 */
module FilteredChecks {
  import opened Outcomes
  import opened FilteredSource

  /** A source's cursor is a text of up to two hundred characters; none stands for the start. */
  predicate SourceCursor(cursor: Option<string>) {
    cursor.Some? ==> 0 < |cursor.value| < 201
  }

  /** A client's cursor is none, a safe decimal offset, or a first-version record of a source cursor and a place. */
  lemma CursorAnswers(cursor: Option<Wire>)
    ensures var answer := Decode(cursor);
            && (answer.Err? ==> answer == Err(InvalidArgument))
            && (answer.Ok? <==>
                  || cursor == None
                  || (cursor.value.Decimal? && cursor.value.offset < 0x20_0000_0000_0000)
                  || (cursor.value.Opaque? && cursor.value.version == 1 && !cursor.value.extraKeys
                      && SourceCursor(cursor.value.sourceCursor) && 0 <= cursor.value.matchOffset < 201))
            && (answer.Ok? ==>
                  answer.value == match cursor
                                  case None => CursorState(None, 0, None)
                                  case Some(Decimal(n)) => CursorState(None, 0, Some(n))
                                  case Some(Opaque(_, source, m, _)) =>
                                    CursorState(source, if m < 0 then 0 else m, None)
                                  case Some(Malformed) => CursorState(None, 0, None))
  {
  }

  /**
   A continuation is refused only where its record is too long; where it is given, it comes back as the place it was
   made for: a bare offset where one page holds everything, or else the page's cursor and the place in the page.
   */
  lemma ContinuationComesBack<T(!new), M(!new)>(
    o: Options<T, M>, source: Option<string>, offset: nat, sourceExhausted: bool)
    requires SourceCursor(source) && offset < 201
    ensures var next := NextCursor(o, source, offset, sourceExhausted);
            var bare := sourceExhausted && source == None;
            && (next.Ok? <==> bare || o.fits(source, offset))
            && (next.Err? ==> next == Err(BackendError))
            && (next.Ok? && bare ==> Decode(Some(next.value)) == Ok(CursorState(None, 0, Some(offset))))
            && (next.Ok? && !bare ==> Decode(Some(next.value)) == Ok(CursorState(source, offset, None)))
            && Encode(o, source, offset) == NextCursor(o, source, offset, false)
  {
  }

  /**
   A source page is accepted if and only if it is no longer than its limit of at most two hundred, its cursor is usable,
   and its total, where it states one, is its length, or more than that if a page follows. A full page of two hundred
   that ends the source must state it.
   */
  lemma PageAnswers<T>(page: SourcePage<T>)
    ensures PageValid(page) <==>
              && 0 < page.limit < 201 && |page.data| <= page.limit && SourceCursor(page.nextCursor)
              && (match page.total
                  case None => page.nextCursor.Some? || |page.data| < 200
                  case Some(total) =>
                    total < 0x20_0000_0000_0000
                    && if page.nextCursor == None then total == |page.data| else |page.data| < total)
  {
  }

  /** A source of more than a thousand pages is not served. */
  lemma AtMostAThousand<T(!new), M(!new)>(o: Options<T, M>, pages: seq<SourcePage<T>>)
    requires Serves(o, pages)
    ensures 0 < |pages| < 1001
  {
  }

  /** A page may carry no id that was seen before, and none twice; rows without an id do not matter. */
  lemma FreshIdsIff<T(!new), M(!new)>(o: Options<T, M>, data: seq<T>, seen: set<string>)
    ensures FreshIds(o, data, seen) <==>
              forall x :: 0 <= x < |data| && o.id(data[x]).Some? ==>
                && o.id(data[x]).value !in seen
                && forall y :: 0 <= y < |data| && y != x ==> o.id(data[y]) != o.id(data[x])
  {
    if FreshIds(o, data, seen) {
      forall x | 0 <= x < |data| && o.id(data[x]).Some? ensures o.id(data[x]).value !in seen {
        assert o.id(data[x]).value in IdSet(o, data);
      }
    }
  }
}
