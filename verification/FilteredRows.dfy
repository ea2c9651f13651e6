/**
 Which rows of a source a filtered reading gives, by page and row: the matching ones, all of them, in reading order.
 */
module FilteredRows {
  import opened FilteredSource
  import opened FilteredAnswers

  /** The rows at these indices are the kept ones: indices rise, rows match, and every matching row is among them. */
  ghost predicate KeptAt<T>(matches: T -> bool, data: seq<T>, kept: seq<T>, at: seq<nat>) {
    && |at| == |kept|
    && (forall i :: 0 <= i < |at| ==> at[i] < |data| && kept[i] == data[at[i]] && matches(data[at[i]]))
    && (forall i, j :: 0 <= i < j < |at| ==> at[i] < at[j])
    && (forall n :: 0 <= n < |data| && matches(data[n]) ==> n in at)
  }

  lemma KeptNext<T>(matches: T -> bool, rest: seq<T>, last: T, kept: seq<T>, at: seq<nat>)
    requires KeptAt(matches, rest, kept, at)
    ensures matches(last) ==> KeptAt(matches, rest + [last], kept + [last], at + [|rest|])
    ensures !matches(last) ==> KeptAt(matches, rest + [last], kept, at)
  {
    var data := rest + [last];
    if matches(last) {
      var all := at + [|rest|];
      forall n | 0 <= n < |data| && matches(data[n]) ensures n in all {
        if n < |rest| {
          assert n in at;
        } else {
          assert all[|at|] == n;
        }
      }
    }
  }

  lemma FilterNext<T>(matches: T -> bool, rest: seq<T>, last: T)
    ensures Filter(matches, rest + [last]) ==
            if matches(last) then Filter(matches, rest) + [last] else Filter(matches, rest)
  {
    assert (rest + [last])[..|rest|] == rest;
    assert Filter(matches, rest) + [] == Filter(matches, rest);
  }

  lemma NothingKept<T>(matches: T -> bool)
    ensures KeptAt(matches, [], Filter(matches, []), [])
  {
  }

  /** What a filter keeps: strictly increasing positions, matching rows only, and every one of them. */
  lemma {:induction false} FilterSelects<T>(matches: T -> bool, data: seq<T>) returns (at: seq<nat>)
    ensures KeptAt(matches, data, Filter(matches, data), at)
  {
    hide Filter, KeptAt;
    at := [];
    if data == [] {
      NothingKept(matches);
    } else {
      var rest, last := data[..|data| - 1], data[|data| - 1];
      at := FilterSelects(matches, rest);
      KeptNext(matches, rest, last, Filter(matches, rest), at);
      FilterNext(matches, rest, last);
      assert data == rest + [last];
      if matches(last) {
        at := at + [|rest|];
      }
    }
  }

  datatype Position = Position(page: nat, row: nat)

  predicate Precedes(a: Position, b: Position) {
    a.page < b.page || (a.page == b.page && a.row < b.row)
  }

  predicate Inside<T>(pages: seq<SourcePage<T>>, p: Position) {
    p.page < |pages| && p.row < |pages[p.page].data|
  }

  function RowAt<T>(pages: seq<SourcePage<T>>, p: Position): T
    requires Inside(pages, p)
  {
    pages[p.page].data[p.row]
  }

  /** Exactly the positions of matching rows from page k on, in reading order. */
  ghost predicate Selects<T(!new)>(matches: T -> bool, pages: seq<SourcePage<T>>, k: nat, at: seq<Position>) {
    && (forall i :: 0 <= i < |at| ==> Inside(pages, at[i]) && at[i].page >= k && matches(RowAt(pages, at[i])))
    && (forall i, j :: 0 <= i < j < |at| ==> Precedes(at[i], at[j]))
    && (forall p :: Inside(pages, p) && p.page >= k && matches(RowAt(pages, p)) ==> p in at)
  }

  /** Those of page k alone. */
  ghost predicate SelectsOn<T(!new)>(matches: T -> bool, pages: seq<SourcePage<T>>, k: nat, mine: seq<Position>) {
    && (forall i :: 0 <= i < |mine| ==> Inside(pages, mine[i]) && mine[i].page == k && matches(RowAt(pages, mine[i])))
    && (forall i, j :: 0 <= i < j < |mine| ==> Precedes(mine[i], mine[j]))
    && (forall p :: Inside(pages, p) && p.page == k && matches(RowAt(pages, p)) ==> p in mine)
  }

  lemma OnPage<T(!new)>(matches: T -> bool, pages: seq<SourcePage<T>>, k: nat, kept: seq<T>, here: seq<nat>)
    returns (mine: seq<Position>)
    requires k < |pages| && KeptAt(matches, pages[k].data, kept, here)
    ensures SelectsOn(matches, pages, k, mine) && |mine| == |kept|
    ensures forall i :: 0 <= i < |mine| ==> Inside(pages, mine[i]) && RowAt(pages, mine[i]) == kept[i]
  {
    mine := seq(|here|, i requires 0 <= i < |here| => Position(k, here[i]));
    forall p | Inside(pages, p) && p.page == k && matches(RowAt(pages, p)) ensures p in mine {
      var i :| 0 <= i < |here| && here[i] == p.row;
      assert mine[i] == p;
    }
  }

  lemma Joined<T(!new)>(
    matches: T -> bool, pages: seq<SourcePage<T>>, k: nat, mine: seq<Position>, later: seq<Position>)
    requires SelectsOn(matches, pages, k, mine) && Selects(matches, pages, k + 1, later)
    ensures Selects(matches, pages, k, mine + later)
  {
    hide Inside, RowAt;
  }

  /** The filtered view is what these positions hold. */
  lemma {:induction false} FromSelects<T(!new), M(!new)>(o: Options<T, M>, pages: seq<SourcePage<T>>, k: nat)
    returns (at: seq<Position>)
    requires k <= |pages|
    ensures Selects(o.matches, pages, k, at) && |at| == |From(o, pages, k)|
    ensures forall i :: 0 <= i < |at| ==> Inside(pages, at[i]) && From(o, pages, k)[i] == RowAt(pages, at[i])
    decreases |pages| - k
  {
    at := [];
    if k < |pages| {
      hide Selects, SelectsOn, KeptAt, Filter;
      var here := FilterSelects(o.matches, pages[k].data);
      var mine := OnPage(o.matches, pages, k, Matching(o, pages[k]), here);
      RowsOn(o.matches, pages, k, mine);
      var later := FromSelects(o, pages, k + 1);
      Joined(o.matches, pages, k, mine, later);
      at := mine + later;
    }
  }

  lemma RowsOn<T(!new)>(matches: T -> bool, pages: seq<SourcePage<T>>, k: nat, mine: seq<Position>)
    requires SelectsOn(matches, pages, k, mine)
    ensures forall i :: 0 <= i < |mine| ==> Inside(pages, mine[i])
  {
  }

  // ---------- the answers of a whole reading ----------

  /** How many rows the first p answers hold. */
  function Before<M>(chain: seq<Page<M>>, p: nat): nat
    requires p <= |chain|
  {
    if p == 0 then 0 else Before(chain, p - 1) + |chain[p - 1].items|
  }

  /** Item q of answer p is the projection of the row whose turn it is. */
  ghost predicate DeliveredAt<T(!new), M(!new)>(
    o: Options<T, M>, pages: seq<SourcePage<T>>, at: seq<Position>, chain: seq<Page<M>>, p: nat, q: nat)
    requires p < |chain| && q < |chain[p].items|
  {
    var n := Before(chain, p) + q;
    n < |at| && Inside(pages, at[n]) && chain[p].items[q] == o.project(RowAt(pages, at[n]))
  }

  /** Answer by answer, the selected rows projected, one after another and none left out. */
  ghost predicate Delivers<T(!new), M(!new)>(
    o: Options<T, M>, pages: seq<SourcePage<T>>, at: seq<Position>, chain: seq<Page<M>>)
  {
    && |at| == Before(chain, |chain|)
    && forall p: nat, q: nat :: p < |chain| && q < |chain[p].items| ==> DeliveredAt(o, pages, at, chain, p, q)
  }

  lemma {:induction false} ItemsBefore<M>(chain: seq<Page<M>>, n: nat)
    requires n <= |chain|
    ensures |Items(chain[..n])| == Before(chain, n) && Items(chain[..n]) <= Items(chain)
    decreases |chain|, n
  {
    if n > 0 {
      ItemsBefore(chain, n - 1);
      assert chain[..n][..n - 1] == chain[..n - 1];
    } else {
      assert chain[..0] == [];
    }
    if n < |chain| {
      var front := chain[..|chain| - 1];
      ItemsBefore(front, n);
      assert front[..n] == chain[..n];
    } else {
      assert chain[..n] == chain;
    }
  }

  lemma ItemAt<M>(chain: seq<Page<M>>, p: nat, q: nat)
    requires p < |chain| && q < |chain[p].items|
    ensures Before(chain, p) + q < |Items(chain)| && Items(chain)[Before(chain, p) + q] == chain[p].items[q]
  {
    ItemsBefore(chain, p);
    ItemsBefore(chain, p + 1);
    assert chain[..p + 1][..p] == chain[..p];
    assert Items(chain[..p + 1]) == Items(chain[..p]) + chain[p].items;
  }

  lemma ChainDelivers<T(!new), M(!new)>(o: Options<T, M>, pages: seq<SourcePage<T>>, chain: seq<Page<M>>)
    returns (at: seq<Position>)
    requires Items(chain) == Map(o.project, From(o, pages, 0))
    ensures Selects(o.matches, pages, 0, at) && Delivers(o, pages, at, chain)
  {
    hide Selects, From, Items, Before, Delivers;
    at := FromSelects(o, pages, 0);
    RowsInside(o, pages, at);
    AllBefore(chain);
    forall p: nat, q: nat | p < |chain| && q < |chain[p].items| ensures DeliveredAt(o, pages, at, chain, p, q) {
      ItemAt(chain, p, q);
    }
    Delivered(o, pages, at, chain);
  }

  lemma AllBefore<M>(chain: seq<Page<M>>)
    ensures |Items(chain)| == Before(chain, |chain|)
  {
    hide Items, Before;
    ItemsBefore(chain, |chain|);
    assert chain[..|chain|] == chain;
  }

  lemma Delivered<T(!new), M(!new)>(
    o: Options<T, M>, pages: seq<SourcePage<T>>, at: seq<Position>, chain: seq<Page<M>>)
    requires |at| == Before(chain, |chain|)
    requires forall p: nat, q: nat :: p < |chain| && q < |chain[p].items| ==> DeliveredAt(o, pages, at, chain, p, q)
    ensures Delivers(o, pages, at, chain)
  {
    hide DeliveredAt, Before;
  }

  lemma RowsInside<T(!new), M(!new)>(o: Options<T, M>, pages: seq<SourcePage<T>>, at: seq<Position>)
    requires Selects(o.matches, pages, 0, at)
    ensures forall i :: 0 <= i < |at| ==> Inside(pages, at[i])
  {
  }
}
