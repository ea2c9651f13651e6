/**
 What archiving and removing a project leave behind: for each item the log entries, the stock given back and the ended
 reservations, read off the project's active reservations as they stood before, in insertion order.
 */
module Closings {
  import opened Outcomes
  import opened Tables
  import opened LedgerModel
  import opened LedgerInvariant
  import opened LedgerArchive

  /** An active reservation of the item, on a line of a revision of the project. */
  predicate Owes(s: State, id: Id, projectId: Id, itemId: Id) {
    && id in s.reservations && s.reservations[id].status == Active && s.reservations[id].itemId == itemId
    && s.reservations[id].lineId in s.lines
    && s.lines[s.reservations[id].lineId].revisionId in s.revisions
    && s.revisions[s.lines[s.reservations[id].lineId].revisionId].projectId == projectId
  }

  /** The places, in order, of those reservations among the first k keys of the table. */
  ghost predicate Places(s: State, projectId: Id, itemId: Id, k: nat, at: seq<int>)
    requires k <= |s.order|
  {
    && (forall n :: 0 <= n < |at| ==> 0 <= at[n] < k && Owes(s, s.order[at[n]], projectId, itemId))
    && (forall m, n :: 0 <= m < n < |at| ==> at[m] < at[n])
    && (forall j :: 0 <= j < k && Owes(s, s.order[j], projectId, itemId) ==> j in at)
  }

  /** The log grew by one release per place, with the reservation's quantity and id and the item's next versions. */
  ghost predicate LogsReleases(s: State, itemId: Id, at: seq<int>, log: seq<StockEvent>) {
    var before := EventsOf(s.stock, itemId);
    && |log| == |before| + |at| && log[..|before|] == before
    && forall n :: 0 <= n < |at| ==>
         && itemId in s.stock.items && 0 <= at[n] < |s.order| && s.order[at[n]] in s.reservations
         && log[|before| + n] == StockEvent(Release, s.reservations[s.order[at[n]]].quantity,
              s.stock.items[itemId].version + 1 + n, Some(s.order[at[n]]))
  }

  function QuantityAt(s: State, j: int): real {
    if 0 <= j < |s.order| && s.order[j] in s.reservations then s.reservations[s.order[j]].quantity else 0.0
  }

  function Quantities(s: State, at: seq<int>): seq<real> {
    seq(|at|, n requires 0 <= n < |at| => QuantityAt(s, at[n]))
  }

  /** What the two loops have done to one item after the reservations at these places. */
  ghost predicate GaveBack(s: State, itemId: Id, at: seq<int>, t: State) {
    && (itemId in t.stock.items <==> itemId in s.stock.items)
    && (itemId in s.stock.items ==>
          var item := s.stock.items[itemId];
          t.stock.items[itemId] ==
            item.(available := item.available + Total(Quantities(s, at)), version := item.version + |at|))
  }

  // ---------- one reservation more ----------

  lemma PlacesNext(s: State, projectId: Id, itemId: Id, k: nat, at: seq<int>)
    requires k < |s.order| && Places(s, projectId, itemId, k, at)
    ensures Places(s, projectId, itemId, k + 1, if Owes(s, s.order[k], projectId, itemId) then at + [k] else at)
  {
    hide Owes;
    if Owes(s, s.order[k], projectId, itemId) {
      forall j | 0 <= j < k + 1 && Owes(s, s.order[j], projectId, itemId) ensures j in at + [k] {
        if j < k {
          assert j in at;
        } else {
          assert (at + [k])[|at|] == k;
        }
      }
    }
  }

  lemma ActiveOfNext(s: State, projectId: Id, k: nat)
    requires k < |s.order|
    ensures ActiveOf(s, s.order[..k + 1], projectId) ==
            ActiveOf(s, s.order[..k], projectId) + if ActiveIn(s, s.order[k], projectId) then [s.order[k]] else []
  {
    assert s.order[..k + 1][..k] == s.order[..k];
  }

  lemma ReleaseAllNext(s: State, ids: seq<Id>, id: Id)
    ensures ReleaseAll(s, ids + [id]) == ReleaseLogged(ReleaseAll(s, ids), id)
  {
    assert (ids + [id])[..|ids|] == ids;
  }

  /** What one turn of the loop does to an item, where the item of the reservation exists. */
  lemma TurnLogs(t: State, id: Id, itemId: Id)
    requires id in t.reservations && t.reservations[id].itemId in t.stock.items
    ensures var u, r := ReleaseLogged(t, id), t.reservations[id];
            && u.stock.items.Keys == t.stock.items.Keys
            && (itemId != r.itemId ==> EventsOf(u.stock, itemId) == EventsOf(t.stock, itemId))
            && (itemId != r.itemId && itemId in t.stock.items ==> u.stock.items[itemId] == t.stock.items[itemId])
            && (itemId == r.itemId ==>
                  && EventsOf(u.stock, itemId) == EventsOf(t.stock, itemId)
                       + [StockEvent(Release, r.quantity, t.stock.items[itemId].version + 1, Some(id))]
                  && u.stock.items[itemId].version == t.stock.items[itemId].version + 1)
  {
  }

  /** A reservation whose turn has not come is as it was. */
  lemma NotYet(s: State, projectId: Id, k: nat)
    requires TableOk(s) && k < |s.order|
    ensures var t := ReleaseAll(s, ActiveOf(s, s.order[..k], projectId));
            && s.order[k] in t.reservations && t.reservations[s.order[k]] == s.reservations[s.order[k]]
            && t.stock.items.Keys == s.stock.items.Keys
            && s.order[k] !in ActiveOf(s, s.order[..k], projectId)
  {
    var ids := ActiveOf(s, s.order[..k], projectId);
    ReleaseAllWritesOnly(s, ids);
    ActiveOfExact(s, s.order[..k], projectId);
    assert s.order[k] in s.order;
    assert s.order[k] !in s.order[..k];
    assert s.order[k] !in KeySet(ids);
  }

  /** Every reservation to be released has its item. */
  ghost predicate ItemsThere(s: State, projectId: Id) {
    forall id :: ActiveIn(s, id, projectId) ==> s.reservations[id].itemId in s.stock.items
  }

  /** The loop over the first k keys. */
  ghost predicate LoggedSoFar(s: State, projectId: Id, itemId: Id, k: nat, at: seq<int>)
    requires k <= |s.order|
  {
    var t := ReleaseAll(s, ActiveOf(s, s.order[..k], projectId));
    && Places(s, projectId, itemId, k, at)
    && LogsReleases(s, itemId, at, EventsOf(t.stock, itemId))
    && (itemId in s.stock.items ==>
          itemId in t.stock.items && t.stock.items[itemId].version == s.stock.items[itemId].version + |at|)
  }

  lemma LogsNext(s: State, itemId: Id, at: seq<int>, k: nat, log: seq<StockEvent>, version: nat)
    requires LogsReleases(s, itemId, at, log) && itemId in s.stock.items
    requires k < |s.order| && s.order[k] in s.reservations && version == s.stock.items[itemId].version + |at| + 1
    ensures LogsReleases(s, itemId, at + [k],
              log + [StockEvent(Release, s.reservations[s.order[k]].quantity, version, Some(s.order[k]))])
  {
    var before := EventsOf(s.stock, itemId);
    var next := log + [StockEvent(Release, s.reservations[s.order[k]].quantity, version, Some(s.order[k]))];
    assert next[..|before|] == log[..|before|];
  }

  lemma LogNext(s: State, projectId: Id, itemId: Id, k: nat, at: seq<int>)
    requires TableOk(s) && ItemsThere(s, projectId) && k < |s.order| && LoggedSoFar(s, projectId, itemId, k, at)
    ensures LoggedSoFar(s, projectId, itemId, k + 1,
              if Owes(s, s.order[k], projectId, itemId) then at + [k] else at)
  {
    hide ReleaseAll, ActiveOf, Places, LogsReleases, ReleaseLogged;
    var id := s.order[k];
    var ids := ActiveOf(s, s.order[..k], projectId);
    PlacesNext(s, projectId, itemId, k, at);
    ActiveOfNext(s, projectId, k);
    NotYet(s, projectId, k);
    if ActiveIn(s, id, projectId) {
      var t := ReleaseAll(s, ids);
      ReleaseAllNext(s, ids, id);
      TurnLogs(t, id, itemId);
      if s.reservations[id].itemId == itemId {
        LogsNext(s, itemId, at, k, EventsOf(t.stock, itemId), t.stock.items[itemId].version + 1);
      }
    } else {
      assert ids + [] == ids;
    }
  }

  lemma NothingLogged(s: State, projectId: Id, itemId: Id)
    ensures LoggedSoFar(s, projectId, itemId, 0, [])
  {
  }

  lemma {:induction false} LoggedThrough(s: State, projectId: Id, itemId: Id, k: nat) returns (at: seq<int>)
    requires TableOk(s) && ItemsThere(s, projectId) && k <= |s.order|
    ensures LoggedSoFar(s, projectId, itemId, k, at)
  {
    hide LoggedSoFar, TableOk, ItemsThere, Owes;
    if k == 0 {
      at := [];
      NothingLogged(s, projectId, itemId);
    } else {
      at := LoggedThrough(s, projectId, itemId, k - 1);
      LogNext(s, projectId, itemId, k - 1, at);
      at := if Owes(s, s.order[k - 1], projectId, itemId) then at + [k - 1] else at;
    }
  }

  // ---------- the two operations ----------

  lemma ItemsAreThere(s: State, projectId: Id)
    requires TableOk(s) && !AnyItemMissing(s, ActiveOf(s, s.order, projectId))
    ensures ItemsThere(s, projectId)
  {
    ActiveOfExact(s, s.order, projectId);
  }

  lemma LoopLogs(s: State, projectId: Id, itemId: Id)
    requires TableOk(s) && !AnyItemMissing(s, ActiveOf(s, s.order, projectId))
    ensures exists at :: Places(s, projectId, itemId, |s.order|, at)
              && LogsReleases(s, itemId, at, EventsOf(ReleaseAll(s, ActiveOf(s, s.order, projectId)).stock, itemId))
  {
    hide ReleaseAll, ActiveOf, Places, LogsReleases, TableOk, AnyItemMissing;
    ItemsAreThere(s, projectId);
    assert s.order[..|s.order|] == s.order;
    var at := LoggedThrough(s, projectId, itemId, |s.order|);
  }

  /** Archiving an open project logs, item by item, one release for each of its active reservations, in order. */
  lemma ArchiveLogs(s: State, projectId: Id, expected: Option<nat>, itemId: Id)
    requires TableOk(s) && ArchiveProject(s, projectId, expected).Ok? && s.projects[projectId].status != Archived
    ensures var log := EventsOf(ArchiveProject(s, projectId, expected).value.stock, itemId);
            exists at :: Places(s, projectId, itemId, |s.order|, at) && LogsReleases(s, itemId, at, log)
  {
    hide ReleaseAll, ActiveOf, Places, LogsReleases, TableOk, AnyItemMissing;
    LoopLogs(s, projectId, itemId);
  }

  /** So does removing one. */
  lemma RemovalLogs(s: State, projectId: Id, expected: Option<nat>, confirmation: string, itemId: Id)
    requires TableOk(s) && RemoveProject(s, projectId, expected, confirmation).Ok?
    requires s.projects[projectId].removed.None?
    ensures var log := EventsOf(RemoveProject(s, projectId, expected, confirmation).value.stock, itemId);
            exists at :: Places(s, projectId, itemId, |s.order|, at) && LogsReleases(s, itemId, at, log)
  {
    hide ReleaseAll, ActiveOf, Places, LogsReleases, TableOk, AnyItemMissing;
    LoopLogs(s, projectId, itemId);
  }

  // ---------- the stock given back ----------

  lemma TurnGivesBack(t: State, id: Id, itemId: Id)
    requires Returnable(t, id)
    ensures var u, r := ReleaseLogged(t, id), t.reservations[id];
            && u.stock.items.Keys == t.stock.items.Keys
            && (itemId in t.stock.items && itemId != r.itemId ==> u.stock.items[itemId] == t.stock.items[itemId])
            && (itemId == r.itemId ==>
                  var item := t.stock.items[itemId];
                  u.stock.items[itemId] == item.(available := item.available + r.quantity, version := item.version + 1))
  {
  }

  lemma QuantitiesNext(s: State, at: seq<int>, k: nat)
    ensures Total(Quantities(s, at + [k])) == Total(Quantities(s, at)) + QuantityAt(s, k)
  {
    hide QuantityAt;
    assert Quantities(s, at + [k])[..|at|] == Quantities(s, at);
  }

  ghost predicate GaveBackSoFar(s: State, projectId: Id, itemId: Id, k: nat, at: seq<int>)
    requires k <= |s.order|
  {
    GaveBack(s, itemId, at, ReleaseAll(s, ActiveOf(s, s.order[..k], projectId)))
  }

  lemma SoundSoFar(s: State, projectId: Id, k: nat)
    requires Inv(s) && k < |s.order| && ActiveIn(s, s.order[k], projectId)
    ensures var t := ReleaseAll(s, ActiveOf(s, s.order[..k], projectId));
            Returnable(t, s.order[k]) && t.reservations[s.order[k]] == s.reservations[s.order[k]]
  {
    hide Inv, SameItems, ReleaseAll, Returnable;
    TableOf(s);
    NotYet(s, projectId, k);
    ActiveOfExact(s, s.order[..k], projectId);
    var ids := ActiveOf(s, s.order[..k], projectId);
    ReleaseAllKeeps(s, ids);
    HeldIsReturnable(ReleaseAll(s, ids), s.order[k]);
  }

  lemma GiveNext(s: State, projectId: Id, itemId: Id, k: nat, at: seq<int>)
    requires Inv(s) && k < |s.order| && GaveBackSoFar(s, projectId, itemId, k, at)
    ensures GaveBackSoFar(s, projectId, itemId, k + 1, if Owes(s, s.order[k], projectId, itemId) then at + [k] else at)
  {
    hide Inv, ReleaseAll, ActiveOf, ReleaseLogged, Returnable, Quantities;
    var id := s.order[k];
    var ids := ActiveOf(s, s.order[..k], projectId);
    ActiveOfNext(s, projectId, k);
    if ActiveIn(s, id, projectId) {
      SoundSoFar(s, projectId, k);
      ReleaseAllNext(s, ids, id);
      TurnGivesBack(ReleaseAll(s, ids), id, itemId);
      QuantitiesNext(s, at, k);
    } else {
      assert ids + [] == ids;
    }
  }

  lemma NothingGiven(s: State, projectId: Id, itemId: Id)
    ensures GaveBackSoFar(s, projectId, itemId, 0, [])
  {
  }

  lemma {:induction false} GivenThrough(s: State, projectId: Id, itemId: Id, k: nat) returns (at: seq<int>)
    requires Inv(s) && k <= |s.order|
    ensures Places(s, projectId, itemId, k, at) && GaveBackSoFar(s, projectId, itemId, k, at)
  {
    hide Inv, GaveBackSoFar, Owes;
    if k == 0 {
      at := [];
      NothingGiven(s, projectId, itemId);
    } else {
      at := GivenThrough(s, projectId, itemId, k - 1);
      hide Places;
      PlacesNext(s, projectId, itemId, k - 1, at);
      GiveNext(s, projectId, itemId, k - 1, at);
      at := if Owes(s, s.order[k - 1], projectId, itemId) then at + [k - 1] else at;
    }
  }

  /** Every reservation of the project ends as released, and no other changes. */
  ghost predicate EndsReleased(s: State, projectId: Id, t: State) {
    && t.order == s.order && t.reservations.Keys == s.reservations.Keys
    && forall id :: id in s.reservations ==>
         var r := s.reservations[id];
         t.reservations[id] ==
           if Owes(s, id, projectId, r.itemId) then r.(status := Released, version := r.version + 1) else r
  }

  lemma LoopEnds(s: State, projectId: Id, itemId: Id)
    requires Inv(s)
    ensures var t := ReleaseAll(s, ActiveOf(s, s.order, projectId));
            && EndsReleased(s, projectId, t)
            && exists at :: Places(s, projectId, itemId, |s.order|, at) && GaveBack(s, itemId, at, t)
  {
    hide Inv, ReleaseAll, ActiveOf, Places, GaveBack, SameItems;
    ProjectBatch(s, projectId);
    ReleaseAllKeeps(s, ActiveOf(s, s.order, projectId));
    assert s.order[..|s.order|] == s.order;
    var at := GivenThrough(s, projectId, itemId, |s.order|);
  }

  /** Archiving ends exactly the project's active reservations as released and makes their stock available again. */
  lemma ArchiveEnds(s: State, projectId: Id, expected: Option<nat>, itemId: Id)
    requires Inv(s) && ArchiveProject(s, projectId, expected).Ok? && s.projects[projectId].status != Archived
    ensures var t := ArchiveProject(s, projectId, expected).value;
            && EndsReleased(s, projectId, t)
            && exists at :: Places(s, projectId, itemId, |s.order|, at) && GaveBack(s, itemId, at, t)
  {
    hide Inv, ReleaseAll, ActiveOf, Places, EndsReleased, AnyItemMissing, GaveBack;
    LoopEnds(s, projectId, itemId);
    SameEnds(s, projectId, ReleaseAll(s, ActiveOf(s, s.order, projectId)),
      ArchiveProject(s, projectId, expected).value);
  }

  lemma RemovalEnds(s: State, projectId: Id, expected: Option<nat>, confirmation: string, itemId: Id)
    requires Inv(s) && RemoveProject(s, projectId, expected, confirmation).Ok? && s.projects[projectId].removed.None?
    ensures var t := RemoveProject(s, projectId, expected, confirmation).value;
            && EndsReleased(s, projectId, t)
            && exists at :: Places(s, projectId, itemId, |s.order|, at) && GaveBack(s, itemId, at, t)
  {
    hide Inv, ReleaseAll, ActiveOf, Places, EndsReleased, AnyItemMissing, GaveBack;
    LoopEnds(s, projectId, itemId);
    SameEnds(s, projectId, ReleaseAll(s, ActiveOf(s, s.order, projectId)),
      RemoveProject(s, projectId, expected, confirmation).value);
  }

  lemma SameEnds(s: State, projectId: Id, t: State, u: State)
    requires EndsReleased(s, projectId, t)
    requires u.stock == t.stock && u.order == t.order && u.reservations == t.reservations
    ensures EndsReleased(s, projectId, u)
    ensures forall itemId, at :: GaveBack(s, itemId, at, t) ==> GaveBack(s, itemId, at, u)
  {
  }
}
