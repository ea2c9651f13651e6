/**
 Archiving and removing a project. Both loops give back every active reservation of the project, touching
 the same item as often as it is reserved. Order never matters, because each release conserves two sums.
 */
module LedgerArchive {
  import opened Outcomes
  import opened Tables
  import opened LedgerModel
  import opened LedgerInvariant
  import opened LedgerOperations

  ghost predicate Batch(s: State, ids: seq<Id>) {
    Distinct(ids) && forall id :: id in ids ==> id in s.reservations && s.reservations[id].status == Active
  }

  function ReleasedRows(rows: map<Id, Reservation>, ids: seq<Id>): map<Id, Reservation> {
    map id | id in rows ::
      if id in ids then rows[id].(status := Released, version := rows[id].version + 1) else rows[id]
  }

  function UseOf(itemId: Id): Reservation -> real {
    (r: Reservation) => if r.status == Active && r.itemId == itemId then 1.0 else 0.0
  }

  /** How many active reservations an item has. */
  function Uses(s: State, itemId: Id): real {
    Sum(s.order, s.reservations, UseOf(itemId))
  }

  /** Everything of an item that no release changes. */
  ghost predicate SameBut(before: Item, after: Item) {
    after == before.(available := after.available, version := after.version)
  }

  ghost predicate SameItems(s: State, t: State) {
    && t.stock.items.Keys == s.stock.items.Keys
    && (forall i :: i in s.stock.items ==>
          && SameBut(s.stock.items[i], t.stock.items[i])
          && t.stock.items[i].version as real + Uses(t, i) == s.stock.items[i].version as real + Uses(s, i)
          && Manual(t, i) == Manual(s, i))
  }

  lemma ReleaseLoggedUses(s: State, id: Id)
    requires TableOk(s) && Returnable(s, id)
    ensures forall i :: Uses(ReleaseLogged(s, id), i) == Uses(s, i) - if i == s.reservations[id].itemId then 1.0
              else 0.0
  {
    var t := ReleaseLogged(s, id);
    forall i
      ensures Uses(t, i) == Uses(s, i) - if i == s.reservations[id].itemId then 1.0 else 0.0
    {
      SumReplace(s.order, s.reservations, UseOf(i), id, t.reservations[id]);
    }
  }

  lemma ReleaseLoggedItems(s: State, id: Id)
    requires TableOk(s) && Returnable(s, id)
    requires forall i :: Manual(ReleaseLogged(s, id), i) == Manual(s, i)
    ensures SameItems(s, ReleaseLogged(s, id))
  {
    ReleaseLoggedUses(s, id);
    var t := ReleaseLogged(s, id);
    forall i | i in s.stock.items
      ensures SameBut(s.stock.items[i], t.stock.items[i])
      ensures t.stock.items[i].version as real + Uses(t, i) == s.stock.items[i].version as real + Uses(s, i)
    {
      assert i != s.reservations[id].itemId ==> t.stock.items[i] == s.stock.items[i];
    }
  }

  lemma SameItemsReflexive(s: State)
    ensures SameItems(s, s)
  {
  }

  lemma SameItemsTransitive(s: State, t: State, u: State)
    requires SameItems(s, t) && SameItems(t, u)
    ensures SameItems(s, u)
  {
    forall i | i in s.stock.items ensures SameBut(s.stock.items[i], u.stock.items[i]) {
      assert SameBut(t.stock.items[i], u.stock.items[i]);
    }
  }

  lemma TableOf(s: State)
    requires Inv(s)
    ensures TableOk(s)
  {
  }

  lemma NothingReleased(rows: map<Id, Reservation>)
    ensures ReleasedRows(rows, []) == rows
  {
  }

  lemma RowBefore(rows: map<Id, Reservation>, rest: seq<Id>, id: Id)
    requires id in rows && id !in rest
    ensures id in ReleasedRows(rows, rest) && ReleasedRows(rows, rest)[id] == rows[id]
  {
  }

  lemma ReleasedRowsStep(rows: map<Id, Reservation>, rest: seq<Id>, id: Id)
    requires id in rows && id !in rest
    ensures ReleasedRows(rows, rest + [id])
         == ReleasedRows(rows, rest)[id := rows[id].(status := Released, version := rows[id].version + 1)]
  {
  }

  lemma ReleaseLoggedFrame(s: State, id: Id)
    requires Returnable(s, id)
    ensures var r, t := s.reservations[id], ReleaseLogged(s, id);
            t == s.(stock := t.stock,
                    reservations := s.reservations[id := r.(status := Released, version := r.version + 1)])
  {
  }

  /** The whole loop: it keeps the invariant, ends exactly the given reservations and conserves both sums. */
  lemma {:induction false} ReleaseAllKeeps(s: State, ids: seq<Id>)
    requires Inv(s) && Batch(s, ids)
    ensures Inv(ReleaseAll(s, ids))
    ensures var t := ReleaseAll(s, ids);
            t == s.(stock := t.stock, reservations := ReleasedRows(s.reservations, ids))
    ensures SameItems(s, ReleaseAll(s, ids))
  {
    hide Inv, SameItems, Manual, Returnable, ReleaseLogged, ReleasedRows;
    if ids == [] {
      NothingReleased(s.reservations);
      SameItemsReflexive(s);
    } else {
      var rest, id := ids[..|ids| - 1], ids[|ids| - 1];
      assert Batch(s, rest) && id !in rest && ids == rest + [id];
      ReleaseAllKeeps(s, rest);
      var mid := ReleaseAll(s, rest);
      RowBefore(s.reservations, rest, id);
      HeldIsReturnable(mid, id);
      ReleaseLoggedKeeps(mid, id);
      TableOf(mid);
      ReleaseLoggedItems(mid, id);
      SameItemsTransitive(s, mid, ReleaseLogged(mid, id));
      ReleasedRowsStep(s.reservations, rest, id);
      ReleaseLoggedFrame(mid, id);
    }
  }

  lemma SameRows(rows: map<Id, Reservation>, ids: seq<Id>, other: seq<Id>)
    requires forall id :: id in ids <==> id in other
    ensures ReleasedRows(rows, ids) == ReleasedRows(rows, other)
  {
  }

  /** Releasing the same reservations in any order gives the same items and the same reservations. */
  lemma ReleaseOrderIrrelevant(s: State, ids: seq<Id>, other: seq<Id>)
    requires Inv(s) && Batch(s, ids) && Batch(s, other)
    requires forall id :: id in ids <==> id in other
    ensures ReleaseAll(s, ids).stock.items == ReleaseAll(s, other).stock.items
    ensures ReleaseAll(s, ids).reservations == ReleaseAll(s, other).reservations
  {
    ReleaseAllKeeps(s, ids);
    ReleaseAllKeeps(s, other);
    SameRows(s.reservations, ids, other);
    var t, u := ReleaseAll(s, ids), ReleaseAll(s, other);
    forall i | i in s.stock.items ensures t.stock.items[i] == u.stock.items[i] {
      ReleasedAvailable(s, t, u, i);
    }
  }

  /** The two conserved sums determine the item. */
  lemma ReleasedAvailable(s: State, t: State, u: State, i: Id)
    requires SameItems(s, t) && SameItems(s, u) && i in s.stock.items
    requires BooksOk(t) && BooksOk(u)
    requires t.order == u.order && t.reservations == u.reservations
    ensures t.stock.items[i] == u.stock.items[i]
  {
    assert Reserved(t, i) == Reserved(u, i);
    assert Uses(t, i) == Uses(u, i);
  }

  /** Calling `releaseReservation` on each id in turn. */
  function ReleaseEach(s: State, ids: seq<Id>): Result<State> {
    if ids == [] then Ok(s)
    else
      match ReleaseEach(s, ids[..|ids| - 1])
      case Err(error) => Err(error)
      case Ok(t) => ReleaseReservation(t, ids[|ids| - 1], None)
  }

  lemma {:induction false} ReleaseEachIsReleaseAll(s: State, ids: seq<Id>)
    requires Inv(s) && Batch(s, ids)
    ensures ReleaseEach(s, ids) ==
            Ok(ReleaseAll(s, ids).(stock := ReleaseAll(s, ids).stock.(events := s.stock.events)))
  {
    hide Inv, SameItems, ReleasedRows, Returnable, ReleaseReservation, ReleaseLogged;
    if ids != [] {
      var rest, id := ids[..|ids| - 1], ids[|ids| - 1];
      ReleaseEachIsReleaseAll(s, rest);
      ReleaseAllKeeps(s, rest);
      var mid := ReleaseAll(s, rest);
      assert id !in rest;
      RowBefore(s.reservations, rest, id);
      HeldIsReturnable(mid, id);
      ReleaseLoggedIsRelease(mid, id);
      ReleaseIgnoresEvents(mid, id, s.stock.events);
    }
  }

  lemma ReleaseIgnoresEvents(s: State, id: Id, events: map<Id, seq<StockEvent>>)
    requires ReleaseReservation(s, id, None).Ok?
    ensures var t := ReleaseReservation(s, id, None).value;
            ReleaseReservation(s.(stock := s.stock.(events := events)), id, None) ==
            Ok(t.(stock := t.stock.(events := events)))
  {
  }

  // ---------- the project's reservations ----------

  lemma {:induction false} ActiveOfExact(s: State, keys: seq<Id>, projectId: Id)
    requires Distinct(keys)
    ensures forall id :: id in ActiveOf(s, keys, projectId) <==> id in keys && ActiveIn(s, id, projectId)
    ensures Distinct(ActiveOf(s, keys, projectId))
  {
    if keys != [] {
      var rest, last := keys[..|keys| - 1], keys[|keys| - 1];
      ActiveOfExact(s, rest, projectId);
      assert last !in rest;
      assert keys == rest + [last];
    }
  }

  lemma {:induction false} ActiveOfKnown(s: State, keys: seq<Id>, projectId: Id)
    ensures forall id :: id in ActiveOf(s, keys, projectId) ==> ActiveIn(s, id, projectId)
  {
    if keys != [] {
      ActiveOfKnown(s, keys[..|keys| - 1], projectId);
    }
  }

  lemma ProjectBatch(s: State, projectId: Id)
    requires Inv(s)
    ensures Batch(s, ActiveOf(s, s.order, projectId))
    ensures !AnyItemMissing(s, ActiveOf(s, s.order, projectId))
    ensures forall id :: id in ActiveOf(s, s.order, projectId) <==> ActiveIn(s, id, projectId)
  {
    ActiveOfExact(s, s.order, projectId);
    forall id | ActiveIn(s, id, projectId) ensures s.reservations[id].itemId in s.stock.items {
      HeldIsReturnable(s, id);
    }
  }

  lemma SameBatch(s: State, ids: seq<Id>, other: seq<Id>)
    requires Batch(s, ids) && Distinct(other) && forall id :: id in other <==> id in ids
    ensures Batch(s, other)
  {
  }

  /**
   Archiving an open project does to items and reservations what releasing its active reservations one by
   one would do, in any order; the preflight for missing items never fails.
   */
  lemma ArchiveIsIteratedRelease(s: State, projectId: Id, expected: Option<nat>, ids: seq<Id>)
    requires Inv(s) && Distinct(ids)
    requires forall id :: id in ids <==> ActiveIn(s, id, projectId)
    requires Inactive(s, projectId) == None && !Stale(s.projects[projectId].version, expected)
    ensures ArchiveProject(s, projectId, expected).Ok? && ReleaseEach(s, ids).Ok?
    ensures ArchiveProject(s, projectId, expected).value.stock.items == ReleaseEach(s, ids).value.stock.items
    ensures ArchiveProject(s, projectId, expected).value.reservations == ReleaseEach(s, ids).value.reservations
    ensures ArchiveProject(s, projectId, expected).value.projects
         == s.projects[projectId := s.projects[projectId].(status := Archived,
           version := s.projects[projectId].version + 1)]
  {
    hide Inv, ReleaseAll, ReleaseEach, ActiveOf, AnyItemMissing, Batch, ActiveIn;
    ProjectBatch(s, projectId);
    SameBatch(s, ActiveOf(s, s.order, projectId), ids);
    ReleaseOrderIrrelevant(s, ActiveOf(s, s.order, projectId), ids);
    ReleaseEachIsReleaseAll(s, ids);
  }

  /** After the loop the project has nothing left to release, so it may be closed. */
  lemma CloseKeeps(s: State, projectId: Id, closed: Project)
    requires Inv(s) && projectId in s.projects
    ensures var t := ReleaseAll(s, ActiveOf(s, s.order, projectId)).(projects := s.projects[projectId := closed]);
            Inv(t) && (forall i :: Manual(t, i) == Manual(s, i)) && (forall id :: !ActiveIn(t, id, projectId))
  {
    hide Inv, SameItems, Manual;
    var active := ActiveOf(s, s.order, projectId);
    ProjectBatch(s, projectId);
    ReleaseAllKeeps(s, active);
    var u := ReleaseAll(s, active);
    assert forall id :: !ActiveIn(u, id, projectId);
    SameManual(s, u);
    CloseDrained(u, projectId, closed);
  }

  lemma SameManual(s: State, t: State)
    requires SameItems(s, t)
    ensures forall i :: Manual(t, i) == Manual(s, i)
  {
    forall i ensures Manual(t, i) == Manual(s, i) {
      assert i in s.stock.items <==> i in t.stock.items;
    }
  }

  lemma CloseDrained(u: State, projectId: Id, closed: Project)
    requires Inv(u) && projectId in u.projects && forall id :: !ActiveIn(u, id, projectId)
    ensures var t := u.(projects := u.projects[projectId := closed]);
            Inv(t) && (forall i :: Manual(t, i) == Manual(u, i)) && (forall id :: !ActiveIn(t, id, projectId))
  {
    var t := u.(projects := u.projects[projectId := closed]);
    forall id | id in u.reservations && u.reservations[id].status == Active
      ensures Inactive(t, t.revisions[t.lines[t.reservations[id].lineId].revisionId].projectId) == None
    {
      assert ActiveOk(u, u.reservations[id]);
      assert !ActiveIn(u, id, projectId);
    }
    GraphChange(u, t);
    forall id ensures !ActiveIn(t, id, projectId) {
      assert ActiveIn(t, id, projectId) == ActiveIn(u, id, projectId);
    }
  }

  lemma ArchiveKeeps(s: State, projectId: Id, expected: Option<nat>)
    requires Inv(s) && ArchiveProject(s, projectId, expected).Ok?
    ensures Inv(ArchiveProject(s, projectId, expected).value)
    ensures forall i :: Manual(ArchiveProject(s, projectId, expected).value, i) == Manual(s, i)
  {
    hide Inv, Manual;
    var project := s.projects[projectId];
    CloseKeeps(s, projectId, project.(status := Archived, version := project.version + 1));
  }

  lemma RemoveKeeps(s: State, projectId: Id, expected: Option<nat>, confirmation: string)
    requires Inv(s) && RemoveProject(s, projectId, expected, confirmation).Ok?
    ensures Inv(RemoveProject(s, projectId, expected, confirmation).value)
    ensures forall i :: Manual(RemoveProject(s, projectId, expected, confirmation).value, i) == Manual(s, i)
  {
    hide Inv, Manual;
    var project := s.projects[projectId];
    var active := ActiveOf(s, s.order, projectId);
    CloseKeeps(s, projectId, project.(removed := Some(Tombstone(project.status, active)),
      version := project.version + 1));
  }

  /** Removal leaves a tombstone that lists, once each, exactly the reservations it turned from active to released. */
  lemma TombstoneExact(s: State, projectId: Id, expected: Option<nat>, confirmation: string)
    requires Inv(s) && RemoveProject(s, projectId, expected, confirmation).Ok?
    requires s.projects[projectId].removed.None?
    ensures var t := RemoveProject(s, projectId, expected, confirmation).value;
            && t.reservations.Keys == s.reservations.Keys
            && projectId in t.projects && t.projects[projectId].removed.Some?
            && var listed := t.projects[projectId].removed.value.released;
               && Distinct(listed)
               && (forall id :: id in listed <==> id in s.reservations && t.reservations[id] != s.reservations[id])
               && (forall id :: id in listed ==>
                     s.reservations[id].status == Active && t.reservations[id].status == Released)
  {
    hide Inv, ReleaseAll, ActiveOf, SameItems;
    var active := ActiveOf(s, s.order, projectId);
    ProjectBatch(s, projectId);
    ReleaseAllKeeps(s, active);
  }

  // ---------- rollback of an archive ----------

  /** The compensation snapshot `archiveProject` takes before its loop. */
  datatype ArchiveReceipt = ArchiveReceipt(
    project: Project,
    ids: seq<Id>,
    reservations: map<Id, Reservation>,
    items: map<Id, Item>,
    events: map<Id, Option<seq<StockEvent>>>)

  function AffectedItems(s: State, ids: seq<Id>): set<Id> {
    set id | id in ids && id in s.reservations :: s.reservations[id].itemId
  }

  function ReceiptFor(s: State, projectId: Id, ids: seq<Id>): ArchiveReceipt
    requires projectId in s.projects
  {
    var affected := AffectedItems(s, ids);
    ArchiveReceipt(
      s.projects[projectId],
      ids,
      map id | id in s.reservations && id in ids :: s.reservations[id],
      map i | i in s.stock.items && i in affected :: s.stock.items[i],
      map i | i in affected :: if i in s.stock.events then Some(s.stock.events[i]) else None)
  }

  /** Reservations set one after another; one that has left the map comes back at the end of the order. */
  function PutBack(s: State, ids: seq<Id>, rows: map<Id, Reservation>): State {
    if ids == [] then s
    else
      var rest, id := ids[..|ids| - 1], ids[|ids| - 1];
      var before := PutBack(s, rest, rows);
      if id in rows then WithReservation(before, id, rows[id]) else before
  }

  /** Reservations still in the map are overwritten where they stand. */
  lemma {:induction false} PutBackKnown(s: State, ids: seq<Id>, rows: map<Id, Reservation>)
    requires forall id :: id in ids ==> id in s.reservations && id in rows
    ensures PutBack(s, ids, rows) == s.(reservations := s.reservations + (map id | id in rows && id in ids :: rows[id]))
  {
    if ids == [] {
      assert s.reservations + (map id | id in rows && id in ids :: rows[id]) == s.reservations;
    } else {
      var rest, id := ids[..|ids| - 1], ids[|ids| - 1];
      assert ids == rest + [id];
      PutBackKnown(s, rest, rows);
      var before := s.reservations + (map k | k in rows && k in rest :: rows[k]);
      assert before[id := rows[id]] == s.reservations + (map k | k in rows && k in ids :: rows[k]);
    }
  }

  /** `rollbackProjectArchive`: put back every entry of the receipt, deleting event lists that did not exist. */
  function Compensate(s: State, projectId: Id, receipt: ArchiveReceipt): State {
    var absent := set i | i in receipt.events && receipt.events[i].None?;
    var present := map i | i in receipt.events && receipt.events[i].Some? :: receipt.events[i].value;
    PutBack(s.(projects := s.projects[projectId := receipt.project]), receipt.ids, receipt.reservations).(
       stock := Stock(s.stock.items + receipt.items, s.stock.events - absent + present))
  }

  function KeySet(ids: seq<Id>): set<Id> {
    set id | id in ids
  }

  /** A map changed at most at these keys. */
  ghost predicate ChangedWithin<V>(before: map<Id, V>, after: map<Id, V>, keys: set<Id>) {
    forall k :: k !in keys ==> (k in before <==> k in after) && (k in before ==> after[k] == before[k])
  }

  /** The loop writes only the given reservations and the items and events they point at. */
  ghost predicate WritesOnly(s: State, t: State, ids: seq<Id>) {
    && t == s.(stock := t.stock, reservations := t.reservations)
    && t.reservations.Keys == s.reservations.Keys
    && t.stock.items.Keys == s.stock.items.Keys
    && s.stock.events.Keys <= t.stock.events.Keys
    && ChangedWithin(s.reservations, t.reservations, KeySet(ids))
    && ChangedWithin(s.stock.items, t.stock.items, AffectedItems(s, ids))
    && ChangedWithin(s.stock.events, t.stock.events, AffectedItems(s, ids))
    && (forall id :: id in s.reservations ==> t.reservations[id].itemId == s.reservations[id].itemId)
  }

  lemma {:induction false} ReleaseAllWritesOnly(s: State, ids: seq<Id>)
    ensures WritesOnly(s, ReleaseAll(s, ids), ids)
  {
    if ids != [] {
      var rest, id := ids[..|ids| - 1], ids[|ids| - 1];
      assert ids == rest + [id];
      ReleaseAllWritesOnly(s, rest);
      WritesOneMore(s, ReleaseAll(s, rest), rest, id);
    }
  }

  lemma ChangedOneMore<V>(before: map<Id, V>, after: map<Id, V>, keys: set<Id>, key: Id, value: V, wider: set<Id>)
    requires ChangedWithin(before, after, keys) && keys <= wider && key in wider
    ensures ChangedWithin(before, after[key := value], wider)
    ensures ChangedWithin(before, after, wider)
  {
  }

  lemma AffectedOneMore(s: State, rest: seq<Id>, id: Id)
    requires id in s.reservations
    ensures AffectedItems(s, rest) <= AffectedItems(s, rest + [id])
    ensures s.reservations[id].itemId in AffectedItems(s, rest + [id])
  {
  }

  /** Where the item of a known reservation exists, one turn of the loop writes one entry of each of three maps. */
  lemma ReleaseLoggedShape(t: State, id: Id)
    ensures var u := ReleaseLogged(t, id);
            u == t ||
            (id in t.reservations && id in u.reservations
             && u.reservations[id].itemId == t.reservations[id].itemId
             && var i := t.reservations[id].itemId;
                i in t.stock.items && i in u.stock.items && i in u.stock.events
                && u == t.(stock := Stock(t.stock.items[i := u.stock.items[i]], t.stock.events[i := u.stock.events[i]]),
                           reservations := t.reservations[id := u.reservations[id]]))
  {
  }

  lemma WritesOneMore(s: State, t: State, rest: seq<Id>, id: Id)
    requires WritesOnly(s, t, rest)
    ensures WritesOnly(s, ReleaseLogged(t, id), rest + [id])
  {
    hide ChangedWithin, AffectedItems, KeySet, ReleaseLogged;
    var all := rest + [id];
    var u := ReleaseLogged(t, id);
    ReleaseLoggedShape(t, id);
    KeySetOneMore(rest, id);
    if u == t {
      NothingMore(s, t, rest, id);
    } else {
      AffectedOneMore(s, rest, id);
      var i := s.reservations[id].itemId;
      ChangedOneMore(s.reservations, t.reservations, KeySet(rest), id, u.reservations[id], KeySet(all));
      ChangedOneMore(s.stock.items, t.stock.items, AffectedItems(s, rest), i, u.stock.items[i], AffectedItems(s, all));
      ChangedOneMore(s.stock.events, t.stock.events, AffectedItems(s, rest), i, u.stock.events[i],
        AffectedItems(s, all));
    }
  }

  lemma KeySetOneMore(rest: seq<Id>, id: Id)
    ensures KeySet(rest) <= KeySet(rest + [id]) && id in KeySet(rest + [id])
  {
  }

  lemma NothingMore(s: State, t: State, rest: seq<Id>, id: Id)
    requires WritesOnly(s, t, rest)
    ensures WritesOnly(s, t, rest + [id])
  {
    assert AffectedItems(s, rest) <= AffectedItems(s, rest + [id]);
  }

  lemma OverwriteRestores<V>(before: map<Id, V>, after: map<Id, V>, keys: set<Id>)
    requires ChangedWithin(before, after, keys) && before.Keys == after.Keys
    ensures after + (map k | k in before && k in keys :: before[k]) == before
  {
  }

  lemma EventsRestored<V>(before: map<Id, V>, after: map<Id, V>, keys: set<Id>)
    requires ChangedWithin(before, after, keys)
    ensures var saved := map k | k in keys :: if k in before then Some(before[k]) else None;
            before == after - (set k | k in saved && saved[k].None?)
                    + (map k | k in saved && saved[k].Some? :: saved[k].value)
  {
  }

  lemma CompensateUndoes(s: State, t: State, projectId: Id, ids: seq<Id>, closed: Project)
    requires WritesOnly(s, t, ids) && projectId in s.projects && forall id :: id in ids ==> id in s.reservations
    ensures Compensate(t.(projects := s.projects[projectId := closed]), projectId, ReceiptFor(s, projectId, ids)) == s
  {
    hide ChangedWithin, AffectedItems, PutBack;
    var receipt := ReceiptFor(s, projectId, ids);
    assert s.projects[projectId := closed][projectId := receipt.project] == s.projects;
    PutBackKnown(t.(projects := s.projects), ids, receipt.reservations);
    var u := Compensate(t.(projects := s.projects[projectId := closed]), projectId, receipt);
    assert u.projects == s.projects;
    OverwriteRestores(s.reservations, t.reservations, KeySet(ids));
    assert receipt.reservations == map id | id in s.reservations && id in KeySet(ids) :: s.reservations[id];
    assert receipt.reservations == map id | id in receipt.reservations && id in ids :: receipt.reservations[id];
    OverwriteRestores(s.stock.items, t.stock.items, AffectedItems(s, ids));
    EventsRestored(s.stock.events, t.stock.events, AffectedItems(s, ids));
  }

  /** The receipts kept after `archiveProject`: a no-op drops the project's receipt, a refusal keeps all. */
  function ReceiptsAfter(
    receipts: map<Id, ArchiveReceipt>, s: State, projectId: Id, expected: Option<nat>): map<Id, ArchiveReceipt>
  {
    if ArchiveProject(s, projectId, expected).Err? then receipts
    else if s.projects[projectId].status == Archived then receipts - {projectId}
    else receipts[projectId := ReceiptFor(s, projectId, ActiveOf(s, s.order, projectId))]
  }

  function RollbackArchive(s: State, receipts: map<Id, ArchiveReceipt>, projectId: Id): State {
    if projectId in receipts then Compensate(s, projectId, receipts[projectId]) else s
  }

  /**
   Rolling back straight after a successful archive restores the state exactly, whatever the state was; after
   a no-op it changes nothing, even if an older receipt for the project existed.
   */
  lemma ArchiveThenRollback(s: State, receipts: map<Id, ArchiveReceipt>, projectId: Id, expected: Option<nat>)
    requires ArchiveProject(s, projectId, expected).Ok?
    ensures RollbackArchive(ArchiveProject(s, projectId, expected).value,
                            ReceiptsAfter(receipts, s, projectId, expected), projectId) == s
  {
    hide WritesOnly, Compensate, ReceiptFor, ReleaseAll, ActiveOf;
    var project := s.projects[projectId];
    if project.status != Archived {
      var ids := ActiveOf(s, s.order, projectId);
      ReleaseAllWritesOnly(s, ids);
      ActiveOfKnown(s, s.order, projectId);
      CompensateUndoes(s, ReleaseAll(s, ids), projectId, ids,
        project.(status := Archived, version := project.version + 1));
    }
  }

  // ---------- rollback of a removal ----------

  /** The four maps `removeProject` saves before its loop. */
  datatype RemovalReceipt = RemovalReceipt(
    projects: map<Id, Project>, order: seq<Id>, reservations: map<Id, Reservation>, stock: Stock)

  function RemovalReceiptOf(s: State): RemovalReceipt {
    RemovalReceipt(s.projects, s.order, s.reservations, s.stock)
  }

  /** `rollbackProjectRemoval`: the four maps are set to the saved ones, whatever happened since. */
  function RollbackRemoval(later: State, saved: RemovalReceipt): State {
    later.(projects := saved.projects, order := saved.order, reservations := saved.reservations, stock := saved.stock)
  }
}
