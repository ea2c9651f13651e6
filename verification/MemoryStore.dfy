/**
 `MemoryInventory` and `MemoryProjects` as classes over their maps. Every method is proved against the value
 functions of the ledger: a success leaves exactly the specified state, a refusal leaves the state alone.
 */
module MemoryStore {
  import opened Outcomes
  import opened Tables
  import Spec = LedgerModel
  import opened LedgerModel
  import opened LedgerInvariant
  import opened RevisionNumbers
  import Archives = LedgerArchive

  /** A success reaches the specified state; a refusal reports the specified error and changes nothing. */
  ghost predicate Did<S(!new)>(spec: Result<S>, before: S, after: S, failure: Option<Error>) {
    match spec
    case Ok(state) => failure == None && after == state
    case Err(error) => failure == Some(error) && after == before
  }

  class MemoryInventory {
    var items: map<Id, Item>
    var events: map<Id, seq<StockEvent>>

    constructor (seed: map<Id, Item>)
      ensures Contents() == Stock(seed, map[])
    {
      items := seed;
      events := map[];
    }

    ghost function Contents(): Stock
      reads this
    {
      Stock(items, events)
    }

    method CreateItem(
      itemId: Id, quantity: real, available: Option<real>, unit: Unit, evidence: Evidence, facts: set<string>)
      returns (failure: Option<Error>)
      modifies this
      ensures Did(Spec.CreateItem(old(Contents()), itemId, quantity, available, unit, evidence, facts),
              old(Contents()), Contents(), failure)
    {
      if itemId in items {
        return Some(Conflict);
      }
      var offered := if available.Some? then available.value else quantity;
      var shown := if CanCount(evidence) then Min(quantity, offered) else 0.0;
      items := items[itemId := Item(quantity, shown, unit, evidence, false, facts, 1)];
      if CanCount(evidence) {
        var initialEvents := [StockEvent(Count, quantity, 1, None)];
        var initiallyAllocated := quantity - offered;
        if initiallyAllocated > 0.0 {
          initialEvents := initialEvents + [StockEvent(Allocate, initiallyAllocated, 1, None)];
        }
        assert initialEvents == [StockEvent(Count, quantity, 1, None)]
                                + if initiallyAllocated > 0.0 then [StockEvent(Allocate, initiallyAllocated, 1, None)]
                                  else [];
        events := events[itemId := initialEvents];
      }
      return None;
    }

    method RestoreState(snapshot: Stock)
      modifies this
      ensures Contents() == snapshot
    {
      items, events := snapshot.items, snapshot.events;
    }

    method RollbackCreatedItem(itemId: Id) returns (failure: Option<Error>)
      modifies this
      ensures Did(Spec.RollbackCreatedItem(old(Contents()), itemId), old(Contents()), Contents(), failure)
    {
      if itemId !in items {
        return None;
      }
      if items[itemId].version != 1 {
        return Some(IntegrityError);
      }
      items := items - {itemId};
      events := events - {itemId};
      return None;
    }

    method RetireItem(itemId: Id, expected: Option<nat>) returns (failure: Option<Error>)
      modifies this
      ensures Did(Spec.RetireItem(old(Contents()), itemId, expected), old(Contents()), Contents(), failure)
    {
      if itemId !in items || items[itemId].retired {
        return Some(NotFound);
      }
      var current := items[itemId];
      if Stale(current.version, expected) {
        return Some(Conflict);
      }
      if CanCount(current.evidence) && current.quantity > current.available {
        return Some(Conflict);
      }
      items := items[itemId := current.(retired := true, version := current.version + 1)];
      return None;
    }

    method UpdateItem(itemId: Id, facts: set<string>, expected: Option<nat>) returns (failure: Option<Error>)
      modifies this`items
      ensures Did(Spec.UpdateItem(old(Contents()), itemId, facts, expected), old(Contents()), Contents(), failure)
    {
      if itemId !in items || items[itemId].retired {
        return Some(NotFound);
      }
      var current := items[itemId];
      if Stale(current.version, expected) {
        return Some(Conflict);
      }
      items := items[itemId := current.(facts := facts, version := current.version + 1)];
      return None;
    }

    method RecordCount(itemId: Id, quantity: real, commissioning: Option<Unit>, expected: Option<nat>)
      returns (failure: Option<Error>)
      modifies this
      ensures Did(Spec.RecordCount(old(Contents()), itemId, quantity, commissioning, expected), old(Contents()),
              Contents(), failure)
    {
      if itemId !in items || items[itemId].retired {
        return Some(NotFound);
      }
      if quantity < 0.0 {
        return Some(Validation);
      }
      var current := items[itemId];
      if commissioning.Some? && CanCount(current.evidence) {
        return Some(Conflict);
      }
      if commissioning.Some? && commissioning.value != current.unit {
        return Some(Validation);
      }
      if Stale(current.version, expected) {
        return Some(Conflict);
      }
      var held := if CanCount(current.evidence) then current.quantity - current.available else 0.0;
      if quantity < held {
        return Some(Conflict);
      }
      var evidence := if commissioning.Some? then Commissioned else PhysicallyCounted;
      var updated := current.(
        quantity := quantity, available := quantity - held, evidence := evidence, version := current.version + 1);
      items := items[itemId := updated];
      Append(itemId, StockEvent(Count, quantity, updated.version, None));
      return None;
    }

    method Append(itemId: Id, event: StockEvent)
      modifies this`events
      ensures Contents() == WithEvent(old(Contents()), itemId, event)
    {
      var log := if itemId in events then events[itemId] else [];
      events := events[itemId := log + [event]];
    }

    method RecordStockEvent(itemId: Id, kind: EventKind, amount: real, unit: Unit) returns (failure: Option<Error>)
      modifies this
      ensures Did(Spec.RecordStockEvent(old(Contents()), itemId, kind, amount, unit), old(Contents()), Contents(),
              failure)
    {
      if itemId !in items || items[itemId].retired {
        return Some(NotFound);
      }
      var current := items[itemId];
      if current.unit != unit {
        return Some(Validation);
      }
      if kind == Count {
        failure := RecordCount(itemId, amount, None, None);
        return;
      }
      if amount <= 0.0 {
        return Some(Validation);
      }
      var quantity, available := current.quantity, current.available;
      if kind in {Receipt, Return} {
        quantity := quantity + amount;
        if CanCount(current.evidence) {
          available := available + amount;
        }
      } else if kind in {Allocate, Consume, Loss, Dispose} {
        if amount > available {
          return Some(Conflict);
        }
        available := available - amount;
        if kind in {Consume, Loss, Dispose} {
          quantity := quantity - amount;
        }
      } else if kind == Release {
        available := Min(quantity, available + amount);
      } else if kind == Correction {
        quantity := quantity + amount;
        if CanCount(current.evidence) {
          available := available + amount;
        }
      }
      var updated := current.(quantity := quantity, available := available, version := current.version + 1);
      items := items[itemId := updated];
      Append(itemId, StockEvent(kind, amount, updated.version, None));
      return None;
    }
  }

  /** Inside the release loop a reservation still points at the same item, present or not. */
  lemma LoopReads(before: State, done: seq<Id>, id: Id)
    requires id in before.reservations
    ensures var now := ReleaseAll(before, done);
            && id in now.reservations
            && now.reservations[id].itemId == before.reservations[id].itemId
            && now.stock.items.Keys == before.stock.items.Keys
            && now == before.(stock := now.stock, reservations := now.reservations)
  {
    Archives.ReleaseAllWritesOnly(before, done);
  }

  lemma ItemsPresent(s: State, ids: seq<Id>)
    requires !AnyItemMissing(s, ids)
    ensures forall id :: id in ids && id in s.reservations ==> s.reservations[id].itemId in s.stock.items
  {
  }

  /** `changesReservedRequirement`, field by field, as the update gives them. */
  predicate ChangesField(current: Requirement, change: BasisChange) {
    || (change.itemId.Some? && change.itemId.value != current.itemId)
    || (change.role.Some? && !(current.role == Undecided && change.role.value == Consumed)
        && change.role.value != current.role)
    || (change.required.Some? && change.required.value != current.required)
    || (change.unit.Some? && change.unit.value != current.unit)
    || (change.optional.Some? && change.optional.value != current.optional)
    || (change.constraints.Some? && change.constraints.value != current.constraints)
    || (change.alternatives.Some? && change.alternatives.value != current.alternatives)
  }

  /** The fields decide what comparing the merged basis decides. */
  lemma FieldsDecide(current: Requirement, change: BasisChange)
    ensures ChangesField(current, change) <==> ChangesReserved(current, Merged(current, change))
  {
  }

  /** The insertion order lists the keys of a reservation map, once each. */
  ghost predicate Keyed(order: seq<Id>, reservations: map<Id, Reservation>) {
    Distinct(order) && forall id :: id in order <==> id in reservations
  }

  class MemoryProjects {
    const inventory: MemoryInventory
    var projects: map<Id, Project>
    var slugs: map<Id, string>
    var revisions: map<Id, Revision>
    var lines: map<Id, Line>
    var order: seq<Id>
    var reservations: map<Id, Reservation>
    var workItems: map<Id, Id>
    var archiveReceipts: map<Id, Archives.ArchiveReceipt>
    var removalReceipts: map<Id, Archives.RemovalReceipt>

    constructor (inventory: MemoryInventory)
      ensures Valid() && this.inventory == inventory
      ensures Contents() == State(inventory.Contents(), map[], map[], map[], map[], [], map[], map[])
      ensures archiveReceipts == map[] && removalReceipts == map[]
    {
      this.inventory := inventory;
      projects, slugs, revisions, lines := map[], map[], map[], map[];
      order, reservations, workItems := [], map[], map[];
      archiveReceipts, removalReceipts := map[], map[];
    }

    ghost function Contents(): State
      reads this, inventory
    {
      State(inventory.Contents(), projects, slugs, revisions, lines, order, reservations, workItems)
    }

    ghost predicate Valid()
      reads this
    {
      Keyed(order, reservations) && ReceiptsKeyed() && NumbersDistinct(revisions)
    }

    /** So do the orders saved in removal receipts. */
    ghost predicate ReceiptsKeyed()
      reads this`removalReceipts
    {
      forall p :: p in removalReceipts ==> Keyed(removalReceipts[p].order, removalReceipts[p].reservations)
    }

    lemma ValidIsTableOk()
      requires ReceiptsKeyed() && NumbersDistinct(revisions)
      ensures Valid() <==> TableOk(Contents())
    {
    }

    method SetReservation(id: Id, r: Reservation)
      requires Valid()
      modifies this`order, this`reservations
      ensures Valid() && Contents() == WithReservation(old(Contents()), id, r)
    {
      if id !in reservations {
        order := order + [id];
      }
      reservations := reservations[id := r];
    }

    /** `assertProjectActive` */
    method CheckProjectActive(projectId: Id) returns (failure: Option<Error>)
      ensures failure == Inactive(Contents(), projectId)
    {
      if projectId !in projects {
        return Some(NotFound);
      }
      if projects[projectId].removed.Some? {
        return Some(ProjectRemoved);
      }
      if projects[projectId].status == Archived {
        return Some(Conflict);
      }
      return None;
    }

    /** The reduction over active reservations inside `createReservation`. */
    method ReservedCoverage(lineId: Id, basis: Requirement) returns (total: Result<real>)
      requires Valid()
      ensures total ==
              if CoverageReadable(Contents(), lineId, basis) then Ok(Coverage(Contents(), lineId, basis))
                else Err(IntegrityError)
    {
      ghost var weight := CoverageOn(lineId, basis, Units(inventory.items));
      var sum := 0.0;
      for n := 0 to |order|
        invariant sum == Sum(order[..n], reservations, weight)
        invariant forall m ::
                    0 <= m < n && reservations[order[m]].status == Active && reservations[order[m]].lineId == lineId ==>
                    && reservations[order[m]].itemId in inventory.items
                    && Readable(basis, reservations[order[m]].itemId,
                                inventory.items[reservations[order[m]].itemId].unit, reservations[order[m]].quantity)
      {
        assert order[n] in order && order[..n + 1][..n] == order[..n];
        var r := reservations[order[n]];
        if r.status == Active && r.lineId == lineId {
          if r.itemId !in inventory.items {
            return Err(IntegrityError);
          }
          var unit := inventory.items[r.itemId].unit;
          var conversion := ConversionFactor(basis, r.itemId, unit);
          if unit != basis.unit && conversion == None {
            return Err(IntegrityError);
          }
          if conversion.Some? && !IsWhole(r.quantity) {
            return Err(IntegrityError);
          }
          sum := sum + r.quantity * (if conversion.Some? then conversion.value else 1) as real;
        }
      }
      assert order[..|order|] == order;
      assert CoverageReadable(Contents(), lineId, basis) by {
        forall id | id in reservations && reservations[id].status == Active && reservations[id].lineId == lineId
          ensures reservations[id].itemId in inventory.items
          ensures Readable(basis, reservations[id].itemId,
                           inventory.items[reservations[id].itemId].unit, reservations[id].quantity)
        {
          assert id in order;
        }
      }
      return Ok(sum);
    }

    /** Every check of `createReservation`, before it writes anything. */
    method RefusalOf(revisionId: Id, input: ReservationInput) returns (failure: Option<Error>)
      requires Valid()
      ensures failure == Refusal(Contents(), revisionId, input)
    {
      hide Coverage, CoverageReadable, Approved, ConversionFactor, CanCount, Ceil, IsWhole;
      if revisionId !in revisions {
        return Some(NotFound);
      }
      var closed := CheckProjectActive(revisions[revisionId].projectId);
      if closed.Some? {
        return closed;
      }
      if input.lineId !in lines || lines[input.lineId].revisionId != revisionId {
        return Some(NotFound);
      }
      var basis := lines[input.lineId].basis;
      if basis.role != Consumed {
        return Some(Validation);
      }
      if input.itemId !in inventory.items || inventory.items[input.itemId].retired {
        return Some(NotFound);
      }
      var item := inventory.items[input.itemId];
      var conversion := ConversionFactor(basis, input.itemId, item.unit);
      if item.unit != basis.unit && conversion == None {
        return Some(Validation);
      }
      if conversion.Some? && !IsWhole(input.quantity) {
        return Some(Validation);
      }
      if !Approved(basis, input.itemId) {
        return Some(Validation);
      }
      if !(basis.constraints <= item.facts) {
        return Some(Validation);
      }
      if !CanCount(item.evidence) {
        return Some(Conflict);
      }
      if input.quantity <= 0.0 {
        return Some(Validation);
      }
      var factor: Factor := if conversion.Some? then conversion.value else 1;
      var covered := ReservedCoverage(input.lineId, basis);
      if covered.Err? {
        return Some(covered.error);
      }
      var remaining := Max(0.0, basis.required - covered.value);
      var maximumInventoryUnits := Ceil(remaining / factor as real);
      if input.quantity > maximumInventoryUnits as real {
        return Some(Conflict);
      }
      if item.available < input.quantity {
        return Some(Conflict);
      }
      return None;
    }

    method CreateReservation(revisionId: Id, input: ReservationInput) returns (failure: Option<Error>)
      requires Valid()
      modifies this`order, this`reservations, inventory`items
      ensures Valid()
      ensures Did(Spec.CreateReservation(old(Contents()), revisionId, input), old(Contents()), Contents(), failure)
    {
      failure := RefusalOf(revisionId, input);
      if failure.Some? {
        return;
      }
      var item := inventory.items[input.itemId];
      SetReservation(input.id, Reservation(input.lineId, input.itemId, input.quantity, Active, 1));
      inventory.items := inventory.items[input.itemId :=
        item.(available := item.available - input.quantity, version := item.version + 1)];
    }

    method ReleaseReservation(id: Id, expected: Option<nat>) returns (failure: Option<Error>)
      requires Valid()
      modifies this`order, this`reservations, inventory`items
      ensures Valid() && Did(Spec.ReleaseReservation(old(Contents()), id, expected), old(Contents()), Contents(),
              failure)
    {
      if id !in reservations {
        return Some(NotFound);
      }
      var current := reservations[id];
      if Stale(current.version, expected) {
        return Some(Conflict);
      }
      if current.status != Active {
        return Some(Conflict);
      }
      if current.itemId in inventory.items {
        var item := inventory.items[current.itemId];
        inventory.items := inventory.items[current.itemId :=
          item.(available := item.available + current.quantity, version := item.version + 1)];
      }
      SetReservation(id, current.(status := Released, version := current.version + 1));
      return None;
    }

    method RecordUsage(input: UsageInput) returns (failure: Option<Error>)
      requires Valid()
      modifies this`order, this`reservations, inventory
      ensures Valid() && Did(Spec.RecordUsage(old(Contents()), input), old(Contents()), Contents(), failure)
    {
      hide Spec.RecordStockEvent;
      var closed := CheckProjectActive(input.projectId);
      if closed.Some? {
        return closed;
      }
      if input.reservationId.None? {
        return Some(Validation);
      }
      var id := input.reservationId.value;
      if id !in reservations {
        return Some(NotFound);
      }
      var reservation := reservations[id];
      if reservation.status != Active {
        return Some(Conflict);
      }
      if reservation.itemId != input.itemId || reservation.quantity != input.quantity {
        return Some(Validation);
      }
      if reservation.lineId !in lines || lines[reservation.lineId].revisionId !in revisions
         || revisions[lines[reservation.lineId].revisionId].projectId != input.projectId {
        return Some(Conflict);
      }
      if lines[reservation.lineId].basis.role != Consumed {
        return Some(Validation);
      }
      if input.itemId !in inventory.items {
        return Some(NotFound);
      }
      var current := inventory.items[input.itemId];
      inventory.items := inventory.items[input.itemId :=
        current.(available := current.available + reservation.quantity)];
      failure := inventory.RecordStockEvent(input.itemId, Consume, input.quantity, input.unit);
      if failure.Some? {
        inventory.items := inventory.items[input.itemId := current];
        assert inventory.items == old(inventory.items);
        return;
      }
      SetReservation(id, reservation.(status := Used, version := reservation.version + 1));
    }

    /** The active reservations on the lines of the project's revisions, in insertion order. */
    method ActiveReservations(projectId: Id) returns (active: seq<Id>)
      requires Valid()
      ensures active == ActiveOf(Contents(), order, projectId)
    {
      var revisionIds := set r | r in revisions && revisions[r].projectId == projectId;
      var lineIds := set l | l in lines && lines[l].revisionId in revisionIds;
      active := [];
      for n := 0 to |order|
        invariant active == ActiveOf(Contents(), order[..n], projectId)
      {
        assert order[n] in order && order[..n + 1][..n] == order[..n];
        if reservations[order[n]].status == Active && reservations[order[n]].lineId in lineIds {
          active := active + [order[n]];
        }
      }
      assert order[..|order|] == order;
    }

    /** One turn of the release loops of archive and removal. */
    method ReleaseLogged(id: Id)
      requires Valid() && id in reservations && reservations[id].itemId in inventory.items
      modifies this`order, this`reservations, inventory
      ensures Valid() && Contents() == Spec.ReleaseLogged(old(Contents()), id)
    {
      var r := reservations[id];
      var item := inventory.items[r.itemId];
      SetReservation(id, r.(status := Released, version := r.version + 1));
      inventory.items := inventory.items[r.itemId :=
        item.(available := Min(item.quantity, item.available + r.quantity), version := item.version + 1)];
      inventory.Append(r.itemId, StockEvent(Release, r.quantity, item.version + 1, Some(id)));
    }

    method ArchiveProject(projectId: Id, expected: Option<nat>) returns (failure: Option<Error>)
      requires Valid()
      modifies this, inventory
      ensures Valid()
      ensures Did(Spec.ArchiveProject(old(Contents()), projectId, expected), old(Contents()), Contents(), failure)
      ensures archiveReceipts == Archives.ReceiptsAfter(old(archiveReceipts), old(Contents()), projectId, expected)
      ensures removalReceipts == old(removalReceipts)
    {
      hide ReleaseAll, Archives.ReceiptFor, ActiveOf, AnyItemMissing, Distinct, Archives.Compensate;
      if projectId !in projects {
        return Some(NotFound);
      }
      var current := projects[projectId];
      if Stale(current.version, expected) {
        return Some(Conflict);
      }
      if current.removed.Some? {
        return Some(ProjectRemoved);
      }
      if current.status == Archived {
        archiveReceipts := archiveReceipts - {projectId};
        return None;
      }
      var active := ActiveReservations(projectId);
      Archives.ActiveOfExact(Contents(), order, projectId);
      var missing := MissingItem(active);
      if missing {
        return Some(IntegrityError);
      }
      ItemsPresent(Contents(), active);
      var receipt := TakeReceipt(projectId, active);
      archiveReceipts := archiveReceipts[projectId := receipt];
      ReleaseEvery(active);
      projects := projects[projectId := current.(status := Archived, version := current.version + 1)];
      return None;
    }

    /** The preflight of `archiveProject` over every reservation's item. */
    method MissingItem(active: seq<Id>) returns (missing: bool)
      requires forall id :: id in active ==> id in reservations
      ensures missing == AnyItemMissing(Contents(), active)
    {
      for n := 0 to |active|
        invariant forall m :: 0 <= m < n ==> reservations[active[m]].itemId in inventory.items
      {
        assert active[n] in active;
        if reservations[active[n]].itemId !in inventory.items {
          return true;
        }
      }
      return false;
    }

    /** The snapshot of everything the release loop may write. */
    method TakeReceipt(projectId: Id, active: seq<Id>) returns (receipt: Archives.ArchiveReceipt)
      requires projectId in projects && forall id :: id in active ==> id in reservations
      ensures receipt == Archives.ReceiptFor(Contents(), projectId, active)
    {
      var affected := set id | id in active :: reservations[id].itemId;
      assert affected == Archives.AffectedItems(Contents(), active);
      return Archives.ArchiveReceipt(
          projects[projectId],
          active,
          map id | id in reservations && id in active :: reservations[id],
          map i | i in inventory.items && i in affected :: inventory.items[i],
          map i | i in affected :: if i in inventory.events then Some(inventory.events[i]) else None);
    }

    method ReleaseEvery(active: seq<Id>)
      requires Valid() && forall id :: id in active ==> id in reservations && reservations[id].itemId in inventory.items
      modifies this`order, this`reservations, inventory
      ensures Valid() && Contents() == ReleaseAll(old(Contents()), active)
    {
      hide Spec.ReleaseLogged;
      ghost var before := Contents();
      for n := 0 to |active|
        invariant Valid() && Contents() == ReleaseAll(before, active[..n])
      {
        LoopReads(before, active[..n], active[n]);
        assert active[n] in active && active[..n + 1][..n] == active[..n];
        ReleaseLogged(active[n]);
      }
      assert active[..|active|] == active;
    }

    method RollbackProjectArchive(projectId: Id)
      requires Valid()
      modifies this, inventory
      ensures Valid()
      ensures Contents() == Archives.RollbackArchive(old(Contents()), old(archiveReceipts), projectId)
      ensures archiveReceipts == old(archiveReceipts) - {projectId} && removalReceipts == old(removalReceipts)
    {
      if projectId !in archiveReceipts {
        return;
      }
      var receipt := archiveReceipts[projectId];
      projects := projects[projectId := receipt.project];
      PutBack(receipt.ids, receipt.reservations);
      inventory.items := inventory.items + receipt.items;
      var absent := set i | i in receipt.events && receipt.events[i].None?;
      var present := map i | i in receipt.events && receipt.events[i].Some? :: receipt.events[i].value;
      inventory.events := inventory.events - absent + present;
      archiveReceipts := archiveReceipts - {projectId};
    }

    method PutBack(ids: seq<Id>, rows: map<Id, Reservation>)
      requires Valid()
      modifies this`order, this`reservations
      ensures Valid() && Contents() == Archives.PutBack(old(Contents()), ids, rows)
    {
      ghost var before := Contents();
      for n := 0 to |ids|
        invariant Valid() && Contents() == Archives.PutBack(before, ids[..n], rows)
      {
        assert ids[..n + 1][..n] == ids[..n];
        if ids[n] in rows {
          SetReservation(ids[n], rows[ids[n]]);
        }
      }
      assert ids[..|ids|] == ids;
    }

    method CommitProjectArchive(projectId: Id)
      modifies this`archiveReceipts
      ensures archiveReceipts == old(archiveReceipts) - {projectId}
    {
      archiveReceipts := archiveReceipts - {projectId};
    }

    method RemoveProject(projectId: Id, expected: Option<nat>, confirmation: string) returns (failure: Option<Error>)
      requires Valid()
      modifies this, inventory
      ensures Valid() && Did(Spec.RemoveProject(old(Contents()), projectId, expected, confirmation), old(Contents()),
              Contents(), failure)
      ensures failure == None && old(projects)[projectId].removed.None? ==>
                && archiveReceipts == old(archiveReceipts) - {projectId}
                && removalReceipts == old(removalReceipts)[projectId := Archives.RemovalReceiptOf(old(Contents()))]
      ensures failure.Some? || old(projects)[projectId].removed.Some? ==>
                archiveReceipts == old(archiveReceipts) && removalReceipts == old(removalReceipts)
    {
      hide ReleaseAll, ActiveOf, AnyItemMissing;
      if projectId !in projects {
        return Some(NotFound);
      }
      var current := projects[projectId];
      if current.removed.Some? {
        return None;
      }
      if current.name != confirmation {
        return Some(Conflict);
      }
      if Stale(current.version, expected) {
        return Some(Conflict);
      }
      hide ActiveOf;
      var receipt := Archives.RemovalReceipt(projects, order, reservations, Stock(inventory.items, inventory.events));
      var active := ActiveReservations(projectId);
      Archives.ActiveOfExact(Contents(), order, projectId);
      var missing := ReleaseOrRestore(active);
      if missing {
        return Some(IntegrityError);
      }
      projects := projects[projectId := current.(removed := Some(Tombstone(current.status, active)),
        version := current.version + 1)];
      archiveReceipts := archiveReceipts - {projectId};
      removalReceipts := removalReceipts[projectId := receipt];
      return None;
    }

    /** The loop of `removeProject`: a missing item puts everything back as it was before the loop. */
    method ReleaseOrRestore(active: seq<Id>) returns (missing: bool)
      requires Valid() && forall id :: id in active ==> id in reservations
      modifies this`order, this`reservations, inventory
      ensures Valid()
      ensures missing == AnyItemMissing(old(Contents()), active)
      ensures Contents() == if missing then old(Contents()) else ReleaseAll(old(Contents()), active)
    {
      hide Spec.ReleaseLogged;
      var saved := Archives.RemovalReceipt(projects, order, reservations, Stock(inventory.items, inventory.events));
      ghost var before := Contents();
      for n := 0 to |active|
        invariant Valid() && Contents() == ReleaseAll(before, active[..n])
        invariant forall m :: 0 <= m < n ==> before.reservations[active[m]].itemId in before.stock.items
      {
        LoopReads(before, active[..n], active[n]);
        assert active[n] in active && active[..n + 1][..n] == active[..n];
        if reservations[active[n]].itemId !in inventory.items {
          order, reservations := saved.order, saved.reservations;
          inventory.items, inventory.events := saved.stock.items, saved.stock.events;
          return true;
        }
        ReleaseLogged(active[n]);
      }
      assert active[..|active|] == active;
      return false;
    }

    /** After any number of other steps, a removal receipt still restores the four saved maps. */
    method RollbackProjectRemoval(projectId: Id)
      requires Valid()
      modifies this, inventory
      ensures Valid()
      ensures projectId in old(removalReceipts) ==>
                Contents() == Archives.RollbackRemoval(old(Contents()), old(removalReceipts)[projectId])
      ensures projectId !in old(removalReceipts) ==> Contents() == old(Contents())
      ensures removalReceipts == old(removalReceipts) - {projectId}
    {
      if projectId !in removalReceipts {
        return;
      }
      var saved := removalReceipts[projectId];
      projects, order, reservations := saved.projects, saved.order, saved.reservations;
      inventory.items, inventory.events := saved.stock.items, saved.stock.events;
      removalReceipts := removalReceipts - {projectId};
    }

    method RestoreProject(projectId: Id, expected: Option<nat>) returns (failure: Option<Error>)
      modifies this`projects, this`archiveReceipts
      ensures Did(Spec.RestoreProject(old(Contents()), projectId, expected), old(Contents()), Contents(), failure)
      ensures archiveReceipts == if projects == old(projects) then old(archiveReceipts)
                else old(archiveReceipts) - {projectId}
    {
      if projectId !in projects {
        return Some(NotFound);
      }
      var current := projects[projectId];
      if Stale(current.version, expected) {
        return Some(Conflict);
      }
      if current.removed.Some? {
        return Some(ProjectRemoved);
      }
      if current.status == Archived {
        projects := projects[projectId := current.(status := Idea, version := current.version + 1)];
        archiveReceipts := archiveReceipts - {projectId};
      }
      return None;
    }

    method CreateProject(projectId: Id, name: string, slug: string, status: Status) returns (failure: Option<Error>)
      modifies this`projects, this`slugs
      ensures Did(Spec.CreateProject(old(Contents()), projectId, name, slug, status), old(Contents()), Contents(),
              failure)
    {
      if projectId in projects {
        return Some(Conflict);
      }
      projects := projects[projectId := Project(name, status, None, None, 1)];
      slugs := slugs[projectId := slug];
      return None;
    }

    /** The revision with the highest number, among the project's. */
    method PredecessorOf(projectId: Id) returns (before: Option<Revision>)
      requires Valid()
      ensures before == Latest(revisions, projectId)
    {
      var rest := revisions.Keys;
      var latest: Option<Id> := None;
      while rest != {}
        invariant rest <= revisions.Keys
        invariant latest.Some? ==> latest.value in revisions && revisions[latest.value].projectId == projectId
        invariant forall v :: v in revisions && v !in rest && revisions[v].projectId == projectId ==>
                    latest.Some? && revisions[v].number <= revisions[latest.value].number
        decreases rest
      {
        var v :| v in rest;
        if revisions[v].projectId == projectId
           && (latest.None? || revisions[v].number > revisions[latest.value].number) {
          latest := Some(v);
        }
        rest := rest - {v};
      }
      LatestUnique(revisions, projectId, latest);
      return if latest.Some? then Some(revisions[latest.value]) else None;
    }

    method CreateProjectRevision(projectId: Id, revisionId: Id, draft: RevisionDraft) returns (failure: Option<Error>)
      requires Valid()
      modifies this`revisions, this`projects
      ensures Valid()
      ensures Did(Spec.CreateRevision(old(Contents()), projectId, revisionId, draft), old(Contents()), Contents(),
              failure)
    {
      failure := CheckProjectActive(projectId);
      if failure.Some? {
        return;
      }
      var before := PredecessorOf(projectId);
      if PrinterRefused(draft, before) {
        return Some(Validation);
      }
      if revisionId in revisions {
        return Some(Conflict);
      }
      NumberIsNew(revisions, projectId, revisionId, draft);
      revisions := revisions[revisionId := Drafted(projectId, draft, before)];
      projects := projects[projectId := projects[projectId].(current := Some(revisionId))];
    }

    method UpdateProjectRevision(revisionId: Id, draft: RevisionDraft, expected: Option<nat>)
      returns (failure: Option<Error>)
      requires Valid()
      modifies this`revisions
      ensures Valid()
      ensures Did(Spec.UpdateRevision(old(Contents()), revisionId, draft, expected), old(Contents()), Contents(),
              failure)
    {
      if revisionId !in revisions {
        return Some(NotFound);
      }
      var current := revisions[revisionId];
      failure := CheckProjectActive(current.projectId);
      if failure.Some? {
        return;
      }
      if Stale(current.version, expected) {
        return Some(Conflict);
      }
      if PrinterRefused(draft, Some(current)) {
        return Some(Validation);
      }
      var route, printer := RouteOf(draft, Some(current)), PrinterOf(draft, Some(current));
      revisions := revisions[revisionId :=
        current.(route := route, printer := printer, version := current.version + 1)];
    }

    method CreateProjectWithInitialRevision(
      projectId: Id, name: string, slug: string, status: Status, revisionId: Id, draft: RevisionDraft)
      returns (failure: Option<Error>)
      requires Valid()
      modifies this`projects, this`slugs, this`revisions
      ensures Valid()
      ensures Did(Spec.CreateProjectWithRevision(old(Contents()), projectId, name, slug, status, revisionId, draft),
                  old(Contents()), Contents(), failure)
    {
      hide Latest, Drafted, NumbersDistinct, Keyed, ReceiptsKeyed;
      if PrinterRefused(draft, None) {
        return Some(Validation);
      }
      var savedProjects, savedSlugs, savedRevisions := projects, slugs, revisions;
      if projectId in projects || revisionId in revisions || exists p :: p in slugs && slugs[p] == slug {
        return Some(Conflict);
      }
      failure := CreateProject(projectId, name, slug, status);
      if failure.None? {
        failure := CreateProjectRevision(projectId, revisionId, draft);
      }
      if failure.Some? {
        projects, slugs, revisions := savedProjects, savedSlugs, savedRevisions;
      }
    }

    /** `restoreState`: put back a snapshot taken earlier. */
    method RestoreState(snapshot: State)
      requires TableOk(snapshot) && NumbersDistinct(snapshot.revisions) && ReceiptsKeyed()
      modifies this, inventory
      ensures Valid() && Contents() == snapshot
      ensures archiveReceipts == old(archiveReceipts) && removalReceipts == old(removalReceipts)
    {
      hide Distinct, TableOk, Valid, Keyed, NumbersDistinct;
      inventory.RestoreState(snapshot.stock);
      RestoreMaps(snapshot);
      ValidIsTableOk();
    }

    method RestoreMaps(snapshot: State)
      modifies this`projects, this`slugs, this`revisions, this`lines, this`order, this`reservations, this`workItems
      ensures projects == snapshot.projects && slugs == snapshot.slugs && revisions == snapshot.revisions
      ensures lines == snapshot.lines && order == snapshot.order && reservations == snapshot.reservations
      ensures workItems == snapshot.workItems
    {
      projects, slugs, revisions, lines := snapshot.projects, snapshot.slugs, snapshot.revisions, snapshot.lines;
      order, reservations, workItems := snapshot.order, snapshot.reservations, snapshot.workItems;
    }

    method SnapshotState() returns (snapshot: State)
      ensures snapshot == Contents()
    {
      return State(Stock(inventory.items, inventory.events), projects, slugs, revisions, lines, order, reservations,
        workItems);
    }

    method CreateWorkItem(projectId: Id, workItemId: Id) returns (failure: Option<Error>)
      modifies this`workItems
      ensures Did(Spec.CreateWorkItem(old(Contents()), projectId, workItemId), old(Contents()), Contents(), failure)
    {
      failure := CheckProjectActive(projectId);
      if failure.None? {
        workItems := workItems[workItemId := projectId];
      }
    }

    method CreateBomLine(revisionId: Id, lineId: Id, basis: Requirement) returns (failure: Option<Error>)
      modifies this`lines
      ensures Did(Spec.CreateLine(old(Contents()), revisionId, lineId, basis), old(Contents()), Contents(), failure)
    {
      if revisionId !in revisions {
        return Some(NotFound);
      }
      failure := CheckProjectActive(revisions[revisionId].projectId);
      if failure.None? {
        lines := lines[lineId := Line(revisionId, basis, false, 1)];
      }
    }

    method UpdateBomLine(lineId: Id, change: BasisChange, expected: Option<nat>) returns (failure: Option<Error>)
      requires Valid()
      modifies this`lines
      ensures Did(Spec.UpdateLine(old(Contents()), lineId, change, expected), old(Contents()), Contents(), failure)
    {
      if lineId !in lines {
        return Some(NotFound);
      }
      var current := lines[lineId];
      if Stale(current.version, expected) {
        return Some(Conflict);
      }
      FieldsDecide(current.basis, change);
      if ChangesField(current.basis, change) {
        var reserved := HasActiveReservation(lineId);
        if reserved {
          return Some(Conflict);
        }
      }
      lines := lines[lineId := current.(basis := Merged(current.basis, change), version := current.version + 1)];
      return None;
    }

    method HasActiveReservation(lineId: Id) returns (reserved: bool)
      requires Valid()
      ensures reserved == HasActive(Contents(), lineId)
    {
      for n := 0 to |order|
        invariant forall m :: 0 <= m < n ==>
                    reservations[order[m]].lineId != lineId || reservations[order[m]].status != Active
      {
        assert order[n] in order;
        if reservations[order[n]].lineId == lineId && reservations[order[n]].status == Active {
          return true;
        }
      }
      return false;
    }

    method RetireBomLine(lineId: Id, expected: Option<nat>) returns (failure: Option<Error>)
      requires Valid()
      modifies this`lines
      ensures Did(Spec.RetireLine(old(Contents()), lineId, expected), old(Contents()), Contents(), failure)
    {
      if lineId !in lines {
        return Some(NotFound);
      }
      var current := lines[lineId];
      if Stale(current.version, expected) {
        return Some(Conflict);
      }
      var reserved := HasActiveReservation(lineId);
      if reserved {
        return Some(Conflict);
      }
      if !current.retired {
        lines := lines[lineId := current.(retired := true, version := current.version + 1)];
      }
      return None;
    }

    method RestoreBomLine(lineId: Id, expected: Option<nat>) returns (failure: Option<Error>)
      modifies this`lines
      ensures Did(Spec.RestoreLine(old(Contents()), lineId, expected), old(Contents()), Contents(), failure)
    {
      if lineId !in lines {
        return Some(NotFound);
      }
      var current := lines[lineId];
      if Stale(current.version, expected) {
        return Some(Conflict);
      }
      if current.retired {
        lines := lines[lineId := current.(retired := false, version := current.version + 1)];
      }
      return None;
    }

    /** `updateProject` hands the two archive transitions over to their own methods. */
    method UpdateProject(projectId: Id, name: Option<string>, status: Option<Status>, expected: Option<nat>)
      returns (failure: Option<Error>)
      requires Valid()
      modifies this, inventory
      ensures Valid()
      ensures Did(Spec.UpdateProject(old(Contents()), projectId, name, status, expected), old(Contents()), Contents(),
              failure)
      ensures archiveReceipts ==
              if projectId !in old(projects) || old(projects)[projectId].removed.Some? then old(archiveReceipts)
              else if status == Some(Archived) then Archives.ReceiptsAfter(old(archiveReceipts), old(Contents()),
                projectId, expected)
              else if status == Some(Idea) && old(projects)[projectId].status == Archived && failure.None? then
                old(archiveReceipts) - {projectId}
              else old(archiveReceipts)
      ensures removalReceipts == old(removalReceipts)
    {
      hide Distinct, Spec.ArchiveProject, Archives.ReceiptsAfter;
      if projectId !in projects {
        return Some(NotFound);
      }
      var current := projects[projectId];
      if current.removed.Some? {
        return Some(ProjectRemoved);
      }
      if status == Some(Archived) {
        failure := ArchiveProject(projectId, expected);
        return;
      }
      if status == Some(Idea) && current.status == Archived {
        failure := RestoreProject(projectId, expected);
        return;
      }
      if Stale(current.version, expected) {
        return Some(Conflict);
      }
      var next := if status.Some? then status.value else current.status;
      var renamed := if name.Some? then name.value else current.name;
      projects := projects[projectId := current.(name := renamed, status := next, version := current.version + 1)];
      return None;
    }
  }
}
