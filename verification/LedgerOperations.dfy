/** Every single operation keeps the ledger's invariant and accounts for the manual allocation. */
module LedgerOperations {
  import opened Outcomes
  import opened Tables
  import opened LedgerModel
  import opened LedgerInvariant

  // ---------- inventory ----------

  lemma CreateItemKeeps(
    s: State, itemId: Id, quantity: real, available: Option<real>, unit: Unit, evidence: Evidence, facts: set<string>)
    requires Inv(s) && 0.0 <= quantity && (available.Some? ==> 0.0 <= available.value)
    requires CreateItem(s.stock, itemId, quantity, available, unit, evidence, facts).Ok?
    ensures var t := s.(stock := CreateItem(s.stock, itemId, quantity, available, unit, evidence, facts).value);
            && Inv(t)
            && forall i :: Manual(t, i) == Manual(s, i) +
                 if i == itemId && CanCount(evidence) && available.Some? then Max(0.0, quantity - available.value)
                   else 0.0
  {
    NothingReserved(s, itemId);
    StockChange(s, CreateItem(s.stock, itemId, quantity, available, unit, evidence, facts).value);
  }

  lemma RollbackCreatedItemKeeps(s: State, itemId: Id)
    requires Inv(s) && RollbackCreatedItem(s.stock, itemId).Ok?
    ensures var t := s.(stock := RollbackCreatedItem(s.stock, itemId).value);
            && Inv(t)
            && forall i :: Manual(t, i) == if i == itemId then 0.0 else Manual(s, i)
  {
    StockChange(s, RollbackCreatedItem(s.stock, itemId).value);
  }

  lemma RetireItemKeeps(s: State, itemId: Id, expected: Option<nat>)
    requires Inv(s) && RetireItem(s.stock, itemId, expected).Ok?
    ensures var t := s.(stock := RetireItem(s.stock, itemId, expected).value);
            Inv(t) && forall i :: Manual(t, i) == Manual(s, i)
  {
    var stock := RetireItem(s.stock, itemId, expected).value;
    ItemChange(s, itemId, stock.items[itemId], stock);
  }

  lemma UpdateItemKeeps(s: State, itemId: Id, facts: set<string>, expected: Option<nat>)
    requires Inv(s) && UpdateItem(s.stock, itemId, facts, expected).Ok?
    ensures var t := s.(stock := UpdateItem(s.stock, itemId, facts, expected).value);
            Inv(t) && forall i :: Manual(t, i) == Manual(s, i)
  {
    var stock := UpdateItem(s.stock, itemId, facts, expected).value;
    ItemChange(s, itemId, stock.items[itemId], stock);
  }

  /** A count moves what is on hand and available together; the first count of an unconfirmed item opens no gap. */
  lemma RecordCountKeeps(s: State, itemId: Id, quantity: real, commissioning: Option<Unit>, expected: Option<nat>)
    requires Inv(s) && RecordCount(s.stock, itemId, quantity, commissioning, expected).Ok?
    ensures var t := s.(stock := RecordCount(s.stock, itemId, quantity, commissioning, expected).value);
            Inv(t) && forall i :: Manual(t, i) == Manual(s, i)
  {
    ReservedNonNegative(s, itemId);
    if !CanCount(s.stock.items[itemId].evidence) {
      NothingReserved(s, itemId);
    }
    var stock := RecordCount(s.stock, itemId, quantity, commissioning, expected).value;
    ItemChange(s, itemId, stock.items[itemId], stock);
  }

  /**
   A hand-written release may be recorded without touching stock promised to reservations exactly when it
   returns no more than was set aside by hand, or nothing is reserved; on unconfirmed stock, only when none is on hand.
   */
  predicate HandReleaseSafe(s: State, itemId: Id, quantity: real)
    requires itemId in s.stock.items
  {
    var item := s.stock.items[itemId];
    if CanCount(item.evidence) then quantity <= Manual(s, itemId) || Reserved(s, itemId) == 0.0
    else item.quantity == 0.0
  }

  /** The code does not check this, and the invariant survives a hand-written release if and only if it holds. */
  lemma HandReleaseKeepsIff(s: State, itemId: Id, quantity: real, unit: Unit)
    requires Inv(s) && RecordStockEvent(s.stock, itemId, Release, quantity, unit).Ok?
    ensures Inv(s.(stock := RecordStockEvent(s.stock, itemId, Release, quantity, unit).value))
       <==> HandReleaseSafe(s, itemId, quantity)
  {
    EventShape(s.stock, itemId, Release, quantity, unit);
    ReservedNonNegative(s, itemId);
    GapOf(s, itemId);
    if !CanCount(s.stock.items[itemId].evidence) {
      NothingReserved(s, itemId);
    }
    var stock := RecordStockEvent(s.stock, itemId, Release, quantity, unit).value;
    var t := s.(stock := stock);
    assert Reserved(t, itemId) == Reserved(s, itemId);
    hide Inv, Reserved, RecordStockEvent;
    if HandReleaseSafe(s, itemId, quantity) {
      ItemChange(s, itemId, stock.items[itemId], stock);
    } else if Inv(t) {
      GapOf(t, itemId);
    }
  }

  /** How a hand-written event moves the manual allocation of its item. */
  function HandMoved(s: State, itemId: Id, kind: EventKind, quantity: real): real
    requires itemId in s.stock.items
  {
    match kind
    case Allocate => quantity
    case Release => -Min(quantity, s.stock.items[itemId].quantity - s.stock.items[itemId].available)
    case _ => 0.0
  }

  lemma EventShape(stock: Stock, itemId: Id, kind: EventKind, quantity: real, unit: Unit)
    requires RecordStockEvent(stock, itemId, kind, quantity, unit).Ok? && !kind.Count?
    ensures itemId in stock.items && quantity > 0.0
    ensures kind in {Allocate, Consume, Loss, Dispose} ==> quantity <= stock.items[itemId].available
    ensures var item := stock.items[itemId];
            RecordStockEvent(stock, itemId, kind, quantity, unit).value.items ==
            stock.items[itemId := Moved(item, kind, quantity).(version := item.version + 1)]
  {
  }

  lemma StockEventKeeps(s: State, itemId: Id, kind: EventKind, quantity: real, unit: Unit)
    requires Inv(s) && RecordStockEvent(s.stock, itemId, kind, quantity, unit).Ok?
    requires kind == Release ==> HandReleaseSafe(s, itemId, quantity)
    ensures var t := s.(stock := RecordStockEvent(s.stock, itemId, kind, quantity, unit).value);
            && Inv(t)
            && forall i :: Manual(t, i) == Manual(s, i) +
                 if i == itemId && CanCount(s.stock.items[i].evidence) then HandMoved(s, itemId, kind, quantity)
                   else 0.0
  {
    if kind == Count {
      RecordCountKeeps(s, itemId, quantity, None, None);
    } else {
      EventShape(s.stock, itemId, kind, quantity, unit);
      ReservedNonNegative(s, itemId);
      GapOf(s, itemId);
      if !CanCount(s.stock.items[itemId].evidence) {
        NothingReserved(s, itemId);
      }
      hide Inv, Reserved, RecordStockEvent;
      var stock := RecordStockEvent(s.stock, itemId, kind, quantity, unit).value;
      ItemChange(s, itemId, stock.items[itemId], stock);
    }
  }

  // ---------- reservations ----------

  /** What a reservation does to the table, whether its id is new or not. */
  lemma ReserveRow(s: State, input: ReservationInput)
    requires input.itemId in s.stock.items
    ensures var t := Reserve(s, input);
            && t.reservations == s.reservations[input.id :=
              Reservation(input.lineId, input.itemId, input.quantity, Active, 1)]
            && t.order == if input.id in s.reservations then s.order else s.order + [input.id]
  {
  }

  lemma ReserveSums(s: State, input: ReservationInput)
    requires TableOk(s) && input.itemId in s.stock.items && input.quantity > 0.0
    ensures forall i :: Reserved(Reserve(s, input), i) == Reserved(s, i)
              + (if i == input.itemId then input.quantity else 0.0)
              - (if input.id in s.reservations then HeldFrom(i)(s.reservations[input.id]) else 0.0)
  {
    var t := Reserve(s, input);
    var row := Reservation(input.lineId, input.itemId, input.quantity, Active, 1);
    ReserveRow(s, input);
    hide Reserve, Sum;
    forall i
      ensures Reserved(t, i) == Reserved(s, i)
              + (if i == input.itemId then input.quantity else 0.0)
              - (if input.id in s.reservations then HeldFrom(i)(s.reservations[input.id]) else 0.0)
    {
      if input.id in s.reservations {
        SumReplace(s.order, s.reservations, HeldFrom(i), input.id, row);
      } else {
        SumAppend(s.order, s.reservations, HeldFrom(i), input.id, row);
      }
    }
  }

  lemma ReserveManual(s: State, input: ReservationInput)
    requires TableOk(s) && input.itemId in s.stock.items && input.quantity > 0.0
    requires CanCount(s.stock.items[input.itemId].evidence)
    ensures forall i :: i in s.stock.items && CanCount(s.stock.items[i].evidence) ==>
              Manual(Reserve(s, input), i) == Manual(s, i)
                + if input.id in s.reservations then HeldFrom(i)(s.reservations[input.id]) else 0.0
    ensures forall i :: i !in s.stock.items || !CanCount(s.stock.items[i].evidence) ==>
              Manual(Reserve(s, input), i) == Manual(s, i)
  {
    ReserveSums(s, input);
  }

  lemma RefusalNone(s: State, revisionId: Id, input: ReservationInput)
    requires CreateReservation(s, revisionId, input).Ok?
    ensures revisionId in s.revisions && Inactive(s, s.revisions[revisionId].projectId) == None
    ensures input.lineId in s.lines && s.lines[input.lineId].revisionId == revisionId
    ensures s.lines[input.lineId].basis.role == Consumed && Approved(s.lines[input.lineId].basis, input.itemId)
    ensures Live(s.stock, input.itemId) && CanCount(s.stock.items[input.itemId].evidence)
    ensures 0.0 < input.quantity <= s.stock.items[input.itemId].available
    ensures var basis, unit := s.lines[input.lineId].basis, s.stock.items[input.itemId].unit;
            && Readable(basis, input.itemId, unit, input.quantity)
            && input.quantity <= Room(basis.required, Coverage(s, input.lineId, basis),
              PerUnit(basis, input.itemId, unit)) as real
    ensures CreateReservation(s, revisionId, input).value == Reserve(s, input)
  {
  }

  /**
   `createReservation` never checks that a caller-supplied id is new. Stock is conserved if and only if the id
   does not overwrite an active reservation, whose stock would otherwise be lost to the gap.
   */
  lemma ReserveConservesIff(s: State, revisionId: Id, input: ReservationInput)
    requires Inv(s) && CreateReservation(s, revisionId, input).Ok?
    ensures (forall i :: Manual(CreateReservation(s, revisionId, input).value, i) == Manual(s, i))
       <==> !(input.id in s.reservations && s.reservations[input.id].status == Active)
  {
    RefusalNone(s, revisionId, input);
    ReserveManual(s, input);
    if input.id in s.reservations && s.reservations[input.id].status == Active {
      var lost := s.reservations[input.id];
      HeldIsReturnable(s, input.id);
      assert Manual(Reserve(s, input), lost.itemId) == Manual(s, lost.itemId) + lost.quantity;
    }
  }

  /** `ceil` lets a reservation overshoot the requirement by less than one unit of the reserved item. */
  lemma OvershootBelowOneUnit(required: real, covered: real, factor: Factor, quantity: real)
    requires 0.0 <= covered && 0.0 < quantity <= Room(required, covered, factor) as real
    ensures covered + quantity * factor as real < required + factor as real
  {
    var rest, f := Max(0.0, required - covered), factor as real;
    RatioCancels(rest, f);
    assert quantity < rest / f + 1.0;
    ProductBelow(quantity, rest / f + 1.0, f);
    assert (rest / f + 1.0) * f == rest / f * f + f;
    NoRoomLeft(required, covered, factor);
  }

  lemma NoRoomLeft(required: real, covered: real, factor: Factor)
    ensures required <= covered ==> Room(required, covered, factor) == 0
  {
    if required <= covered {
      assert Max(0.0, required - covered) / factor as real == 0.0;
    }
  }

  lemma RatioCancels(x: real, f: real)
    requires f > 0.0
    ensures x / f * f == x
  {
  }

  lemma ProductBelow(x: real, y: real, f: real)
    requires x < y && f > 0.0
    ensures x * f < y * f
  {
  }

  lemma ReserveOnLine(basis: Requirement, covered: real, itemId: Id, unit: Unit, quantity: real)
    requires 0.0 <= covered && 0.0 < quantity <= Room(basis.required, covered, PerUnit(basis, itemId, unit)) as real
    ensures covered + InLineUnit(basis, itemId, unit, quantity)
          < CoverageLimit(basis)
  {
    OvershootBelowOneUnit(basis.required, covered, PerUnit(basis, itemId, unit), quantity);
    PerUnitBounded(basis, itemId, unit);
  }

  lemma SameUnits(items: map<Id, Item>, itemId: Id, after: Item)
    requires itemId in items && after.unit == items[itemId].unit
    ensures Units(items[itemId := after]) == Units(items)
  {
  }

  /** The parts of the state that coverage looks at, after a reservation under a new id. */
  lemma ReserveShape(s: State, input: ReservationInput)
    requires input.id !in s.reservations && input.itemId in s.stock.items
    ensures var t := Reserve(s, input);
            && t.order == s.order + [input.id] && t.lines == s.lines
            && t.reservations == s.reservations[input.id :=
              Reservation(input.lineId, input.itemId, input.quantity, Active, 1)]
            && Units(t.stock.items) == Units(s.stock.items)
  {
    SameUnits(s.stock.items, input.itemId, Reserve(s, input).stock.items[input.itemId]);
  }

  lemma ReserveCoverage(s: State, input: ReservationInput, l: Id, basis: Requirement)
    requires TableOk(s) && input.id !in s.reservations && input.itemId in s.stock.items
    ensures Coverage(Reserve(s, input), l, basis) == Coverage(s, l, basis)
          + if l == input.lineId
            then InLineUnit(basis, input.itemId, s.stock.items[input.itemId].unit, input.quantity)
            else 0.0
  {
    ReserveShape(s, input);
    hide Reserve, Sum, InLineUnit;
    var row := Reservation(input.lineId, input.itemId, input.quantity, Active, 1);
    SumAppend(s.order, s.reservations, CoverageOn(l, basis, Units(s.stock.items)), input.id, row);
  }

  lemma ReserveCoverageOk(s: State, input: ReservationInput)
    requires TableOk(s) && CoverageOk(s) && input.id !in s.reservations
    requires input.itemId in s.stock.items && input.lineId in s.lines
    requires var basis, unit := s.lines[input.lineId].basis, s.stock.items[input.itemId].unit;
             && 0.0 <= Coverage(s, input.lineId, basis)
             && 0.0 < input.quantity <= Room(basis.required, Coverage(s, input.lineId, basis),
               PerUnit(basis, input.itemId, unit)) as real
    ensures CoverageOk(Reserve(s, input))
  {
    var t := Reserve(s, input);
    ReserveShape(s, input);
    hide Reserve, Coverage, PerUnit, InLineUnit, Room, CoverageLimit, TableOk, Units;
    forall l | l in t.lines
      ensures Coverage(t, l, t.lines[l].basis)
           < CoverageLimit(t.lines[l].basis)
    {
      var basis := t.lines[l].basis;
      ReserveCoverage(s, input, l, basis);
      if l == input.lineId {
        ReserveOnLine(basis, Coverage(s, l, basis), input.itemId, s.stock.items[input.itemId].unit, input.quantity);
      }
    }
  }

  lemma ReserveReservations(s: State, input: ReservationInput)
    requires GraphOk(s) && ReservationsOk(s) && input.id !in s.reservations && input.quantity > 0.0
    requires input.lineId in s.lines && s.lines[input.lineId].basis.role == Consumed
    requires Approved(s.lines[input.lineId].basis, input.itemId)
    requires Inactive(s, s.revisions[s.lines[input.lineId].revisionId].projectId) == None
    requires Live(s.stock, input.itemId) && ItemOk(s.stock.items[input.itemId])
    requires CanCount(s.stock.items[input.itemId].evidence)
    requires Readable(s.lines[input.lineId].basis, input.itemId, s.stock.items[input.itemId].unit, input.quantity)
    ensures GraphOk(Reserve(s, input)) && ReservationsOk(Reserve(s, input))
  {
    var t := Reserve(s, input);
    forall k | k in t.reservations && t.reservations[k].status == Active ensures ActiveOk(t, t.reservations[k]) {
      if k != input.id {
        assert ActiveOk(s, s.reservations[k]);
      }
    }
  }

  lemma ReserveBooks(s: State, input: ReservationInput)
    requires TableOk(s) && BooksOk(s) && input.id !in s.reservations
    requires input.itemId in s.stock.items && 0.0 < input.quantity <= s.stock.items[input.itemId].available
    ensures TableOk(Reserve(s, input)) && BooksOk(Reserve(s, input))
  {
    ReserveSums(s, input);
  }

  lemma ReserveKeeps(s: State, revisionId: Id, input: ReservationInput)
    requires Inv(s) && input.id !in s.reservations && CreateReservation(s, revisionId, input).Ok?
    ensures Inv(CreateReservation(s, revisionId, input).value)
    ensures forall i :: Manual(CreateReservation(s, revisionId, input).value, i) == Manual(s, i)
  {
    RefusalNone(s, revisionId, input);
    CoverageNonNegative(s, input.lineId, s.lines[input.lineId].basis);
    ReserveManual(s, input);
    ReserveBooks(s, input);
    ReserveReservations(s, input);
    ReserveCoverageOk(s, input);
  }

  lemma ReleaseSettles(s: State, id: Id, expected: Option<nat>)
    requires Returnable(s, id) && ReleaseReservation(s, id, expected).Ok?
    ensures Settles(s, id, ReleaseReservation(s, id, expected).value)
  {
  }

  lemma ReleaseKeeps(s: State, id: Id, expected: Option<nat>)
    requires Inv(s) && ReleaseReservation(s, id, expected).Ok?
    ensures Inv(ReleaseReservation(s, id, expected).value)
    ensures forall i :: Manual(ReleaseReservation(s, id, expected).value, i) == Manual(s, i)
  {
    HeldIsReturnable(s, id);
    ReleaseSettles(s, id, expected);
    Settle(s, id, ReleaseReservation(s, id, expected).value);
  }

  lemma UsageSettles(s: State, input: UsageInput)
    requires input.reservationId.Some? && RecordUsage(s, input).Ok? && Returnable(s, input.reservationId.value)
    ensures Settles(s, input.reservationId.value, RecordUsage(s, input).value)
  {
  }

  lemma UsageKeeps(s: State, input: UsageInput)
    requires Inv(s) && RecordUsage(s, input).Ok?
    ensures Inv(RecordUsage(s, input).value)
    ensures forall i :: Manual(RecordUsage(s, input).value, i) == Manual(s, i)
  {
    var id := input.reservationId.value;
    HeldIsReturnable(s, id);
    UsageSettles(s, input);
    Settle(s, id, RecordUsage(s, input).value);
  }

  /** Usage takes the reserved quantity off what is on hand and leaves what is available as it was. */
  lemma UsageTakesReservedStock(s: State, input: UsageInput)
    requires RecordUsage(s, input).Ok?
    ensures var t := RecordUsage(s, input).value;
            && input.itemId in s.stock.items
            && t.stock.items == s.stock.items[input.itemId := s.stock.items[input.itemId].(
                 quantity := s.stock.items[input.itemId].quantity - input.quantity,
                 version := s.stock.items[input.itemId].version + 1)]
            && EventsOf(t.stock, input.itemId) ==
               EventsOf(s.stock, input.itemId)
               + [StockEvent(Consume, input.quantity, s.stock.items[input.itemId].version + 1, None)]
  {
  }

  /** Under the invariant, using an active reservation in full and in the item's unit is never refused. */
  lemma UsageSucceeds(s: State, input: UsageInput)
    requires Inv(s)
    requires input.reservationId.Some? && ActiveIn(s, input.reservationId.value, input.projectId)
    requires var r := s.reservations[input.reservationId.value];
             && r.itemId == input.itemId && r.quantity == input.quantity
             && (input.itemId in s.stock.items ==> input.unit == s.stock.items[input.itemId].unit)
    ensures RecordUsage(s, input).Ok?
  {
    var id := input.reservationId.value;
    assert ActiveOk(s, s.reservations[id]);
  }

  // ---------- archive and removal ----------

  /** One turn of the archive loop is a plain release, plus its event: the clamp is never active. */
  lemma ReleaseLoggedIsRelease(s: State, id: Id)
    requires Returnable(s, id)
    ensures ReleaseReservation(s, id, None).Ok?
    ensures var t := ReleaseLogged(s, id);
            var plain := ReleaseReservation(s, id, None).value;
            t == plain.(stock := plain.stock.(events := t.stock.events))
    ensures Settles(s, id, ReleaseLogged(s, id))
  {
  }

  lemma ReleaseLoggedKeeps(s: State, id: Id)
    requires Inv(s) && id in s.reservations && s.reservations[id].status == Active
    ensures Inv(ReleaseLogged(s, id))
    ensures forall i :: Manual(ReleaseLogged(s, id), i) == Manual(s, i)
  {
    HeldIsReturnable(s, id);
    ReleaseLoggedIsRelease(s, id);
    Settle(s, id, ReleaseLogged(s, id));
  }
}
