/**
 What the inventory calls answer, as conditions on the item and the request, and what they then do to item and log.
 */
module StockAnswers {
  import opened Outcomes
  import opened Tables
  import opened LedgerModel
  import opened LedgerInvariant

  predicate Confirmed(evidence: Evidence) {
    evidence == PhysicallyCounted || evidence == Commissioned
  }

  /** The item is in use. */
  predicate InUse(stock: Stock, itemId: Id) {
    itemId in stock.items && !stock.items[itemId].retired
  }

  /** The caller expects no version, or the current one. */
  predicate UpToDate(version: nat, expected: Option<nat>) {
    expected == None || expected == Some(version)
  }

  /** One item moved on by one version, and its log by these entries. */
  ghost predicate MovesOn(before: Stock, after: Stock, itemId: Id, entries: seq<StockEvent>) {
    && itemId in before.items && OnlyAt(before.items, after.items, itemId)
    && after.items[itemId].version == before.items[itemId].version + 1
    && after.items[itemId].unit == before.items[itemId].unit
    && (if entries == [] then after.events == before.events else OnlyAt(before.events, after.events, itemId))
    && EventsOf(after, itemId) == EventsOf(before, itemId) + entries
  }

  // ---------- creation ----------

  /** Only the id must be new. Confirmed stock is logged as counted and, where less is offered, as partly set aside. */
  lemma CreateAnswers(
    stock: Stock, itemId: Id, quantity: real, available: Option<real>, unit: Unit, evidence: Evidence,
    facts: set<string>)
    ensures var answer := CreateItem(stock, itemId, quantity, available, unit, evidence, facts);
            && (answer.Ok? <==> itemId !in stock.items)
            && (answer.Err? ==> answer == Err(Conflict))
            && (answer.Ok? ==>
                  var item := answer.value.items[itemId];
                  var less := available.Some? && available.value < quantity;
                  && OnlyAt(stock.items, answer.value.items, itemId)
                  && item == Item(quantity, item.available, unit, evidence, false, facts, 1)
                  && item.available ==
                     (if !Confirmed(evidence) then 0.0 else if less then available.value else quantity)
                  && (!Confirmed(evidence) ==> answer.value.events == stock.events)
                  && (Confirmed(evidence) ==>
                        && OnlyAt(stock.events, answer.value.events, itemId)
                        && answer.value.events[itemId] ==
                           if less
                           then
                             [StockEvent(Count, quantity, 1, None),
                              StockEvent(Allocate, quantity - available.value, 1, None)]
                           else [StockEvent(Count, quantity, 1, None)]))
  {
    var answer := CreateItem(stock, itemId, quantity, available, unit, evidence, facts);
    if answer.Ok? {
      assert answer.value.items.Keys == stock.items.Keys + {itemId};
    }
  }

  /** A created item can be taken back as long as nothing happened to it, and only as long. */
  lemma CreateThenRollback(
    stock: Stock, itemId: Id, quantity: real, available: Option<real>, unit: Unit, evidence: Evidence,
    facts: set<string>)
    requires itemId !in stock.items && itemId !in stock.events
    ensures var created := CreateItem(stock, itemId, quantity, available, unit, evidence, facts);
            created.Ok? && RollbackCreatedItem(created.value, itemId) == Ok(stock)
  {
    var created := CreateItem(stock, itemId, quantity, available, unit, evidence, facts).value;
    assert created.items - {itemId} == stock.items && created.events - {itemId} == stock.events;
  }

  lemma RollbackAnswers(stock: Stock, itemId: Id)
    ensures var answer := RollbackCreatedItem(stock, itemId);
            && (answer == Err(IntegrityError) <==> itemId in stock.items && stock.items[itemId].version != 1)
            && (answer.Err? ==> answer == Err(IntegrityError))
            && (answer.Ok? && itemId !in stock.items ==> answer.value == stock)
            && (answer.Ok? && itemId in stock.items ==>
                  && answer.value.items.Keys == stock.items.Keys - {itemId}
                  && answer.value.events.Keys == stock.events.Keys - {itemId}
                  && (forall i :: i in answer.value.items ==> answer.value.items[i] == stock.items[i])
                  && (forall i :: i in answer.value.events ==> answer.value.events[i] == stock.events[i]))
  {
  }

  // ---------- retirement and description ----------

  /** An item is retired by whoever knows its version, once nothing of its confirmed stock is set aside. */
  lemma RetireAnswers(stock: Stock, itemId: Id, expected: Option<nat>)
    ensures var answer := RetireItem(stock, itemId, expected);
            && (answer == Err(NotFound) <==> !InUse(stock, itemId))
            && (answer.Err? ==> answer.error in {NotFound, Conflict})
            && (answer.Ok? <==>
                  && InUse(stock, itemId) && UpToDate(stock.items[itemId].version, expected)
                  && (Confirmed(stock.items[itemId].evidence) ==>
                        stock.items[itemId].quantity <= stock.items[itemId].available))
            && (answer.Ok? ==>
                  && MovesOn(stock, answer.value, itemId, [])
                  && var before, after := stock.items[itemId], answer.value.items[itemId];
                     after.retired && before == after.(retired := before.retired, version := before.version))
  {
  }

  /** In a sound ledger that is: once nothing of it is reserved or set aside by hand. */
  lemma RetiredWhenFree(s: State, itemId: Id)
    requires Inv(s) && InUse(s.stock, itemId)
    ensures RetireItem(s.stock, itemId, None).Ok? <==> Reserved(s, itemId) == 0.0 && Manual(s, itemId) == 0.0
  {
    ReservedNonNegative(s, itemId);
    GapOf(s, itemId);
    if !Confirmed(s.stock.items[itemId].evidence) {
      NothingReserved(s, itemId);
    }
  }

  lemma DescribeAnswers(stock: Stock, itemId: Id, facts: set<string>, expected: Option<nat>)
    ensures var answer := UpdateItem(stock, itemId, facts, expected);
            && (answer == Err(NotFound) <==> !InUse(stock, itemId))
            && (answer == Err(Conflict) <==>
                  InUse(stock, itemId) && !UpToDate(stock.items[itemId].version, expected))
            && (answer.Err? ==> answer.error in {NotFound, Conflict})
            && (answer.Ok? ==>
                  && MovesOn(stock, answer.value, itemId, [])
                  && var before, after := stock.items[itemId], answer.value.items[itemId];
                     after.facts == facts && before == after.(facts := before.facts, version := before.version))
  {
  }

  // ---------- counts ----------

  /** What a count finds: what is set aside stays set aside, and the first count of an item sets nothing aside. */
  ghost predicate CountedAs(before: Item, after: Item, quantity: real, commissioned: bool) {
    && after.quantity == quantity
    && after.quantity - after.available ==
      (if Confirmed(before.evidence) then before.quantity - before.available else 0.0)
    && after.evidence == (if commissioned then Commissioned else PhysicallyCounted)
    && after == before.(quantity := after.quantity, available := after.available, evidence := after.evidence,
                        version := after.version)
  }

  /**
   A count is accepted down to what is set aside. Commissioning is for items that were never confirmed, in their own
   unit.
   */
  lemma CountAnswers(stock: Stock, itemId: Id, quantity: real, commissioning: Option<Unit>, expected: Option<nat>)
    ensures var answer := RecordCount(stock, itemId, quantity, commissioning, expected);
            && (answer == Err(NotFound) <==> !InUse(stock, itemId))
            && (answer.Err? ==> answer.error in {NotFound, Validation, Conflict})
            && (InUse(stock, itemId) ==>
                  var item := stock.items[itemId];
                  var wrongUnit := commissioning.Some? && !Confirmed(item.evidence) && commissioning.value != item.unit;
                  && (answer == Err(Validation) <==> quantity < 0.0 || wrongUnit)
                  && (answer.Ok? <==>
                        && 0.0 <= quantity && !wrongUnit && UpToDate(item.version, expected)
                        && (Confirmed(item.evidence) ==>
                              commissioning == None && item.quantity - item.available <= quantity)))
            && (answer.Ok? ==>
                  && MovesOn(stock, answer.value, itemId,
                       [StockEvent(Count, quantity, stock.items[itemId].version + 1, None)])
                  && CountedAs(stock.items[itemId], answer.value.items[itemId], quantity, commissioning.Some?))
  {
  }

  // ---------- other events ----------

  /** Stock comes in, and into use where the item is confirmed. */
  predicate ComesIn(kind: EventKind) {
    kind == Receipt || kind == Return || kind == Correction
  }

  /** Stock goes out of the house. */
  predicate GoesOut(kind: EventKind) {
    kind == Consume || kind == Loss || kind == Dispose
  }

  ghost predicate MovedAs(before: Item, after: Item, kind: EventKind, quantity: real) {
    && after.quantity - before.quantity ==
       (if ComesIn(kind) then quantity else if GoesOut(kind) then -quantity else 0.0)
    && (GoesOut(kind) || kind == Allocate ==> after.available == before.available - quantity)
    && (ComesIn(kind) ==> after.available - before.available == if Confirmed(before.evidence) then quantity else 0.0)
    && (kind == Release ==>
          && after.available <= before.quantity && after.available <= before.available + quantity
          && (after.available == before.quantity || after.available == before.available + quantity))
    && before == after.(quantity := before.quantity, available := before.available, version := before.version)
  }

  /** Every event must be positive and in the item's unit, and what is set aside or goes out must be available. */
  lemma EventAnswers(stock: Stock, itemId: Id, kind: EventKind, quantity: real, unit: Unit)
    requires kind != Count
    ensures var answer := RecordStockEvent(stock, itemId, kind, quantity, unit);
            && (answer == Err(NotFound) <==> !InUse(stock, itemId))
            && (answer == Err(Validation) <==>
                  InUse(stock, itemId) && (quantity <= 0.0 || unit != stock.items[itemId].unit))
            && (answer.Err? ==> answer.error in {NotFound, Validation, Conflict})
            && (answer.Ok? <==>
                  && InUse(stock, itemId) && quantity > 0.0 && unit == stock.items[itemId].unit
                  && (GoesOut(kind) || kind == Allocate ==> quantity <= stock.items[itemId].available))
            && (answer.Ok? ==>
                  && MovesOn(stock, answer.value, itemId,
                       [StockEvent(kind, quantity, stock.items[itemId].version + 1, None)])
                  && MovedAs(stock.items[itemId], answer.value.items[itemId], kind, quantity))
  {
    match kind
    case Receipt =>
    case Return =>
    case Correction =>
    case Allocate =>
    case Consume =>
    case Loss =>
    case Dispose =>
    case Release =>
    case Count =>
  }

  /** A count event in the item's unit is an ordinary count, with no version expected. */
  lemma CountEventIsCount(stock: Stock, itemId: Id, quantity: real, unit: Unit)
    ensures var answer := RecordStockEvent(stock, itemId, Count, quantity, unit);
            && (InUse(stock, itemId) && unit != stock.items[itemId].unit ==> answer == Err(Validation))
            && (!InUse(stock, itemId) || unit == stock.items[itemId].unit ==>
                  answer == RecordCount(stock, itemId, quantity, None, None))
  {
  }
}
