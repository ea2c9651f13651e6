/**
 The invariant of the stock ledger. The gap between what is on hand and what is available covers the
 active reservations; the rest of the gap is stock that was set aside by hand.
 */
module LedgerInvariant {
  import opened Outcomes
  import opened Tables
  import opened LedgerModel

  function HeldFrom(itemId: Id): Reservation -> real {
    (r: Reservation) => if r.status == Active && r.itemId == itemId then r.quantity else 0.0
  }

  /** Total quantity of an item promised to active reservations. */
  function Reserved(s: State, itemId: Id): real {
    Sum(s.order, s.reservations, HeldFrom(itemId))
  }

  /** Stock set aside by hand-written `allocate` events: what the reservations do not explain. */
  function Manual(s: State, itemId: Id): real {
    if itemId in s.stock.items && CanCount(s.stock.items[itemId].evidence)
    then s.stock.items[itemId].quantity - s.stock.items[itemId].available - Reserved(s, itemId)
    else 0.0
  }

  /** The largest factor on a line, at least 1. */
  function MaxFactor(alternatives: seq<Alternative>): Factor {
    if alternatives == [] then 1
    else
      var rest := MaxFactor(alternatives[1..]);
      var a := alternatives[0];
      if a.conversion.Some? && a.conversion.value.factor > rest then a.conversion.value.factor else rest
  }

  /** What the coverage of a line stays below: its requirement and one package more. */
  function CoverageLimit(basis: Requirement): real {
    Max(0.0, basis.required) + MaxFactor(basis.alternatives) as real
  }

  // ---------- the invariant ----------

  ghost predicate TableOk(s: State) {
    Distinct(s.order) && forall id :: id in s.order <==> id in s.reservations
  }

  ghost predicate GraphOk(s: State) {
    && (forall v :: v in s.revisions ==> s.revisions[v].projectId in s.projects)
    && (forall l :: l in s.lines ==> s.lines[l].revisionId in s.revisions)
  }

  ghost predicate ItemOk(item: Item) {
    && 0.0 <= item.available <= item.quantity
    && 1 <= item.version
    && (!CanCount(item.evidence) ==> item.available == 0.0)
  }

  /** What an active reservation points at: unretired, confirmed stock on a consumed line of an open project. */
  ghost predicate ActiveOk(s: State, r: Reservation)
    requires GraphOk(s) && r.lineId in s.lines
  {
    var line := s.lines[r.lineId];
    && Live(s.stock, r.itemId)
    && CanCount(s.stock.items[r.itemId].evidence)
    && s.stock.items[r.itemId].version >= 2
    && line.basis.role == Consumed && Approved(line.basis, r.itemId)
    && Inactive(s, s.revisions[line.revisionId].projectId) == None
    && Readable(line.basis, r.itemId, s.stock.items[r.itemId].unit, r.quantity)
  }

  ghost predicate ReservationsOk(s: State)
    requires GraphOk(s)
  {
    forall id :: id in s.reservations ==>
      && s.reservations[id].quantity > 0.0
      && s.reservations[id].lineId in s.lines
      && (s.reservations[id].status == Active ==> ActiveOk(s, s.reservations[id]))
  }

  ghost predicate BooksOk(s: State) {
    forall i :: i in s.stock.items ==>
      && ItemOk(s.stock.items[i])
      && (CanCount(s.stock.items[i].evidence) ==>
            Reserved(s, i) <= s.stock.items[i].quantity - s.stock.items[i].available)
  }

  /** Overshoot of a requirement stays under one package. */
  ghost predicate CoverageOk(s: State) {
    forall l :: l in s.lines ==>
      Coverage(s, l, s.lines[l].basis)
      < CoverageLimit(s.lines[l].basis)
  }

  ghost predicate Inv(s: State) {
    TableOk(s) && GraphOk(s) && ReservationsOk(s) && BooksOk(s) && CoverageOk(s)
  }

  // ---------- sums over reservations ----------

  lemma NothingReserved(s: State, itemId: Id)
    requires forall id :: id in s.reservations && s.reservations[id].status == Active ==>
               s.reservations[id].itemId != itemId
    ensures Reserved(s, itemId) == 0.0
  {
    SumZero(s.order, s.reservations, HeldFrom(itemId));
  }

  lemma NothingCovered(s: State, lineId: Id, basis: Requirement)
    requires !HasActive(s, lineId)
    ensures Coverage(s, lineId, basis) == 0.0
  {
    SumZero(s.order, s.reservations, CoverageOn(lineId, basis, Units(s.stock.items)));
  }

  lemma ReservedNonNegative(s: State, itemId: Id)
    requires Inv(s)
    ensures 0.0 <= Reserved(s, itemId)
  {
    SumNonNegative(s.order, s.reservations, HeldFrom(itemId));
  }

  lemma GapOf(s: State, i: Id)
    requires Inv(s) && i in s.stock.items
    ensures ItemOk(s.stock.items[i])
    ensures CanCount(s.stock.items[i].evidence) ==>
              Reserved(s, i) <= s.stock.items[i].quantity - s.stock.items[i].available
  {
  }

  /** An active reservation never exceeds the gap of its item, so giving it back needs no clamp. */
  lemma HeldWithinGap(s: State, id: Id)
    requires Inv(s) && id in s.reservations && s.reservations[id].status == Active
    ensures var r := s.reservations[id];
            && Live(s.stock, r.itemId)
            && r.quantity <= Reserved(s, r.itemId)
            && s.stock.items[r.itemId].available + r.quantity <= s.stock.items[r.itemId].quantity
  {
    SumCoversRow(s.order, s.reservations, HeldFrom(s.reservations[id].itemId), id);
  }

  /** The item of an active reservation can take the reserved quantity back in full. */
  ghost predicate Returnable(s: State, id: Id) {
    && id in s.reservations && s.reservations[id].status == Active && s.reservations[id].quantity > 0.0
    && s.reservations[id].itemId in s.stock.items
    && var item := s.stock.items[s.reservations[id].itemId];
       ItemOk(item) && CanCount(item.evidence) && item.available + s.reservations[id].quantity <= item.quantity
  }

  lemma HeldIsReturnable(s: State, id: Id)
    requires Inv(s) && id in s.reservations && s.reservations[id].status == Active
    ensures Returnable(s, id)
  {
    HeldWithinGap(s, id);
  }

  /** Coverage depends on the items only through the units of the reserved ones. */
  lemma CoverageSameUnits(s: State, items: map<Id, Item>, lineId: Id, basis: Requirement)
    requires forall id :: id in s.reservations && s.reservations[id].status == Active ==>
               var i := s.reservations[id].itemId;
               i in s.stock.items && i in items && items[i].unit == s.stock.items[i].unit
    ensures Sum(s.order, s.reservations, CoverageOn(lineId, basis, Units(items))) == Coverage(s, lineId, basis)
  {
    SumCongruent(s.order, s.reservations,
                 CoverageOn(lineId, basis, Units(items)), CoverageOn(lineId, basis, Units(s.stock.items)));
  }

  lemma {:induction false} FactorsBounded(alternatives: seq<Alternative>, itemId: Id, itemUnit: Unit, lineUnit: Unit)
    ensures forall f :: f in Factors(alternatives, itemId, itemUnit, lineUnit) ==> f <= MaxFactor(alternatives)
  {
    if alternatives != [] {
      FactorsBounded(alternatives[1..], itemId, itemUnit, lineUnit);
    }
  }

  lemma PerUnitBounded(basis: Requirement, itemId: Id, itemUnit: Unit)
    ensures 1 <= PerUnit(basis, itemId, itemUnit) <= MaxFactor(basis.alternatives)
  {
    FactorsBounded(basis.alternatives, itemId, itemUnit, basis.unit);
    var factors := Factors(basis.alternatives, itemId, itemUnit, basis.unit);
    assert factors != [] ==> factors[0] in factors;
  }

  lemma CoverageNonNegative(s: State, lineId: Id, basis: Requirement)
    requires Inv(s)
    ensures 0.0 <= Coverage(s, lineId, basis)
  {
    var weight := CoverageOn(lineId, basis, Units(s.stock.items));
    forall id | id in s.order && id in s.reservations ensures 0.0 <= weight(s.reservations[id]) {
      WeightNonNegative(s.reservations[id], lineId, basis, Units(s.stock.items));
    }
    SumNonNegative(s.order, s.reservations, weight);
  }

  lemma WeightNonNegative(r: Reservation, lineId: Id, basis: Requirement, units: map<Id, Unit>)
    requires r.quantity > 0.0
    ensures 0.0 <= CoverageOn(lineId, basis, units)(r)
  {
    if r.itemId in units {
      assert InLineUnit(basis, r.itemId, units[r.itemId], r.quantity) > 0.0;
    }
  }

  // ---------- the three ways a state moves ----------

  /** Items and events change, reservations do not. */
  lemma StockChange(s: State, stock: Stock)
    requires Inv(s)
    requires forall id :: id in s.reservations && s.reservations[id].status == Active ==>
               var i := s.reservations[id].itemId;
               && Live(stock, i) && CanCount(stock.items[i].evidence)
               && stock.items[i].version >= 2 && stock.items[i].unit == s.stock.items[i].unit
    requires forall i :: i in stock.items ==>
               && ItemOk(stock.items[i])
               && (CanCount(stock.items[i].evidence) ==>
                     Reserved(s, i) <= stock.items[i].quantity - stock.items[i].available)
    ensures Inv(s.(stock := stock))
  {
    var t := s.(stock := stock);
    forall l | l in t.lines
      ensures Coverage(t, l, t.lines[l].basis) == Coverage(s, l, s.lines[l].basis)
    {
      CoverageSameUnits(s, stock.items, l, s.lines[l].basis);
    }
  }

  /** One item changes. */
  lemma ItemChange(s: State, itemId: Id, after: Item, stock: Stock)
    requires Inv(s) && itemId in s.stock.items && stock.items == s.stock.items[itemId := after]
    requires ItemOk(after) && after.unit == s.stock.items[itemId].unit && s.stock.items[itemId].version <= after.version
    requires CanCount(s.stock.items[itemId].evidence) ==> CanCount(after.evidence)
    requires var before := s.stock.items[itemId];
             after.retired ==> before.retired || !CanCount(before.evidence) || before.quantity == before.available
    requires CanCount(after.evidence) ==> Reserved(s, itemId) <= after.quantity - after.available
    ensures Inv(s.(stock := stock))
    ensures forall i :: i != itemId ==> Manual(s.(stock := stock), i) == Manual(s, i)
    ensures Manual(s.(stock := stock), itemId) ==
            if CanCount(after.evidence) then after.quantity - after.available - Reserved(s, itemId) else 0.0
  {
    forall id | id in s.reservations && s.reservations[id].status == Active && s.reservations[id].itemId == itemId
      ensures !after.retired
    {
      HeldWithinGap(s, id);
    }
    StockChange(s, stock);
  }

  /** Projects, revisions or lines change around unchanged stock and reservations. */
  lemma GraphChange(s: State, t: State)
    requires Inv(s) && t.stock == s.stock && t.order == s.order && t.reservations == s.reservations
    requires GraphOk(t)
    requires forall id :: id in s.reservations ==>
               && s.reservations[id].lineId in t.lines
               && (s.reservations[id].status == Active ==>
                     var l := s.reservations[id].lineId;
                     && t.lines[l].basis == s.lines[l].basis
                     && Inactive(t, t.revisions[t.lines[l].revisionId].projectId) == None)
    requires forall l :: l in t.lines ==> (l in s.lines && t.lines[l].basis == s.lines[l].basis) || !HasActive(s, l)
    ensures Inv(t)
    ensures forall i :: Manual(t, i) == Manual(s, i)
  {
    forall l | l in t.lines
      ensures Coverage(t, l, t.lines[l].basis)
           < CoverageLimit(t.lines[l].basis)
    {
      if !HasActive(s, l) {
        NothingCovered(t, l, t.lines[l].basis);
      }
    }
  }

  /** The item after a reservation of `quantity` ended: its gap is smaller by exactly that quantity. */
  ghost predicate Freed(before: Item, after: Item, quantity: real) {
    && ItemOk(after)
    && after.unit == before.unit && after.evidence == before.evidence && after.retired == before.retired
    && after.version == before.version + 1
    && after.quantity - after.available == before.quantity - before.available - quantity
  }

  ghost predicate Settles(s: State, id: Id, t: State) {
    && id in s.reservations && s.reservations[id].status == Active
    && var r := s.reservations[id];
       && id in t.reservations && t.reservations[id].status != Active
       && t == s.(stock := t.stock, reservations := s.reservations[id := t.reservations[id]])
       && t.reservations[id] == r.(status := t.reservations[id].status, version := r.version + 1)
       && r.itemId in s.stock.items && r.itemId in t.stock.items
       && t.stock.items == s.stock.items[r.itemId := t.stock.items[r.itemId]]
       && Freed(s.stock.items[r.itemId], t.stock.items[r.itemId], r.quantity)
  }

  lemma SettleSums(s: State, id: Id, t: State)
    requires Inv(s) && Settles(s, id, t)
    ensures var r := s.reservations[id];
            forall i :: Reserved(t, i) == Reserved(s, i) - if i == r.itemId then r.quantity else 0.0
    ensures forall l, basis :: Coverage(t, l, basis) <= Coverage(s, l, basis)
  {
    var r := s.reservations[id];
    forall i
      ensures Reserved(t, i) == Reserved(s, i) - if i == r.itemId then r.quantity else 0.0
    {
      SumReplace(s.order, s.reservations, HeldFrom(i), id, t.reservations[id]);
    }
    assert Units(t.stock.items) == Units(s.stock.items);
    forall l, basis
      ensures Coverage(t, l, basis) <= Coverage(s, l, basis)
    {
      SumReplace(s.order, s.reservations, CoverageOn(l, basis, Units(s.stock.items)), id, t.reservations[id]);
      WeightNonNegative(r, l, basis, Units(s.stock.items));
    }
  }

  lemma SettleReservations(s: State, id: Id, t: State)
    requires GraphOk(s) && ReservationsOk(s) && Settles(s, id, t)
    ensures GraphOk(t) && ReservationsOk(t)
  {
    forall k | k in t.reservations && t.reservations[k].status == Active ensures ActiveOk(t, t.reservations[k]) {
      assert ActiveOk(s, s.reservations[k]);
    }
  }

  lemma SettleBooks(s: State, id: Id, t: State)
    requires BooksOk(s) && Settles(s, id, t)
    requires var r := s.reservations[id];
             forall i :: Reserved(t, i) == Reserved(s, i) - if i == r.itemId then r.quantity else 0.0
    ensures BooksOk(t)
    ensures forall i :: Manual(t, i) == Manual(s, i)
  {
  }

  lemma CoverageShrinks(s: State, t: State)
    requires CoverageOk(s) && t.lines == s.lines
    requires forall l, basis :: Coverage(t, l, basis) <= Coverage(s, l, basis)
    ensures CoverageOk(t)
  {
    forall l | l in t.lines
      ensures Coverage(t, l, t.lines[l].basis)
           < CoverageLimit(t.lines[l].basis)
    {
      assert Coverage(t, l, t.lines[l].basis) <= Coverage(s, l, t.lines[l].basis);
    }
  }

  /** An active reservation ends: the books stay sound and no stock moves into or out of manual allocation. */
  lemma Settle(s: State, id: Id, t: State)
    requires Inv(s) && Settles(s, id, t)
    ensures Inv(t)
    ensures forall i :: Manual(t, i) == Manual(s, i)
  {
    SettleSums(s, id, t);
    SettleReservations(s, id, t);
    SettleBooks(s, id, t);
    CoverageShrinks(s, t);
  }
}
