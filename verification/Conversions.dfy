/**
 Units and conversions: what one unit of an item covers of a line, from the line's alternatives and the two units alone,
 and when a reservation is accepted, in those terms.
 */
module Conversions {
  import opened Outcomes
  import opened Tables
  import opened LedgerModel
  import opened LedgerInvariant
  import opened LedgerOperations

  /** Some alternative of the item converts between exactly these two units with this factor. */
  ghost predicate Recorded(basis: Requirement, itemId: Id, itemUnit: Unit, f: Factor) {
    exists k :: 0 <= k < |basis.alternatives| && basis.alternatives[k].itemId == itemId
                && basis.alternatives[k].conversion == Some(Conversion(itemUnit, basis.unit, f))
  }

  /** One unit of the item covers f units of the line: 1 where the units are the same, else the one factor recorded. */
  ghost predicate Covers(basis: Requirement, itemId: Id, itemUnit: Unit, f: Factor) {
    if itemUnit == basis.unit then f == 1
    else Recorded(basis, itemId, itemUnit, f) && forall g :: Recorded(basis, itemId, itemUnit, g) ==> g == f
  }

  /** Converted quantities are whole. */
  predicate WholeWhereConverted(basis: Requirement, itemUnit: Unit, quantity: real) {
    itemUnit == basis.unit || IsWhole(quantity)
  }

  /** Whole means that nothing is left behind an integer. */
  lemma WholeIff(n: int, part: real)
    requires 0.0 <= part < 1.0
    ensures IsWhole(n as real + part) <==> part == 0.0
  {
    assert (n as real + part).Floor == n;
  }

  lemma {:induction false} FactorsAre(alternatives: seq<Alternative>, itemId: Id, itemUnit: Unit, lineUnit: Unit)
    ensures forall f: Factor :: f in Factors(alternatives, itemId, itemUnit, lineUnit) <==>
              exists k :: 0 <= k < |alternatives| && alternatives[k].itemId == itemId
                          && alternatives[k].conversion == Some(Conversion(itemUnit, lineUnit, f))
  {
    if alternatives != [] {
      var rest := alternatives[1..];
      FactorsAre(rest, itemId, itemUnit, lineUnit);
      forall f: Factor
        ensures f in Factors(alternatives, itemId, itemUnit, lineUnit) <==>
              exists k :: 0 <= k < |alternatives| && alternatives[k].itemId == itemId
                          && alternatives[k].conversion == Some(Conversion(itemUnit, lineUnit, f))
      {
        if f in Factors(rest, itemId, itemUnit, lineUnit) {
          var k :| 0 <= k < |rest| && rest[k].itemId == itemId
                   && rest[k].conversion == Some(Conversion(itemUnit, lineUnit, f));
          assert alternatives[k + 1] == rest[k];
        }
        if k :| 0 <= k < |alternatives| && alternatives[k].itemId == itemId
                && alternatives[k].conversion == Some(Conversion(itemUnit, lineUnit, f)) {
          assert k > 0 ==> rest[k - 1] == alternatives[k];
        }
      }
    }
  }

  lemma RecordedIff(basis: Requirement, itemId: Id, itemUnit: Unit)
    ensures forall f: Factor ::
              Recorded(basis, itemId, itemUnit, f) <==> f in Factors(basis.alternatives, itemId, itemUnit, basis.unit)
  {
    FactorsAre(basis.alternatives, itemId, itemUnit, basis.unit);
  }

  /** The one factor: what a quantity covers, and when it can be read. */
  lemma ConversionIs(basis: Requirement, itemId: Id, itemUnit: Unit, f: Factor)
    requires Covers(basis, itemId, itemUnit, f)
    ensures PerUnit(basis, itemId, itemUnit) == f
    ensures forall q :: InLineUnit(basis, itemId, itemUnit, q) == q * f as real
    ensures forall q :: Readable(basis, itemId, itemUnit, q) <==> WholeWhereConverted(basis, itemUnit, q)
  {
    RecordedIff(basis, itemId, itemUnit);
    var factors := Factors(basis.alternatives, itemId, itemUnit, basis.unit);
    if itemUnit != basis.unit {
      assert f in factors;
      forall g | g in factors ensures g == factors[0] {
        assert factors[0] in factors;
      }
    }
  }

  /** With no recorded factor, or with two, no quantity can be read. */
  lemma NoConversion(basis: Requirement, itemId: Id, itemUnit: Unit)
    requires forall f :: !Covers(basis, itemId, itemUnit, f)
    ensures forall q :: !Readable(basis, itemId, itemUnit, q)
  {
    RecordedIff(basis, itemId, itemUnit);
    assert !Covers(basis, itemId, itemUnit, 1);
    var factors := Factors(basis.alternatives, itemId, itemUnit, basis.unit);
    if factors != [] {
      assert factors[0] in factors;
      assert !Covers(basis, itemId, itemUnit, factors[0]);
    }
  }

  lemma ReadableIff(basis: Requirement, itemId: Id, itemUnit: Unit, quantity: real)
    ensures Readable(basis, itemId, itemUnit, quantity) <==>
              exists f :: Covers(basis, itemId, itemUnit, f) && WholeWhereConverted(basis, itemUnit, quantity)
  {
    if f :| Covers(basis, itemId, itemUnit, f) {
      ConversionIs(basis, itemId, itemUnit, f);
    } else {
      NoConversion(basis, itemId, itemUnit);
    }
  }

  // ---------- whole units ----------

  /** What n units cover. */
  function Worth(n: int, f: Factor): real {
    n as real * f as real
  }

  /** The quantity is at most every whole number of units that covers what is still required. */
  ghost predicate WithinWholeUnits(quantity: real, rest: real, f: Factor) {
    forall n: int :: rest <= Worth(n, f) ==> quantity <= n as real
  }

  lemma RoomIsLeast(required: real, covered: real, f: Factor, quantity: real)
    ensures quantity <= Room(required, covered, f) as real <==>
              WithinWholeUnits(quantity, Max(0.0, required - covered), f)
  {
    var rest := Max(0.0, required - covered);
    var room := Room(required, covered, f);
    CeilBounds(rest / f as real);
    RatioCancels(rest, f as real);
    TimesMonotone(rest / f as real, room as real, f);
    assert rest <= Worth(room, f);
    forall n: int | rest <= Worth(n, f) ensures room <= n {
      if n < room {
        BelowCeil(rest / f as real, n);
        TimesStrict(n as real, rest / f as real, f);
      }
    }
  }

  lemma CeilBounds(x: real)
    ensures x <= Ceil(x) as real < x + 1.0
  {
  }

  lemma BelowCeil(x: real, n: int)
    ensures n < Ceil(x) ==> (n as real) < x
  {
  }

  lemma TimesMonotone(x: real, y: real, f: Factor)
    requires x <= y
    ensures x * f as real <= y * f as real
  {
  }

  lemma TimesStrict(x: real, y: real, f: Factor)
    requires x < y
    ensures x * f as real < y * f as real
  {
  }

  // ---------- coverage ----------

  /** The active reservations of the line, once each. */
  ghost predicate ActiveOn(s: State, lineId: Id, ids: seq<Id>) {
    && Distinct(ids)
    && forall id :: id in ids <==>
         id in s.reservations && s.reservations[id].status == Active && s.reservations[id].lineId == lineId
  }

  function Share(r: Reservation, f: Factor): real {
    r.quantity * f as real
  }

  function Shares(s: State, ids: seq<Id>, factors: seq<Factor>): seq<real>
    requires |factors| == |ids| && forall id :: id in ids ==> id in s.reservations
  {
    seq(|ids|, n requires 0 <= n < |ids| => Share(s.reservations[ids[n]], factors[n]))
  }

  /** The coverage of a line is the total of its active reservations, each times what one unit of its item covers. */
  lemma CoverageIsTotal(s: State, lineId: Id, basis: Requirement, ids: seq<Id>, factors: seq<Factor>)
    requires TableOk(s) && ActiveOn(s, lineId, ids) && |factors| == |ids|
    requires forall n :: 0 <= n < |ids| ==>
               var itemId := s.reservations[ids[n]].itemId;
               itemId in s.stock.items && Covers(basis, itemId, s.stock.items[itemId].unit, factors[n])
    ensures Coverage(s, lineId, basis) == Total(Shares(s, ids, factors))
  {
    hide InLineUnit, Covers;
    var weight := CoverageOn(lineId, basis, Units(s.stock.items));
    SumSplits(s.order, s.reservations, ids, weight);
    SumZero(s.order, Without(s.reservations, ids), weight);
    SharesAdd(s, lineId, basis, ids, factors);
  }

  lemma {:induction false} SharesAdd(s: State, lineId: Id, basis: Requirement, ids: seq<Id>, factors: seq<Factor>)
    requires |factors| == |ids|
    requires forall n :: 0 <= n < |ids| ==>
               && ids[n] in s.reservations
               && var r := s.reservations[ids[n]];
                  && r.status == Active && r.lineId == lineId && r.itemId in s.stock.items
                  && Covers(basis, r.itemId, s.stock.items[r.itemId].unit, factors[n])
    ensures ListSum(s.reservations, ids, CoverageOn(lineId, basis, Units(s.stock.items))) ==
              Total(Shares(s, ids, factors))
  {
    hide InLineUnit, Covers;
    if ids != [] {
      var last := |ids| - 1;
      var r := s.reservations[ids[last]];
      SharesAdd(s, lineId, basis, ids[..last], factors[..last]);
      assert Shares(s, ids, factors)[..last] == Shares(s, ids[..last], factors[..last]) by {
        hide Share;
      }
      ConversionIs(basis, r.itemId, s.stock.items[r.itemId].unit, factors[last]);
    }
  }

  // ---------- acceptance ----------

  predicate OpenProject(s: State, projectId: Id) {
    projectId in s.projects && s.projects[projectId].removed.None? && s.projects[projectId].status != Archived
  }

  /** The line is consumed and belongs to this revision of an open project. */
  predicate Reservable(s: State, revisionId: Id, lineId: Id) {
    && revisionId in s.revisions && OpenProject(s, s.revisions[revisionId].projectId)
    && lineId in s.lines && s.lines[lineId].revisionId == revisionId && s.lines[lineId].basis.role == Consumed
  }

  /** The item is the line's own or a confirmed alternative, and meets its constraints. */
  ghost predicate Suits(basis: Requirement, itemId: Id, item: Item) {
    && (basis.itemId == Some(itemId)
        || exists k :: 0 <= k < |basis.alternatives| && basis.alternatives[k].itemId == itemId
                       && basis.alternatives[k].confirmed)
    && basis.constraints <= item.facts
  }

  /** Unretired stock that was counted or commissioned, with so much available. */
  predicate Offers(item: Item, quantity: real) {
    && !item.retired && (item.evidence == PhysicallyCounted || item.evidence == Commissioned)
    && 0.0 < quantity <= item.available
  }

  /** What is reserved on the line so far can be read. */
  ghost predicate LineReads(s: State, lineId: Id, basis: Requirement) {
    forall id :: id in s.reservations && s.reservations[id].status == Active && s.reservations[id].lineId == lineId ==>
      var r := s.reservations[id];
      r.itemId in s.stock.items
      && exists f :: Covers(basis, r.itemId, s.stock.items[r.itemId].unit, f)
                     && WholeWhereConverted(basis, s.stock.items[r.itemId].unit, r.quantity)
  }

  lemma LineReadsIff(s: State, lineId: Id, basis: Requirement)
    ensures LineReads(s, lineId, basis) <==> CoverageReadable(s, lineId, basis)
  {
    hide Readable, Covers;
    forall id | id in s.reservations && s.reservations[id].itemId in s.stock.items
      ensures var r := s.reservations[id];
              Readable(basis, r.itemId, s.stock.items[r.itemId].unit, r.quantity) <==>
                exists f :: Covers(basis, r.itemId, s.stock.items[r.itemId].unit, f)
                            && WholeWhereConverted(basis, s.stock.items[r.itemId].unit, r.quantity)
    {
      var r := s.reservations[id];
      ReadableIff(basis, r.itemId, s.stock.items[r.itemId].unit, r.quantity);
    }
  }

  /**
   A reservation is accepted if and only if its line and item allow it, what is reserved on the line can be read, and
   some factor, the one of the item, keeps the quantity within the whole units that the requirement still needs.
   */
  lemma ReservedIff(s: State, revisionId: Id, input: ReservationInput)
    ensures CreateReservation(s, revisionId, input).Ok? <==>
              && Reservable(s, revisionId, input.lineId) && input.itemId in s.stock.items
              && var basis, item := s.lines[input.lineId].basis, s.stock.items[input.itemId];
                 && Suits(basis, input.itemId, item) && Offers(item, input.quantity)
                 && LineReads(s, input.lineId, basis)
                 && exists f :: Covers(basis, input.itemId, item.unit, f)
                                && WholeWhereConverted(basis, item.unit, input.quantity)
                                && WithinWholeUnits(
                                     input.quantity, Max(0.0, basis.required - Coverage(s, input.lineId, basis)), f)
  {
    if Reservable(s, revisionId, input.lineId) && input.itemId in s.stock.items {
      var basis, item := s.lines[input.lineId].basis, s.stock.items[input.itemId];
      LineReadsIff(s, input.lineId, basis);
      ReadableIff(basis, input.itemId, item.unit, input.quantity);
      SuitsIff(basis, input.itemId, item);
      if f :| Covers(basis, input.itemId, item.unit, f) {
        OneFactor(basis, input.itemId, item.unit, f);
        ConversionIs(basis, input.itemId, item.unit, f);
        RoomIsLeast(basis.required, Coverage(s, input.lineId, basis), f, input.quantity);
      }
    }
    hide Coverage, CoverageReadable, LineReads, Readable, Covers, WholeWhereConverted, Suits, Approved, Room,
         WithinWholeUnits, PerUnit, Max;
  }

  lemma OneFactor(basis: Requirement, itemId: Id, itemUnit: Unit, f: Factor)
    requires Covers(basis, itemId, itemUnit, f)
    ensures forall g :: Covers(basis, itemId, itemUnit, g) ==> g == f
  {
  }

  lemma SuitsIff(basis: Requirement, itemId: Id, item: Item)
    ensures Suits(basis, itemId, item) <==> Approved(basis, itemId) && basis.constraints <= item.facts
  {
    if a :| a in basis.alternatives && a.itemId == itemId && a.confirmed {
      var k :| 0 <= k < |basis.alternatives| && basis.alternatives[k] == a;
      assert basis.alternatives[k].confirmed;
    }
  }

  /** What an accepted reservation does: its line is covered by f more for each unit, and no other line changes. */
  lemma ReservedCovers(s: State, revisionId: Id, input: ReservationInput, f: Factor)
    requires TableOk(s) && CreateReservation(s, revisionId, input).Ok? && input.id !in s.reservations
    requires Covers(s.lines[input.lineId].basis, input.itemId, s.stock.items[input.itemId].unit, f)
    ensures var t := CreateReservation(s, revisionId, input).value;
            && t.lines == s.lines
            && forall l :: l in s.lines ==>
                 Coverage(t, l, s.lines[l].basis) == Coverage(s, l, s.lines[l].basis)
                   + if l == input.lineId then input.quantity * f as real else 0.0
  {
    RefusalNone(s, revisionId, input);
    ConversionIs(s.lines[input.lineId].basis, input.itemId, s.stock.items[input.itemId].unit, f);
    ReserveShape(s, input);
    hide CreateReservation, Covers, Coverage, InLineUnit, Reserve, Refusal;
    forall l | l in s.lines
      ensures Coverage(Reserve(s, input), l, s.lines[l].basis) == Coverage(s, l, s.lines[l].basis)
                + if l == input.lineId then input.quantity * f as real else 0.0
    {
      ReserveCoverage(s, input, l, s.lines[l].basis);
    }
  }
}
