/**
 What the numbers of an inventory summary mean: how many of the listed items are of each kind, in the listing's terms.
 */
module SummaryBuckets {
  import opened Outcomes
  import opened InventorySummary
  import opened Tables

  /** Which of the listed items have the property. */
  ghost function Those(items: seq<ApiItem>, p: ApiItem -> bool): set<int> {
    set n | 0 <= n < |items| && p(items[n])
  }

  lemma {:induction false} CountsThose(items: seq<ApiItem>, p: McpItem -> bool, q: ApiItem -> bool)
    requires forall n :: 0 <= n < |items| ==> p(ToItem(items[n])) == q(items[n])
    ensures Count(ToItems(items), p) == |Those(items, q)|
  {
    hide ToItem;
    if items == [] {
      assert Those(items, q) == {};
    } else {
      var rest, last := items[..|items| - 1], |items| - 1;
      CountsThose(rest, p, q);
      assert ToItems(items)[..last] == ToItems(rest);
      assert Those(items, q) == Those(rest, q) + if q(items[last]) then {last} else {};
    }
  }

  predicate WasCounted(item: ApiItem) {
    item.state == PhysicallyCounted || item.state == Commissioned
  }

  /** What is set aside: as recorded, or what a counted item has on hand beyond what is available, never below none. */
  predicate SetAside(item: ApiItem, held: real) {
    match item.held
    case Some(recorded) => held == recorded
    case None =>
      if !WasCounted(item) then held == 0.0
      else
        held >= 0.0 && (held > 0.0 ==> held <= item.quantity && held <= item.quantity - item.available)
        && (held == item.quantity || held == item.quantity - item.available
            || (held == 0.0 && (item.quantity <= 0.0 || item.quantity <= item.available)))
  }

  /** The evidence says that it is allocated, or some of what was counted is set aside. */
  predicate PartlyTaken(item: ApiItem) {
    && !item.retired
    && (item.state == AllocatedElsewhere
        || (WasCounted(item) && item.quantity > 0.0
            && match item.held
               case Some(recorded) => recorded > 0.0
               case None => item.available < item.quantity))
  }

  /** One item, as the summary and the lists show it. */
  lemma ItemShown(item: ApiItem)
    ensures var shown := ToItem(item);
            && shown.category == item.kind && shown.unit == item.unit && shown.available == item.available
            && SetAside(item, shown.held) && (forall held :: SetAside(item, held) ==> held == shown.held)
            && (shown.availability == Allocated <==> PartlyTaken(item))
            && (shown.availability == Confirmed <==>
                  !item.retired && WasCounted(item) && item.quantity > 0.0 && !PartlyTaken(item))
            && (shown.availability == Uncounted <==> !item.retired && item.state == DeliveredUncounted)
            && (shown.availability == Unverified <==> !item.retired && item.state == OrderedUnverified)
  {
  }

  /**
   What the durable runtime lists: of counted stock what is on hand and free, never less than none, and what is set
   aside, never more than is on hand; of other stock what was reported, and nothing free or set aside.
   */
  lemma DurableShown(
    kind: string, retired: bool, state: EvidenceState, onHand: real, reported: real, available: real, unit: string)
    ensures var item := FromDurable(kind, retired, state, onHand, reported, available, unit);
            && item.kind == kind && item.retired == retired && item.state == state && item.unit == unit
            && (!WasCounted(item) ==>
                  item.quantity == reported && item.available == 0.0 && item.held == Some(0.0))
            && (WasCounted(item) ==>
                  && item.quantity == onHand && item.available >= 0.0 && item.held.Some? && item.held.value >= 0.0
                  && (available >= 0.0 ==> item.available == available) && (available < 0.0 ==> item.available == 0.0)
                  && (item.available <= onHand ==> item.available + item.held.value == onHand)
                  && (onHand < item.available ==> item.held.value == 0.0))
  {
  }

  predicate Holds(item: ApiItem) {
    !item.retired && (item.state == AllocatedElsewhere || ToItem(item).held > 0.0)
  }

  predicate IsRetired(item: ApiItem) {
    item.retired
  }

  predicate IsEmpty(item: ApiItem) {
    !item.retired && (item.state == UsedUp || (WasCounted(item) && item.quantity <= 0.0))
  }

  predicate NotCounted(item: ApiItem) {
    !item.retired && (item.state == DeliveredUncounted || item.state == OrderedUnverified)
  }

  predicate NeedsInspection(item: ApiItem) {
    !item.retired && item.state == Other
  }

  /** Counted, on hand and nothing of it set aside. */
  predicate IsFree(item: ApiItem) {
    !item.retired && WasCounted(item) && item.quantity > 0.0 && ToItem(item).held <= 0.0
  }

  predicate CanBeTaken(item: ApiItem) {
    !item.retired && WasCounted(item) && item.available > 0.0
  }

  lemma Kinds(item: ApiItem)
    ensures var shown := ToItem(item);
            && (shown.availability == Retired <==> IsRetired(item))
            && (shown.availability == Depleted <==> IsEmpty(item))
            && (shown.availability == InspectFirst <==> NeedsInspection(item))
            && (shown.availability == Unverified || shown.availability == Uncounted <==> NotCounted(item))
            && (HasAllocation(shown) <==> Holds(item))
            && (PlainlyConfirmed(shown) <==> IsFree(item))
            && (shown.confirmedEvidence <==> WasCounted(item))
            && (shown.availability != Retired && shown.confirmedEvidence && shown.available > 0.0 <==> CanBeTaken(item))
  {
  }

  /** Every number of the summary is the number of listed items of that kind. */
  lemma CountsExact(items: seq<ApiItem>)
    ensures var c := CountsOf(ToItems(items));
            && c.total == |items|
            && c.confirmed == |Those(items, IsFree)|
            && c.confirmedEvidence == |Those(items, WasCounted)|
            && c.availableConfirmed == |Those(items, CanBeTaken)|
            && c.inspectFirst == |Those(items, NeedsInspection)|
            && c.held == |Those(items, Holds)|
            && c.depleted == |Those(items, IsEmpty)|
            && c.unverified == |Those(items, NotCounted)|
            && c.retired == |Those(items, IsRetired)|
  {
    AllKinds(items);
    hide Those, ToItem, HasAllocation, PlainlyConfirmed, Count, IsFree, WasCounted, CanBeTaken, NeedsInspection, Holds,
         IsEmpty, NotCounted, IsRetired;
    CountsThose(items, PlainlyConfirmed, IsFree);
    CountsThose(items, (i: McpItem) => i.confirmedEvidence, WasCounted);
    CountsThose(
      items, (i: McpItem) => i.availability != Retired && i.confirmedEvidence && i.available > 0.0, CanBeTaken);
    CountsThose(items, (i: McpItem) => i.availability == InspectFirst, NeedsInspection);
    CountsThose(items, HasAllocation, Holds);
    CountsThose(items, (i: McpItem) => i.availability == Depleted, IsEmpty);
    CountsThose(items, (i: McpItem) => i.availability == Unverified || i.availability == Uncounted, NotCounted);
    CountsThose(items, (i: McpItem) => i.availability == Retired, IsRetired);
  }

  lemma AllKinds(items: seq<ApiItem>)
    ensures forall n :: 0 <= n < |items| ==>
              var shown := ToItem(items[n]);
              && (shown.availability == Retired <==> IsRetired(items[n]))
              && (shown.availability == Depleted <==> IsEmpty(items[n]))
              && (shown.availability == InspectFirst <==> NeedsInspection(items[n]))
              && (shown.availability == Unverified || shown.availability == Uncounted <==> NotCounted(items[n]))
              && (HasAllocation(shown) <==> Holds(items[n]))
              && (PlainlyConfirmed(shown) <==> IsFree(items[n]))
              && (shown.confirmedEvidence <==> WasCounted(items[n]))
              && (CanBeTaken(items[n]) <==>
                    shown.availability != Retired && shown.confirmedEvidence && shown.available > 0.0)
  {
    hide *;
    forall n | 0 <= n < |items| {
      Kinds(items[n]);
    }
  }

  // ---------- quantities set aside ----------

  /** What an item adds to the quantity set aside in a unit. */
  function Adds(item: ApiItem, unit: string): real {
    if item.retired || item.unit != unit || ToItem(item).held <= 0.0 then 0.0 else ToItem(item).held
  }

  function AllAdd(items: seq<ApiItem>, unit: string): seq<real> {
    seq(|items|, n requires 0 <= n < |items| => Adds(items[n], unit))
  }

  /** The quantity set aside in a unit is that of the unretired items in the unit, added up. */
  lemma {:induction false} HeldInUnit(items: seq<ApiItem>, unit: string)
    ensures HeldIn(ToItems(items), unit) == Total(AllAdd(items, unit))
  {
    if items != [] {
      var rest, last := items[..|items| - 1], |items| - 1;
      HeldInUnit(rest, unit);
      Kinds(items[last]);
      assert ToItems(items)[..last] == ToItems(rest);
      assert AllAdd(items, unit)[..last] == AllAdd(rest, unit);
    }
  }
}
