/** How the summary sees the ledger: its computed allocations are the gaps that the ledger's invariant explains. */
module LedgerView {
  import opened Outcomes
  import opened LedgerModel
  import opened LedgerInvariant
  import LedgerRuns
  import Summary = InventorySummary

  function StateOf(evidence: Evidence): Summary.EvidenceState {
    match evidence
    case PhysicallyCounted => Summary.PhysicallyCounted
    case Commissioned => Summary.Commissioned
    case Unconfirmed(state) =>
      if state == "delivered_uncounted" then Summary.DeliveredUncounted
      else if state == "ordered_unverified" then Summary.OrderedUnverified
      else if state == "allocated" then Summary.AllocatedElsewhere
      else if state == "consumed" then Summary.UsedUp
      else Summary.Other
  }

  /** Which ledger items the summary sees as counted, and which states it knows by name. */
  lemma StatesShown(evidence: Evidence)
    ensures Summary.Counted(StateOf(evidence)) <==> CanCount(evidence)
    ensures StateOf(evidence) == Summary.DeliveredUncounted <==> evidence == Unconfirmed("delivered_uncounted")
    ensures StateOf(evidence) == Summary.OrderedUnverified <==> evidence == Unconfirmed("ordered_unverified")
    ensures StateOf(evidence) == Summary.AllocatedElsewhere <==> evidence == Unconfirmed("allocated")
    ensures StateOf(evidence) == Summary.UsedUp <==> evidence == Unconfirmed("consumed")
  {
  }

  /** The stores record no allocation of their own. */
  function Shown(item: Item, kind: string): Summary.McpItem {
    Summary.ToItem(Summary.ApiItem(kind, item.retired, StateOf(item.evidence), item.quantity, item.available, None,
      item.unit))
  }

  /** The shown allocation of an item is its manual allocation plus its active reservations: the clamps never bite. */
  lemma AllocationIsGap(s: State, itemId: Id, kind: string)
    requires Inv(s) && itemId in s.stock.items
    ensures Shown(s.stock.items[itemId], kind).held == Manual(s, itemId) + Reserved(s, itemId)
    ensures !Summary.CountedTwice(Shown(s.stock.items[itemId], kind))
  {
    hide Inv, Manual, Reserved;
    LedgerRuns.GapAt(s, itemId);
    if !CanCount(s.stock.items[itemId].evidence) {
      UnconfirmedIsNotHeld(s, itemId);
    }
  }

  lemma UnconfirmedIsNotHeld(s: State, itemId: Id)
    requires itemId in s.stock.items && !CanCount(s.stock.items[itemId].evidence)
    ensures Manual(s, itemId) == 0.0
  {
  }

  function ShowAll(s: State, ids: seq<Id>, kinds: map<Id, string>): seq<Summary.McpItem>
    requires forall n :: 0 <= n < |ids| ==> ids[n] in s.stock.items && ids[n] in kinds
  {
    seq(|ids|, n requires 0 <= n < |ids| => Shown(s.stock.items[ids[n]], kinds[ids[n]]))
  }

  /** A summary of ledger items puts each of them in exactly one bucket, after any run. */
  lemma LedgerBucketsSum(start: State, steps: seq<LedgerRuns.Step>, ids: seq<Id>, kinds: map<Id, string>)
    requires Inv(start) && LedgerRuns.OwedThroughout(start, steps)
    requires forall n :: 0 <= n < |ids| ==> ids[n] in LedgerRuns.Run(start, steps).stock.items && ids[n] in kinds
    ensures var items := ShowAll(LedgerRuns.Run(start, steps), ids, kinds);
            Summary.BucketSum(Summary.CountsOf(items)) == |ids|
  {
    hide Inv, LedgerRuns.Run, LedgerRuns.OwedThroughout, Shown;
    var s := LedgerRuns.Run(start, steps);
    LedgerRuns.RunKeeps(start, steps);
    var items := ShowAll(s, ids, kinds);
    forall n | 0 <= n < |ids| ensures !Summary.CountedTwice(items[n]) {
      AllocationIsGap(s, ids[n], kinds[ids[n]]);
    }
    Summary.BucketsSumIff(items);
  }
}
