/**
 The log entries that a setup commit leaves: one allocation for each planned reservation, item by item, as planned.
 */
module SetupLogs {
  import opened Outcomes
  import opened LedgerModel
  import opened SetupModel

  /** Which of the first k planned reservations are on the item, in order. */
  ghost predicate PlannedAt(p: Proposal, itemId: Id, k: nat, at: seq<int>)
    requires k <= |p.reservations|
  {
    && (forall n :: 0 <= n < |at| ==> 0 <= at[n] < k && p.reservations[at[n]].itemId == itemId)
    && (forall m, n :: 0 <= m < n < |at| ==> at[m] < at[n])
    && (forall j :: 0 <= j < k && p.reservations[j].itemId == itemId ==> j in at)
  }

  /** The log grew by one allocation each, with the planned quantity and id and the item's next versions. */
  ghost predicate LogsPlanned(s: State, p: Proposal, itemId: Id, at: seq<int>, log: seq<StockEvent>) {
    var before := EventsOf(s.stock, itemId);
    && |log| == |before| + |at| && log[..|before|] == before
    && forall n :: 0 <= n < |at| ==>
         && itemId in s.stock.items && 0 <= at[n] < |p.reservations|
         && log[|before| + n] == StockEvent(Allocate, p.reservations[at[n]].quantity,
              s.stock.items[itemId].version + 1 + n, Some(p.reservations[at[n]].id))
  }

  /** After k reservations. */
  ghost predicate LoggedSoFar(s: State, p: Proposal, itemId: Id, k: nat, at: seq<int>, t: State)
    requires k <= |p.reservations|
  {
    && PlannedAt(p, itemId, k, at) && LogsPlanned(s, p, itemId, at, EventsOf(t.stock, itemId))
    && (itemId in s.stock.items ==>
          itemId in t.stock.items && t.stock.items[itemId].version == s.stock.items[itemId].version + |at|)
    && t.stock.items.Keys == s.stock.items.Keys
  }

  lemma PlannedNext(p: Proposal, itemId: Id, k: nat, at: seq<int>)
    requires k < |p.reservations| && PlannedAt(p, itemId, k, at)
    ensures PlannedAt(p, itemId, k + 1, if p.reservations[k].itemId == itemId then at + [k] else at)
  {
    if p.reservations[k].itemId == itemId {
      forall j | 0 <= j < k + 1 && p.reservations[j].itemId == itemId ensures j in at + [k] {
        assert j == k ==> (at + [k])[|at|] == j;
      }
    }
  }

  lemma LogsNext(s: State, p: Proposal, itemId: Id, at: seq<int>, k: nat, log: seq<StockEvent>, event: StockEvent)
    requires LogsPlanned(s, p, itemId, at, log) && itemId in s.stock.items && k < |p.reservations|
    requires event == StockEvent(Allocate, p.reservations[k].quantity, s.stock.items[itemId].version + |at| + 1,
                                 Some(p.reservations[k].id))
    ensures LogsPlanned(s, p, itemId, at + [k], log + [event])
  {
    var before := EventsOf(s.stock, itemId);
    assert (log + [event])[..|before|] == log[..|before|];
  }

  /** What placing one reservation does to an item and its log. */
  lemma PlaceLogs(t: State, p: Proposal, r: PlannedReservation, itemId: Id)
    requires Place(t, p, r).Ok?
    ensures r.itemId in t.stock.items
    ensures var u := Place(t, p, r).value;
            && u.stock.items.Keys == t.stock.items.Keys
            && (itemId != r.itemId ==> EventsOf(u.stock, itemId) == EventsOf(t.stock, itemId))
            && (itemId != r.itemId && itemId in t.stock.items ==> u.stock.items[itemId] == t.stock.items[itemId])
            && (itemId == r.itemId ==>
                  && EventsOf(u.stock, itemId) == EventsOf(t.stock, itemId)
                       + [StockEvent(Allocate, r.quantity, t.stock.items[itemId].version + 1, Some(r.id))]
                  && u.stock.items[itemId].version == t.stock.items[itemId].version + 1)
  {
  }

  lemma LogNext(s: State, p: Proposal, itemId: Id, k: nat, at: seq<int>, t: State)
    requires k < |p.reservations| && LoggedSoFar(s, p, itemId, k, at, t) && Place(t, p, p.reservations[k]).Ok?
    ensures LoggedSoFar(s, p, itemId, k + 1, if p.reservations[k].itemId == itemId then at + [k] else at,
                        Place(t, p, p.reservations[k]).value)
  {
    hide Place, PlannedAt, LogsPlanned;
    PlannedNext(p, itemId, k, at);
    PlaceLogs(t, p, p.reservations[k], itemId);
    if p.reservations[k].itemId == itemId {
      var r := p.reservations[k];
      LogsNext(s, p, itemId, at, k, EventsOf(t.stock, itemId),
        StockEvent(Allocate, r.quantity, t.stock.items[itemId].version + 1, Some(r.id)));
    }
  }

  lemma {:induction false} LoggedThrough(s: State, g: State, p: Proposal, itemId: Id, k: nat) returns (at: seq<int>)
    requires g.stock == s.stock && k <= |p.reservations| && PlaceFirst(g, p, k).Ok?
    ensures LoggedSoFar(s, p, itemId, k, at, PlaceFirst(g, p, k).value)
  {
    hide Place;
    if k == 0 {
      at := [];
    } else {
      at := LoggedThrough(s, g, p, itemId, k - 1);
      hide LoggedSoFar;
      LogNext(s, p, itemId, k - 1, at, PlaceFirst(g, p, k - 1).value);
      at := if p.reservations[k - 1].itemId == itemId then at + [k - 1] else at;
    }
  }

  /** A commit logs, item by item, exactly the planned reservations, in their order. */
  lemma CommitLogs(s: State, p: Proposal, itemId: Id)
    requires SetUp(s, p).Ok?
    ensures exists at :: PlannedAt(p, itemId, |p.reservations|, at)
                         && LogsPlanned(s, p, itemId, at, EventsOf(SetUp(s, p).value.stock, itemId))
  {
    hide PlaceFirst, BuildGraph, FirstRefusal, StockSuffices, Built, PlannedAt, LogsPlanned, IdentityClash;
    NoClash(s, p);
    GraphBuiltIff(s, p);
    BuiltStock(s, p);
    var at := LoggedThrough(s, Built(s, p), p, itemId, |p.reservations|);
  }

  lemma NoClash(s: State, p: Proposal)
    requires SetUp(s, p).Ok?
    ensures !IdentityClash(s, p)
  {
    hide Commit, IdentityClash;
  }

  lemma BuiltStock(s: State, p: Proposal)
    ensures Built(s, p).stock == s.stock
  {
  }
}
