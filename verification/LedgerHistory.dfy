/** What the ledger remembers: ended reservations stay as they ended, and the event log replays to the stock. */
module LedgerHistory {
  import opened Outcomes
  import opened LedgerModel
  import opened LedgerInvariant
  import opened LedgerOperations
  import opened LedgerArchive
  import opened LedgerRuns
  import opened SetupModel

  // ---------- a reservation ends at most once ----------

  /** The same record, or an active one that ended with its next version. */
  predicate EndsAtMostOnce(before: Reservation, after: Reservation) {
    || after == before
    || (before.status == Active && after.status != Active
        && after == before.(status := after.status, version := before.version + 1))
  }

  ghost predicate Continues(s: State, t: State) {
    forall id :: id in s.reservations ==>
      id in t.reservations && EndsAtMostOnce(s.reservations[id], t.reservations[id])
  }

  lemma ArchiveRows(s: State, projectId: Id, expected: Option<nat>)
    requires ArchiveProject(s, projectId, expected).Ok?
    ensures var rows := ArchiveProject(s, projectId, expected).value.reservations;
            rows == s.reservations || rows == ReleaseAll(s, ActiveOf(s, s.order, projectId)).reservations
  {
    hide ReleaseAll, ActiveOf, AnyItemMissing;
  }

  lemma RemoveRows(s: State, projectId: Id, expected: Option<nat>, confirmation: string)
    requires RemoveProject(s, projectId, expected, confirmation).Ok?
    ensures var rows := RemoveProject(s, projectId, expected, confirmation).value.reservations;
            rows == s.reservations || rows == ReleaseAll(s, ActiveOf(s, s.order, projectId)).reservations
  {
    hide ReleaseAll, ActiveOf, AnyItemMissing;
  }

  lemma ClosingRows(s: State, step: Step)
    requires Perform(s, step).Ok?
    requires step.ArchiveIt? || step.RemoveIt? || (step.ChangeProject? && step.next == Some(Archived))
    ensures var t := Apply(s, step);
            t.reservations == s.reservations
            || t.reservations == ReleaseAll(s, ActiveOf(s, s.order, step.projectId)).reservations
  {
    hide ReleaseAll, ActiveOf, ArchiveProject, RemoveProject;
    if step.RemoveIt? {
      RemoveRows(s, step.projectId, step.expected, step.confirmation);
    } else {
      ArchiveRows(s, step.projectId, step.expected);
    }
  }

  lemma ReleasedContinues(s: State, ids: seq<Id>)
    requires Inv(s) && Batch(s, ids)
    ensures Continues(s, ReleaseAll(s, ids))
  {
    hide Inv, SameItems, ReleaseAll;
    ReleaseAllKeeps(s, ids);
  }

  lemma ClosingContinues(s: State, step: Step)
    requires Inv(s) && Perform(s, step).Ok?
    requires step.ArchiveIt? || step.RemoveIt? || (step.ChangeProject? && step.next == Some(Archived))
    ensures Continues(s, Apply(s, step))
  {
    hide Inv, ReleaseAll, ActiveOf, Perform, Apply, Batch, AnyItemMissing;
    ProjectBatch(s, step.projectId);
    ClosingRows(s, step);
    ReleasedContinues(s, ActiveOf(s, s.order, step.projectId));
  }

  lemma StepContinues(s: State, step: Step)
    requires Inv(s) && Owed(s, step)
    ensures Continues(s, Apply(s, step))
  {
    hide Inv, CreateItem, RollbackCreatedItem, RetireItem, UpdateItem, RecordCount, RecordStockEvent, ArchiveProject,
         RemoveProject, Refusal, Preflight, Commit, IdsDistinct;
    if Perform(s, step).Ok? {
      if step.CommitSetup? {
        SetupProof.CommitExact(s, step.proposal);
      }
      if step.ArchiveIt? || step.RemoveIt? || (step.ChangeProject? && step.next == Some(Archived)) {
        ClosingContinues(s, step);
      }
    }
  }

  /** Over any run a reservation's stock is given back or used up at most once: an ended record never changes again. */
  lemma {:induction false} EndedForGood(s: State, steps: seq<Step>, n: nat)
    requires Inv(s) && OwedThroughout(s, steps) && n <= |steps|
    ensures Continues(Run(s, steps[..n]), Run(s, steps))
    decreases |steps|
  {
    hide Inv, Apply;
    if n == |steps| {
      assert steps[..n] == steps;
    } else {
      var rest := steps[..|steps| - 1];
      assert forall m :: 0 <= m <= |rest| ==> rest[..m] == steps[..m];
      EndedForGood(s, rest, n);
      RunKeeps(s, rest);
      StepContinues(Run(s, rest), steps[|steps| - 1]);
    }
  }

  // ---------- the event log ----------

  function After(quantity: real, event: StockEvent): real {
    match event.kind
    case Count => event.quantity
    case Receipt | Return | Correction => quantity + event.quantity
    case Consume | Loss | Dispose => quantity - event.quantity
    case Allocate | Release => quantity
  }

  /** What was on hand at creation, carried through the log. */
  function Replay(opening: real, events: seq<StockEvent>): real {
    if events == [] then opening else After(Replay(opening, events[..|events| - 1]), events[|events| - 1])
  }

  /** Event versions never decrease and never pass the item's version. */
  ghost predicate VersionsOk(events: seq<StockEvent>, version: nat) {
    && (forall j, k :: 0 <= j < k < |events| ==> events[j].itemVersion <= events[k].itemVersion)
    && (forall k :: 0 <= k < |events| ==> events[k].itemVersion <= version)
  }

  ghost predicate ItemLogged(opening: real, item: Item, events: seq<StockEvent>) {
    Replay(opening, events) == item.quantity && VersionsOk(events, item.version)
  }

  ghost predicate LogOk(stock: Stock, openings: map<Id, real>) {
    && stock.events.Keys <= stock.items.Keys <= openings.Keys
    && forall i :: i in stock.items ==> ItemLogged(openings[i], stock.items[i], EventsOf(stock, i))
  }

  /** The quantity each item was created with. */
  function Openings(openings: map<Id, real>, s: State, step: Step): map<Id, real> {
    if step.AddItem? && step.itemId !in s.stock.items then openings[step.itemId := step.quantity] else openings
  }

  ghost function OpeningsAfter(openings: map<Id, real>, s: State, steps: seq<Step>): map<Id, real> {
    if steps == [] then openings
    else
      var rest := steps[..|steps| - 1];
      Openings(OpeningsAfter(openings, s, rest), Run(s, rest), steps[|steps| - 1])
  }

  lemma ReplayOne(opening: real, events: seq<StockEvent>, event: StockEvent)
    ensures Replay(opening, events + [event]) == After(Replay(opening, events), event)
  {
    assert (events + [event])[..|events|] == events;
  }

  lemma LoggedChange(opening: real, item: Item, events: seq<StockEvent>, after: Item, event: StockEvent)
    requires ItemLogged(opening, item, events)
    requires item.version <= event.itemVersion <= after.version && after.quantity == After(item.quantity, event)
    ensures ItemLogged(opening, after, events + [event])
  {
    ReplayOne(opening, events, event);
  }

  /** An item and its log move together. */
  lemma LogChange(stock: Stock, openings: map<Id, real>, itemId: Id, after: Item, event: StockEvent)
    requires LogOk(stock, openings) && itemId in stock.items
    requires stock.items[itemId].version <= event.itemVersion <= after.version
    requires after.quantity == After(stock.items[itemId].quantity, event)
    ensures LogOk(WithEvent(WithItem(stock, itemId, after), itemId, event), openings)
  {
    var t := WithEvent(WithItem(stock, itemId, after), itemId, event);
    LoggedChange(openings[itemId], stock.items[itemId], EventsOf(stock, itemId), after, event);
    assert EventsOf(t, itemId) == EventsOf(stock, itemId) + [event];
    forall i | i in t.items && i != itemId ensures ItemLogged(openings[i], t.items[i], EventsOf(t, i)) {
      assert EventsOf(t, i) == EventsOf(stock, i);
    }
  }

  /** An item moves without an entry, keeping its quantity: retirement, description, reserving, releasing. */
  lemma LogUntouched(stock: Stock, openings: map<Id, real>, itemId: Id, after: Item)
    requires LogOk(stock, openings) && itemId in stock.items
    requires stock.items[itemId].version <= after.version && after.quantity == stock.items[itemId].quantity
    ensures LogOk(WithItem(stock, itemId, after), openings)
  {
    var t := WithItem(stock, itemId, after);
    forall i | i in t.items ensures ItemLogged(openings[i], t.items[i], EventsOf(t, i)) {
      assert EventsOf(t, i) == EventsOf(stock, i);
      assert ItemLogged(openings[i], stock.items[i], EventsOf(stock, i));
    }
  }

  /** The log a new item starts with: its count, and the stock it was created without. */
  lemma OpeningLog(quantity: real, setAside: real)
    ensures var counted, kept := StockEvent(Count, quantity, 1, None), StockEvent(Allocate, setAside, 1, None);
            Replay(quantity, [counted]) == quantity && Replay(quantity, [counted, kept]) == quantity
  {
    var counted, kept := StockEvent(Count, quantity, 1, None), StockEvent(Allocate, setAside, 1, None);
    ReplayOne(quantity, [], counted);
    ReplayOne(quantity, [counted], kept);
    assert [] + [counted] == [counted];
    assert [counted] + [kept] == [counted, kept];
  }

  lemma LogCreated(s: State, openings: map<Id, real>, step: Step)
    requires LogOk(s.stock, openings) && step.AddItem? && Perform(s, step).Ok?
    ensures LogOk(Apply(s, step).stock, openings[step.itemId := step.quantity])
  {
    hide Replay, ItemLogged;
    var t := Apply(s, step).stock;
    NewItemLogged(s.stock, step);
    forall i | i in t.items && i != step.itemId ensures ItemLogged(openings[i], t.items[i], EventsOf(t, i)) {
      assert EventsOf(t, i) == EventsOf(s.stock, i);
    }
  }

  lemma NewItemLogged(stock: Stock, step: Step)
    requires step.AddItem? && step.itemId !in stock.events
    requires CreateItem(stock, step.itemId, step.quantity, step.available, step.unit, step.evidence, step.facts).Ok?
    ensures var t := CreateItem(stock, step.itemId, step.quantity, step.available, step.unit, step.evidence,
            step.facts).value;
            ItemLogged(step.quantity, t.items[step.itemId], EventsOf(t, step.itemId))
  {
    var offered := if step.available.Some? then step.available.value else step.quantity;
    OpeningLog(step.quantity, step.quantity - offered);
  }

  lemma LogUndone(s: State, openings: map<Id, real>, step: Step)
    requires LogOk(s.stock, openings) && step.UndoAddItem? && Perform(s, step).Ok?
    ensures LogOk(Apply(s, step).stock, openings)
  {
    var t := Apply(s, step).stock;
    forall i | i in t.items ensures ItemLogged(openings[i], t.items[i], EventsOf(t, i)) {
      assert EventsOf(t, i) == EventsOf(s.stock, i);
      assert ItemLogged(openings[i], s.stock.items[i], EventsOf(s.stock, i));
    }
  }

  lemma LogStockEvent(stock: Stock, openings: map<Id, real>, itemId: Id, kind: EventKind, quantity: real, unit: Unit)
    requires LogOk(stock, openings) && RecordStockEvent(stock, itemId, kind, quantity, unit).Ok?
    ensures LogOk(RecordStockEvent(stock, itemId, kind, quantity, unit).value, openings)
  {
    hide LogOk;
    if kind == Count {
      LogCount(stock, openings, itemId, quantity, None, None);
    } else {
      var after := Moved(stock.items[itemId], kind, quantity).(version := stock.items[itemId].version + 1);
      LogChange(stock, openings, itemId, after, StockEvent(kind, quantity, after.version, None));
    }
  }

  lemma LogCount(
    stock: Stock, openings: map<Id, real>, itemId: Id, quantity: real, commissioning: Option<Unit>,
    expected: Option<nat>)
    requires LogOk(stock, openings) && RecordCount(stock, itemId, quantity, commissioning, expected).Ok?
    ensures LogOk(RecordCount(stock, itemId, quantity, commissioning, expected).value, openings)
  {
    hide LogOk;
    var after := RecordCount(stock, itemId, quantity, commissioning, expected).value.items[itemId];
    LogChange(stock, openings, itemId, after, StockEvent(Count, quantity, after.version, None));
  }

  lemma {:induction false} LogReleaseAll(s: State, openings: map<Id, real>, ids: seq<Id>)
    requires LogOk(s.stock, openings)
    ensures LogOk(ReleaseAll(s, ids).stock, openings)
  {
    hide LogOk;
    if ids != [] {
      var mid, id := ReleaseAll(s, ids[..|ids| - 1]), ids[|ids| - 1];
      LogReleaseAll(s, openings, ids[..|ids| - 1]);
      if id in mid.reservations && mid.reservations[id].itemId in mid.stock.items {
        var r := mid.reservations[id];
        var item := mid.stock.items[r.itemId];
        var freed := item.(available := Min(item.quantity, item.available + r.quantity), version := item.version + 1);
        LogChange(mid.stock, openings, r.itemId, freed, StockEvent(Release, r.quantity, freed.version, Some(id)));
      }
    }
  }

  /** `recordUsage` returns stock to the item before consuming it; the log sees only the consumption. */
  lemma LogUsage(s: State, openings: map<Id, real>, usage: UsageInput)
    requires LogOk(s.stock, openings) && RecordUsage(s, usage).Ok?
    ensures LogOk(RecordUsage(s, usage).value.stock, openings)
  {
    hide LogOk, OwnedBy;
    var item := s.stock.items[usage.itemId];
    var returned := item.(available := item.available + s.reservations[usage.reservationId.value].quantity);
    LogUntouched(s.stock, openings, usage.itemId, returned);
    LogStockEvent(WithItem(s.stock, usage.itemId, returned), openings, usage.itemId, Consume, usage.quantity,
      usage.unit);
  }

  lemma LogQuiet(s: State, openings: map<Id, real>, step: Step)
    requires LogOk(s.stock, openings) && Perform(s, step).Ok?
    requires step.Retire? || step.Describe? || step.PlaceReservation? || step.EndReservation?
    ensures LogOk(Apply(s, step).stock, openings)
  {
    hide LogOk;
    var t := Apply(s, step);
    match step
    case Retire(i, _) => LogUntouched(s.stock, openings, i, t.stock.items[i]);
    case Describe(i, _, _) => LogUntouched(s.stock, openings, i, t.stock.items[i]);
    case PlaceReservation(r, input) =>
      RefusalNone(s, r, input);
      LogUntouched(s.stock, openings, input.itemId, t.stock.items[input.itemId]);
    case EndReservation(id, _) =>
      var i := s.reservations[id].itemId;
      if i in s.stock.items {
        LogUntouched(s.stock, openings, i, t.stock.items[i]);
      }
  }

  lemma LogClosing(s: State, openings: map<Id, real>, step: Step)
    requires LogOk(s.stock, openings) && Perform(s, step).Ok?
    requires step.ArchiveIt? || step.RemoveIt? || step.ChangeProject?
    ensures LogOk(Apply(s, step).stock, openings)
  {
    hide LogOk, ReleaseAll, ActiveOf;
    LogReleaseAll(s, openings, ActiveOf(s, s.order, step.projectId));
  }

  lemma LogPlace(s: State, openings: map<Id, real>, p: Proposal, r: PlannedReservation)
    requires LogOk(s.stock, openings) && Place(s, p, r).Ok?
    ensures LogOk(Place(s, p, r).value.stock, openings)
  {
    hide LogOk, Refusal, LineByRef;
    var input := ReservationInput(r.id, LineByRef(p.lines, r.lineRef).value.id, r.itemId, r.quantity);
    RefusalNone(s, p.revisionId, input);
    var taken := Reserve(s, input).stock.items[r.itemId];
    LogChange(s.stock, openings, r.itemId, taken, StockEvent(Allocate, r.quantity, taken.version, Some(r.id)));
  }

  lemma {:induction false} LogPlaceFirst(s: State, openings: map<Id, real>, p: Proposal, k: nat)
    requires LogOk(s.stock, openings) && k <= |p.reservations| && PlaceFirst(s, p, k).Ok?
    ensures LogOk(PlaceFirst(s, p, k).value.stock, openings)
  {
    hide LogOk, Place;
    if k > 0 {
      LogPlaceFirst(s, openings, p, k - 1);
      LogPlace(PlaceFirst(s, p, k - 1).value, openings, p, p.reservations[k - 1]);
    }
  }

  lemma LogSetup(s: State, openings: map<Id, real>, p: Proposal)
    requires LogOk(s.stock, openings) && SetUp(s, p).Ok?
    ensures LogOk(SetUp(s, p).value.stock, openings)
  {
    hide LogOk, PlaceFirst, BuildGraph, IdentityClash, FirstRefusal, StockSuffices, Built;
    GraphBuiltIff(s, p);
    BuiltSameStock(s, p);
    LogPlaceFirst(BuildGraph(s, p).value, openings, p, |p.reservations|);
  }

  lemma BuiltSameStock(s: State, p: Proposal)
    ensures Built(s, p).stock == s.stock
  {
  }

  lemma LogStep(s: State, openings: map<Id, real>, step: Step)
    requires LogOk(s.stock, openings)
    ensures LogOk(Apply(s, step).stock, Openings(openings, s, step))
  {
    hide LogOk, CreateItem, RollbackCreatedItem, RetireItem, UpdateItem, RecordCount, RecordStockEvent,
         CreateReservation, ReleaseReservation, RecordUsage, ArchiveProject, RemoveProject, UpdateProject, SetUp;
    if Perform(s, step).Ok? {
      match step
      case AddItem(i, q, a, u, e, f) => LogCreated(s, openings, step); CreatedIsNew(s.stock, i, q, a, u, e, f);
      case UndoAddItem(_) => LogUndone(s, openings, step);
      case CountStock(i, q, c, v) => LogCount(s.stock, openings, i, q, c, v);
      case WriteEvent(i, k, q, u) => LogStockEvent(s.stock, openings, i, k, q, u);
      case UseReservation(usage) => LogUsage(s, openings, usage);
      case Retire(_, _) => LogQuiet(s, openings, step);
      case Describe(_, _, _) => LogQuiet(s, openings, step);
      case PlaceReservation(_, _) => LogQuiet(s, openings, step);
      case EndReservation(_, _) => LogQuiet(s, openings, step);
      case ArchiveIt(_, _) => LogClosing(s, openings, step);
      case RemoveIt(_, _, _) => LogClosing(s, openings, step);
      case ChangeProject(_, _, _, _) => LogClosing(s, openings, step);
      case CommitSetup(p) => LogSetup(s, openings, p);
      case _ =>
    } else if step.AddItem? {
      CreatedIffNew(s, step);
    }
  }

  lemma CreatedIsNew(
    stock: Stock, itemId: Id, quantity: real, available: Option<real>, unit: Unit, evidence: Evidence,
    facts: set<string>)
    ensures CreateItem(stock, itemId, quantity, available, unit, evidence, facts).Ok? <==> itemId !in stock.items
  {
  }

  lemma CreatedIffNew(s: State, step: Step)
    requires step.AddItem?
    ensures Perform(s, step).Ok? <==> step.itemId !in s.stock.items
  {
  }

  /**
   In every state reached from a well-logged one, each item's quantity is its opening quantity replayed through
   its log, and log versions are ordered and bounded by the item's. No caller obligation is needed.
   */
  lemma {:induction false} LogReplays(s: State, openings: map<Id, real>, steps: seq<Step>)
    requires LogOk(s.stock, openings)
    ensures LogOk(Run(s, steps).stock, OpeningsAfter(openings, s, steps))
  {
    hide LogOk, Openings, Apply;
    if steps != [] {
      var rest := steps[..|steps| - 1];
      LogReplays(s, openings, rest);
      LogStep(Run(s, rest), OpeningsAfter(openings, s, rest), steps[|steps| - 1]);
    }
  }

  /** A freshly seeded ledger is well-logged: every log is empty, and openings are the seeded quantities. */
  lemma SeededLogged(items: map<Id, Item>)
    ensures LogOk(Seeded(items).stock, map i | i in items :: items[i].quantity)
  {
  }
}
