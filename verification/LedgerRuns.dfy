/** Runs of the ledger: any sequence of operations, in which a refused operation changes nothing. */
module LedgerRuns {
  import opened Outcomes
  import opened LedgerModel
  import opened LedgerInvariant
  import opened LedgerOperations
  import opened LedgerArchive
  import opened SetupModel
  import SetupProof

  datatype Step =
    | AddItem(itemId: Id, quantity: real, available: Option<real>, unit: Unit, evidence: Evidence, facts: set<string>)
    | UndoAddItem(itemId: Id)
    | Retire(itemId: Id, expected: Option<nat>)
    | Describe(itemId: Id, facts: set<string>, expected: Option<nat>)
    | CountStock(itemId: Id, quantity: real, commissioning: Option<Unit>, expected: Option<nat>)
    | WriteEvent(itemId: Id, kind: EventKind, quantity: real, unit: Unit)
    | AddProject(projectId: Id, name: string, slug: string, status: Status)
    | AddRevision(projectId: Id, revisionId: Id, draft: RevisionDraft)
    | ChangeRevision(revisionId: Id, draft: RevisionDraft, expected: Option<nat>)
    | AddWorkItem(projectId: Id, workItemId: Id)
    | AddLine(revisionId: Id, lineId: Id, basis: Requirement)
    | ChangeLine(lineId: Id, change: BasisChange, expected: Option<nat>)
    | CloseLine(lineId: Id, expected: Option<nat>)
    | ReopenLine(lineId: Id, expected: Option<nat>)
    | PlaceReservation(revisionId: Id, input: ReservationInput)
    | EndReservation(reservationId: Id, expected: Option<nat>)
    | UseReservation(usage: UsageInput)
    | ArchiveIt(projectId: Id, expected: Option<nat>)
    | RestoreIt(projectId: Id, expected: Option<nat>)
    | ChangeProject(projectId: Id, rename: Option<string>, next: Option<Status>, expected: Option<nat>)
    | RemoveIt(projectId: Id, expected: Option<nat>, confirmation: string)
    | CommitSetup(proposal: Proposal)

  function OnStock(s: State, stock: Result<Stock>): Result<State> {
    match stock
    case Ok(value) => Ok(s.(stock := value))
    case Err(error) => Err(error)
  }

  ghost function Perform(s: State, step: Step): Result<State> {
    match step
    case AddItem(i, q, a, u, e, f) => OnStock(s, CreateItem(s.stock, i, q, a, u, e, f))
    case UndoAddItem(i) => OnStock(s, RollbackCreatedItem(s.stock, i))
    case Retire(i, v) => OnStock(s, RetireItem(s.stock, i, v))
    case Describe(i, f, v) => OnStock(s, UpdateItem(s.stock, i, f, v))
    case CountStock(i, q, c, v) => OnStock(s, RecordCount(s.stock, i, q, c, v))
    case WriteEvent(i, k, q, u) => OnStock(s, RecordStockEvent(s.stock, i, k, q, u))
    case AddProject(p, n, g, t) => CreateProject(s, p, n, g, t)
    case AddRevision(p, r, d) => CreateRevision(s, p, r, d)
    case ChangeRevision(r, d, v) => UpdateRevision(s, r, d, v)
    case AddWorkItem(p, w) => CreateWorkItem(s, p, w)
    case AddLine(r, l, b) => CreateLine(s, r, l, b)
    case ChangeLine(l, b, v) => UpdateLine(s, l, b, v)
    case CloseLine(l, v) => RetireLine(s, l, v)
    case ReopenLine(l, v) => RestoreLine(s, l, v)
    case PlaceReservation(r, input) => CreateReservation(s, r, input)
    case EndReservation(id, v) => ReleaseReservation(s, id, v)
    case UseReservation(usage) => RecordUsage(s, usage)
    case ArchiveIt(p, v) => ArchiveProject(s, p, v)
    case RestoreIt(p, v) => RestoreProject(s, p, v)
    case ChangeProject(p, n, t, v) => UpdateProject(s, p, n, t, v)
    case RemoveIt(p, v, c) => RemoveProject(s, p, v, c)
    case CommitSetup(p) => SetUp(s, p)
  }

  ghost function Apply(s: State, step: Step): State {
    match Perform(s, step)
    case Ok(t) => t
    case Err(_) => s
  }

  ghost function Run(s: State, steps: seq<Step>): State {
    if steps == [] then s else Apply(Run(s, steps[..|steps| - 1]), steps[|steps| - 1])
  }

  /**
   What callers owe the store, because the store does not check it: quantities are not negative, ids supplied
   for reservations and lines are new, and a hand-written release stays within the hand-made allocation.
   */
  ghost predicate Owed(s: State, step: Step) {
    match step
    case AddItem(_, q, a, _, _, _) => 0.0 <= q && (a.Some? ==> 0.0 <= a.value)
    case AddLine(_, l, _) => l !in s.lines
    case PlaceReservation(_, input) => input.id !in s.reservations
    case WriteEvent(i, k, q, _) => k == Release && i in s.stock.items ==> HandReleaseSafe(s, i, q)
    case CommitSetup(p) => IdsDistinct(p)
    case _ => true
  }

  ghost predicate OwedThroughout(s: State, steps: seq<Step>) {
    forall n :: 0 <= n < |steps| ==> Owed(Run(s, steps[..n]), steps[n])
  }

  /** The hand-made allocation a successful step adds: nothing but creation and hand-written events counts. */
  function ByHand(s: State, step: Step, itemId: Id): real {
    match step
    case AddItem(i, q, a, _, e, _) =>
      if i == itemId && CanCount(e) && a.Some? then Max(0.0, q - a.value) else 0.0
    case UndoAddItem(i) => if i == itemId then -Manual(s, i) else 0.0
    case WriteEvent(i, k, q, _) =>
      if i == itemId && i in s.stock.items && CanCount(s.stock.items[i].evidence) then HandMoved(s, i, k, q) else 0.0
    case _ => 0.0
  }

  ghost function ByHandThroughout(s: State, steps: seq<Step>, itemId: Id): real {
    if steps == [] then 0.0
    else
      var rest, step := steps[..|steps| - 1], steps[|steps| - 1];
      var before := Run(s, rest);
      ByHandThroughout(s, rest, itemId) + if Perform(before, step).Ok? then ByHand(before, step, itemId) else 0.0
  }

  // ---------- the steps around the project graph ----------

  /** Projects and revisions may be added, and an open project stays open. */
  lemma GraphGrows(s: State, t: State)
    requires Inv(s)
    requires t == s.(projects := t.projects, slugs := t.slugs, revisions := t.revisions, workItems := t.workItems)
    requires s.projects.Keys <= t.projects.Keys && s.revisions.Keys <= t.revisions.Keys
    requires forall v :: v in t.revisions ==>
               t.revisions[v].projectId in t.projects
               && (v in s.revisions ==> t.revisions[v].projectId == s.revisions[v].projectId)
    requires forall p :: p in s.projects && Inactive(s, p) == None ==> Inactive(t, p) == None
    ensures Inv(t) && forall i :: Manual(t, i) == Manual(s, i)
  {
    forall id | id in s.reservations && s.reservations[id].status == Active
      ensures Inactive(t, t.revisions[t.lines[s.reservations[id].lineId].revisionId].projectId) == None
    {
      assert ActiveOk(s, s.reservations[id]);
    }
    GraphChange(s, t);
  }

  lemma AddKeeps(s: State, step: Step)
    requires Inv(s) && Perform(s, step).Ok?
    requires step.AddProject? || step.AddRevision? || step.ChangeRevision? || step.AddWorkItem?
    ensures Inv(Apply(s, step)) && forall i :: Manual(Apply(s, step), i) == Manual(s, i)
  {
    hide Manual, CoverageOk, BooksOk, ReservationsOk, TableOk;
    GraphGrows(s, Apply(s, step));
  }

  lemma RestoreShape(s: State, projectId: Id, expected: Option<nat>)
    requires RestoreProject(s, projectId, expected).Ok?
    ensures var t := RestoreProject(s, projectId, expected).value;
            && t == s.(projects := t.projects) && s.projects.Keys == t.projects.Keys
            && forall p :: p in s.projects && Inactive(s, p) == None ==> Inactive(t, p) == None
  {
  }

  lemma RestoreKeeps(s: State, step: Step)
    requires Inv(s) && Perform(s, step).Ok? && step.RestoreIt?
    ensures Inv(Apply(s, step)) && forall i :: Manual(Apply(s, step), i) == Manual(s, i)
  {
    RestoreShape(s, step.projectId, step.expected);
    hide RestoreProject, Inactive, Manual, CoverageOk, BooksOk, ReservationsOk, TableOk;
    GraphGrows(s, Apply(s, step));
  }

  lemma UpdateShape(s: State, projectId: Id, name: Option<string>, status: Option<Status>, expected: Option<nat>)
    requires UpdateProject(s, projectId, name, status, expected).Ok? && status != Some(Archived)
    ensures var t := UpdateProject(s, projectId, name, status, expected).value;
            && t == s.(projects := t.projects) && s.projects.Keys == t.projects.Keys
            && forall p :: p in s.projects && Inactive(s, p) == None ==> Inactive(t, p) == None
  {
  }

  lemma ChangeProjectKeeps(s: State, step: Step)
    requires Inv(s) && Perform(s, step).Ok? && step.ChangeProject?
    ensures Inv(Apply(s, step)) && forall i :: Manual(Apply(s, step), i) == Manual(s, i)
  {
    hide Manual, CoverageOk, BooksOk, ReservationsOk, TableOk, ArchiveProject;
    if step.next == Some(Archived) {
      ArchiveKeeps(s, step.projectId, step.expected);
    } else {
      UpdateShape(s, step.projectId, step.rename, step.next, step.expected);
      hide UpdateProject, Inactive;
      GraphGrows(s, Apply(s, step));
    }
  }

  /** One line is added or rewritten; its planning basis may differ only while nothing is reserved on it. */
  lemma LineWritten(s: State, lineId: Id, line: Line)
    requires Inv(s) && line.revisionId in s.revisions
    requires (lineId in s.lines && line.revisionId == s.lines[lineId].revisionId && line.basis == s.lines[lineId].basis)
          || (!HasActive(s, lineId) && (lineId in s.lines ==> line.revisionId == s.lines[lineId].revisionId))
    ensures var t := s.(lines := s.lines[lineId := line]);
            Inv(t) && forall i :: Manual(t, i) == Manual(s, i)
  {
    var t := s.(lines := s.lines[lineId := line]);
    forall id | id in s.reservations && s.reservations[id].status == Active
      ensures t.lines[s.reservations[id].lineId].basis == s.lines[s.reservations[id].lineId].basis
      ensures Inactive(t, t.revisions[t.lines[s.reservations[id].lineId].revisionId].projectId) == None
    {
      assert ActiveOk(s, s.reservations[id]);
    }
    GraphChange(s, t);
  }

  lemma AddLineKeeps(s: State, step: Step)
    requires Inv(s) && Owed(s, step) && Perform(s, step).Ok? && step.AddLine?
    ensures Inv(Apply(s, step)) && forall i :: Manual(Apply(s, step), i) == Manual(s, i)
  {
    hide Manual, CoverageOk, BooksOk;
    assert !HasActive(s, step.lineId);
    LineWritten(s, step.lineId, Line(step.revisionId, step.basis, false, 1));
  }

  /**
   A reserved line keeps its planning basis: the only change let through settles a role reserved lines have settled.
   */
  lemma ReservedBasisFixed(s: State, lineId: Id, basis: Requirement)
    requires GraphOk(s) && ReservationsOk(s) && lineId in s.lines && HasActive(s, lineId)
    requires !ChangesReserved(s.lines[lineId].basis, basis)
    ensures basis == s.lines[lineId].basis
  {
    var r :| r in s.reservations && s.reservations[r].lineId == lineId && s.reservations[r].status == Active;
    assert ActiveOk(s, s.reservations[r]);
  }

  lemma ChangeLineKeeps(s: State, step: Step)
    requires Inv(s) && Perform(s, step).Ok?
    requires step.ChangeLine? || step.CloseLine? || step.ReopenLine?
    ensures Inv(Apply(s, step)) && forall i :: Manual(Apply(s, step), i) == Manual(s, i)
  {
    hide Manual, CoverageOk, BooksOk, ReservationsOk, HasActive, ChangesReserved;
    var t := Apply(s, step);
    if step.ChangeLine? && HasActive(s, step.lineId) {
      ReservedBasisFixed(s, step.lineId, Merged(s.lines[step.lineId].basis, step.change));
    }
    if t != s {
      LineWritten(s, step.lineId, t.lines[step.lineId]);
    }
  }

  /** One step keeps the invariant, and moves the manual allocation by exactly its hand-made share. */
  lemma StepKeeps(s: State, step: Step)
    requires Inv(s) && Owed(s, step)
    ensures Inv(Apply(s, step))
    ensures forall i :: Manual(Apply(s, step), i) == Manual(s, i) + if Perform(s, step).Ok? then ByHand(s, step, i)
              else 0.0
  {
    hide Inv, Manual, CreateItem, RollbackCreatedItem, RetireItem, UpdateItem, RecordCount, RecordStockEvent,
         CreateReservation, ReleaseReservation, RecordUsage, ArchiveProject, RemoveProject, CreateLine, UpdateLine,
         RetireLine, RestoreLine, CreateProject, CreateRevision, UpdateRevision, CreateWorkItem, RestoreProject,
         UpdateProject, Preflight, Commit, IdsDistinct;
    if Perform(s, step).Ok? {
      match step
      case AddItem(i, q, a, u, e, f) => CreateItemKeeps(s, i, q, a, u, e, f);
      case UndoAddItem(i) => RollbackCreatedItemKeeps(s, i);
      case Retire(i, v) => RetireItemKeeps(s, i, v);
      case Describe(i, f, v) => UpdateItemKeeps(s, i, f, v);
      case CountStock(i, q, c, v) => RecordCountKeeps(s, i, q, c, v);
      case WriteEvent(i, k, q, u) =>
        EventNeedsItem(s, i, k, q, u);
        StockEventKeeps(s, i, k, q, u);
      case PlaceReservation(r, input) => ReserveKeeps(s, r, input);
      case EndReservation(id, v) => ReleaseKeeps(s, id, v);
      case UseReservation(usage) => UsageKeeps(s, usage);
      case ArchiveIt(p, v) => ArchiveKeeps(s, p, v);
      case RemoveIt(p, v, c) => RemoveKeeps(s, p, v, c);
      case AddLine(_, _, _) => AddLineKeeps(s, step);
      case ChangeLine(_, _, _) => ChangeLineKeeps(s, step);
      case CloseLine(_, _) => ChangeLineKeeps(s, step);
      case ReopenLine(_, _) => ChangeLineKeeps(s, step);
      case ChangeProject(_, _, _, _) => ChangeProjectKeeps(s, step);
      case RestoreIt(_, _) => RestoreKeeps(s, step);
      case CommitSetup(p) => SetupProof.CommitExact(s, p);
      case _ => AddKeeps(s, step);
    }
  }

  lemma EventNeedsItem(s: State, itemId: Id, kind: EventKind, quantity: real, unit: Unit)
    requires RecordStockEvent(s.stock, itemId, kind, quantity, unit).Ok?
    ensures itemId in s.stock.items
  {
  }

  /**
   Ledger conservation over whole runs: every reachable state satisfies the invariant, and the part of each
   gap that reservations do not explain is exactly what hand-written events put there.
   */
  lemma {:induction false} RunKeeps(s: State, steps: seq<Step>)
    requires Inv(s) && OwedThroughout(s, steps)
    ensures Inv(Run(s, steps))
    ensures forall i :: Manual(Run(s, steps), i) == Manual(s, i) + ByHandThroughout(s, steps, i)
  {
    hide Inv, Manual, Apply, Perform;
    if steps != [] {
      var rest := steps[..|steps| - 1];
      forall n | 0 <= n < |rest| ensures Owed(Run(s, rest[..n]), rest[n]) {
        assert rest[..n] == steps[..n];
      }
      RunKeeps(s, rest);
      StepKeeps(Run(s, rest), steps[|steps| - 1]);
    }
  }

  /** The runtime starts with seeded items, without projects and without events. */
  function Seeded(items: map<Id, Item>): State {
    State(Stock(items, map[]), map[], map[], map[], map[], [], map[], map[])
  }

  /** Seeded items that are sound by themselves make a sound ledger; their gaps are set aside by hand. */
  lemma SeededSound(items: map<Id, Item>)
    requires forall i :: i in items ==> ItemOk(items[i])
    ensures Inv(Seeded(items))
    ensures forall i :: Manual(Seeded(items), i) ==
              if i in items && CanCount(items[i].evidence) then items[i].quantity - items[i].available else 0.0
  {
    forall i ensures Reserved(Seeded(items), i) == 0.0 {
      NothingReserved(Seeded(items), i);
    }
  }

  lemma GapAt(s: State, itemId: Id)
    requires Inv(s) && itemId in s.stock.items
    ensures var item := s.stock.items[itemId];
            && 0.0 <= item.available <= item.quantity
            && (CanCount(item.evidence) ==>
                  && item.quantity - item.available == Manual(s, itemId) + Reserved(s, itemId)
                  && 0.0 <= Manual(s, itemId) && 0.0 <= Reserved(s, itemId))
            && (!CanCount(item.evidence) ==> item.available == 0.0 && Reserved(s, itemId) == 0.0)
  {
    ReservedNonNegative(s, itemId);
    if !CanCount(s.stock.items[itemId].evidence) {
      NothingReserved(s, itemId);
    }
  }

  /**
   In every reachable state the gap of a confirmed item is what was set aside by hand, at the start and since, plus
   its active reservations; unconfirmed items have nothing available and nothing reserved.
   */
  lemma GapExplained(s: State, steps: seq<Step>, itemId: Id)
    requires Inv(s) && OwedThroughout(s, steps) && itemId in Run(s, steps).stock.items
    ensures var after := Run(s, steps);
            var item := after.stock.items[itemId];
            var byHand := Manual(s, itemId) + ByHandThroughout(s, steps, itemId);
            && 0.0 <= item.available <= item.quantity
            && (CanCount(item.evidence) ==>
                  item.quantity - item.available == byHand + Reserved(after, itemId) && 0.0 <= byHand
                  && 0.0 <= Reserved(after, itemId))
            && (!CanCount(item.evidence) ==> item.available == 0.0 && Reserved(after, itemId) == 0.0)
  {
    hide Inv, Manual, Reserved, Run, OwedThroughout;
    RunKeeps(s, steps);
    GapAt(Run(s, steps), itemId);
  }

  /** In every reachable state the coverage of a line overshoots its requirement by less than one package. */
  lemma CoverageBounded(s: State, steps: seq<Step>, lineId: Id)
    requires Inv(s) && OwedThroughout(s, steps) && lineId in Run(s, steps).lines
    ensures var after := Run(s, steps);
            var basis := after.lines[lineId].basis;
            0.0 <= Coverage(after, lineId, basis) < CoverageLimit(basis)
  {
    hide Run, Coverage, OwedThroughout;
    RunKeeps(s, steps);
    CoverageNonNegative(Run(s, steps), lineId, Run(s, steps).lines[lineId].basis);
  }

  /**
   In every reachable state an archived or removed project owns no active reservation, and each active one points at
   live, confirmed stock and at a consumed line that approves it.
   */
  lemma NothingDangles(s: State, steps: seq<Step>, id: Id)
    requires Inv(s) && OwedThroughout(s, steps)
    requires id in Run(s, steps).reservations && Run(s, steps).reservations[id].status == Active
    ensures var after := Run(s, steps);
            var r := after.reservations[id];
            && Live(after.stock, r.itemId) && CanCount(after.stock.items[r.itemId].evidence)
            && r.lineId in after.lines && after.lines[r.lineId].basis.role == Consumed
            && Approved(after.lines[r.lineId].basis, r.itemId)
            && (forall p :: OwnedBy(after, r, p) ==>
                  p in after.projects && after.projects[p].removed.None? && after.projects[p].status != Archived)
  {
    hide Run, OwedThroughout;
    RunKeeps(s, steps);
    assert ActiveOk(Run(s, steps), Run(s, steps).reservations[id]);
  }
}
