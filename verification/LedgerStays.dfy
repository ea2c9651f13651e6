/** What no run of the ledger takes away: revisions, lines and items stay in place. */
module LedgerStays {
  import opened Outcomes
  import opened LedgerModel
  import opened LedgerInvariant
  import opened LedgerOperations
  import opened LedgerArchive
  import opened LedgerRuns
  import opened SetupModel

  /** Every revision is still there under its project, and every line under its revision. */
  ghost predicate GraphStays(s: State, t: State) {
    && (forall v :: v in s.revisions ==> v in t.revisions && t.revisions[v].projectId == s.revisions[v].projectId)
    && (forall l :: l in s.lines ==> l in t.lines && t.lines[l].revisionId == s.lines[l].revisionId)
  }

  /** Every item that was changed since its creation is still there, in its unit. */
  ghost predicate ItemsStay(a: map<Id, Item>, b: map<Id, Item>) {
    forall i :: i in a && a[i].version >= 2 ==> i in b && b[i].version >= 2 && b[i].unit == a[i].unit
  }

  ghost predicate Stays(s: State, t: State) {
    GraphStays(s, t) && ItemsStay(s.stock.items, t.stock.items)
  }

  lemma CountStays(
    stock: Stock, itemId: Id, quantity: real, commissioning: Option<Unit>, expected: Option<nat>)
    requires RecordCount(stock, itemId, quantity, commissioning, expected).Ok?
    ensures ItemsStay(stock.items, RecordCount(stock, itemId, quantity, commissioning, expected).value.items)
  {
  }

  lemma EventStays(stock: Stock, itemId: Id, kind: EventKind, quantity: real, unit: Unit)
    requires RecordStockEvent(stock, itemId, kind, quantity, unit).Ok?
    ensures ItemsStay(stock.items, RecordStockEvent(stock, itemId, kind, quantity, unit).value.items)
  {
    hide RecordCount;
    if kind == Count {
      CountStays(stock, itemId, quantity, None, None);
    } else {
      EventShape(stock, itemId, kind, quantity, unit);
      hide RecordStockEvent;
    }
  }

  lemma ItemStays(s: State, step: Step)
    requires Perform(s, step).Ok? && (step.AddItem? || step.UndoAddItem? || step.Retire? || step.Describe?)
    ensures ItemsStay(s.stock.items, Apply(s, step).stock.items)
  {
    match step
    case AddItem(_, _, _, _, _, _) =>
    case UndoAddItem(_) =>
    case Retire(_, _) =>
    case Describe(_, _, _) =>
  }

  lemma OnStockOnly(s: State, step: Step)
    requires Perform(s, step).Ok?
    requires step.AddItem? || step.UndoAddItem? || step.Retire? || step.Describe? || step.CountStock?
          || step.WriteEvent?
    ensures Apply(s, step) == s.(stock := Apply(s, step).stock)
  {
    hide CreateItem, RollbackCreatedItem, RetireItem, UpdateItem, RecordCount, RecordStockEvent;
  }

  lemma OnStockStays(s: State, step: Step)
    requires Perform(s, step).Ok?
    requires step.AddItem? || step.UndoAddItem? || step.Retire? || step.Describe? || step.CountStock?
          || step.WriteEvent?
    ensures Stays(s, Apply(s, step))
  {
    hide CreateItem, RollbackCreatedItem, RetireItem, UpdateItem, RecordCount, RecordStockEvent, ItemsStay;
    OnStockOnly(s, step);
    match step
    case CountStock(i, q, c, v) => CountStays(s.stock, i, q, c, v);
    case WriteEvent(i, k, q, u) => EventStays(s.stock, i, k, q, u);
    case _ => ItemStays(s, step);
  }

  lemma UseStays(s: State, usage: UsageInput)
    requires RecordUsage(s, usage).Ok?
    ensures Stays(s, RecordUsage(s, usage).value)
  {
    UsageTakesReservedStock(s, usage);
    UsageLeavesGraph(s, usage);
    hide RecordUsage;
  }

  lemma UsageLeavesGraph(s: State, usage: UsageInput)
    requires RecordUsage(s, usage).Ok?
    ensures RecordUsage(s, usage).value.lines == s.lines && RecordUsage(s, usage).value.revisions == s.revisions
  {
    hide RecordStockEvent;
  }

  lemma PlaceStays(s: State, revisionId: Id, input: ReservationInput)
    requires CreateReservation(s, revisionId, input).Ok?
    ensures Stays(s, CreateReservation(s, revisionId, input).value)
  {
    RefusalNone(s, revisionId, input);
    hide Refusal, CreateReservation;
  }

  lemma OnReservationsStays(s: State, step: Step)
    requires Perform(s, step).Ok? && (step.PlaceReservation? || step.EndReservation? || step.UseReservation?)
    ensures Stays(s, Apply(s, step))
  {
    if step.PlaceReservation? {
      PlaceStays(s, step.revisionId, step.input);
    } else if step.UseReservation? {
      UseStays(s, step.usage);
    }
    hide CreateReservation, RecordUsage;
  }

  lemma ReleasedStays(s: State, ids: seq<Id>, projects: map<Id, Project>)
    requires Inv(s) && Batch(s, ids)
    ensures Stays(s, ReleaseAll(s, ids).(projects := projects))
  {
    hide Inv, ReleaseAll, ReleasedRows;
    ReleaseAllKeeps(s, ids);
    ReleaseAllVersions(s, ids);
    var t := ReleaseAll(s, ids);
    forall i | i in s.stock.items ensures t.stock.items[i].unit == s.stock.items[i].unit {
      assert SameBut(s.stock.items[i], t.stock.items[i]);
    }
  }

  lemma {:induction false} ReleaseAllVersions(s: State, ids: seq<Id>)
    ensures forall i :: i in s.stock.items ==>
              i in ReleaseAll(s, ids).stock.items
              && ReleaseAll(s, ids).stock.items[i].version >= s.stock.items[i].version
  {
    if ids != [] {
      ReleaseAllVersions(s, ids[..|ids| - 1]);
    }
  }

  /** Closing a project either changes nothing or releases what is active on it. */
  lemma ClosedIs(s: State, step: Step)
    requires Perform(s, step).Ok?
    requires step.ArchiveIt? || step.RemoveIt? || (step.ChangeProject? && step.next == Some(Archived))
    ensures var t := Apply(s, step);
            t == s || t == ReleaseAll(s, ActiveOf(s, s.order, step.projectId)).(projects := t.projects)
  {
    hide ReleaseAll, ActiveOf, AnyItemMissing;
  }

  lemma ClosingStays(s: State, step: Step)
    requires Inv(s) && Perform(s, step).Ok?
    requires step.ArchiveIt? || step.RemoveIt? || (step.ChangeProject? && step.next == Some(Archived))
    ensures Stays(s, Apply(s, step))
  {
    hide Inv, ReleaseAll, ActiveOf, Perform, Batch, Apply, AnyItemMissing;
    ClosedIs(s, step);
    var ids, t := ActiveOf(s, s.order, step.projectId), Apply(s, step);
    ProjectBatch(s, step.projectId);
    ReleasedStays(s, ids, t.projects);
  }

  lemma AddRevisionStays(s: State, projectId: Id, revisionId: Id, draft: RevisionDraft)
    requires CreateRevision(s, projectId, revisionId, draft).Ok?
    ensures Stays(s, CreateRevision(s, projectId, revisionId, draft).value)
  {
    hide Latest, Drafted;
  }

  lemma ChangeRevisionStays(s: State, revisionId: Id, draft: RevisionDraft, expected: Option<nat>)
    requires UpdateRevision(s, revisionId, draft, expected).Ok?
    ensures Stays(s, UpdateRevision(s, revisionId, draft, expected).value)
  {
    hide RouteOf, PrinterOf;
  }

  /** Projects, slugs and work items are no part of what has to stay. */
  lemma SameGraphStays(s: State, t: State)
    requires t.stock == s.stock && t.lines == s.lines && t.revisions == s.revisions
    ensures Stays(s, t)
  {
  }

  lemma OnProjectsStays(s: State, step: Step)
    requires Perform(s, step).Ok?
    requires step.AddProject? || step.AddRevision? || step.ChangeRevision? || step.AddWorkItem? || step.RestoreIt?
          || (step.ChangeProject? && step.next != Some(Archived))
    ensures Stays(s, Apply(s, step))
  {
    if step.ChangeProject? {
      UpdateShape(s, step.projectId, step.rename, step.next, step.expected);
    } else if step.RestoreIt? {
      RestoreShape(s, step.projectId, step.expected);
    }
    hide Stays, CreateRevision, UpdateRevision, UpdateProject, RestoreProject;
    if step.AddRevision? {
      AddRevisionStays(s, step.projectId, step.revisionId, step.draft);
    } else if step.ChangeRevision? {
      ChangeRevisionStays(s, step.revisionId, step.draft, step.expected);
    } else {
      SameGraphStays(s, Apply(s, step));
    }
  }

  /** At most one line was written, in its place. */
  ghost predicate WritesLine(s: State, t: State, lineId: Id) {
    && t == s.(lines := t.lines)
    && forall l :: l in s.lines ==> l in t.lines && (l != lineId ==> t.lines[l] == s.lines[l])
  }

  lemma CreatedLine(s: State, revisionId: Id, lineId: Id, basis: Requirement)
    requires CreateLine(s, revisionId, lineId, basis).Ok?
    ensures WritesLine(s, CreateLine(s, revisionId, lineId, basis).value, lineId)
  {
    hide Inactive;
  }

  lemma UpdatedLine(s: State, lineId: Id, change: BasisChange, expected: Option<nat>)
    requires UpdateLine(s, lineId, change, expected).Ok?
    ensures var t := UpdateLine(s, lineId, change, expected).value;
            WritesLine(s, t, lineId) && lineId in s.lines && t.lines[lineId].revisionId == s.lines[lineId].revisionId
  {
    hide HasActive, ChangesReserved, Merged;
  }

  lemma RetiredLine(s: State, lineId: Id, expected: Option<nat>)
    requires RetireLine(s, lineId, expected).Ok?
    ensures var t := RetireLine(s, lineId, expected).value;
            WritesLine(s, t, lineId) && lineId in s.lines && t.lines[lineId].revisionId == s.lines[lineId].revisionId
  {
    hide HasActive;
  }

  lemma RestoredLine(s: State, lineId: Id, expected: Option<nat>)
    requires RestoreLine(s, lineId, expected).Ok?
    ensures var t := RestoreLine(s, lineId, expected).value;
            WritesLine(s, t, lineId) && lineId in s.lines && t.lines[lineId].revisionId == s.lines[lineId].revisionId
  {
  }

  lemma OnLinesOnly(s: State, step: Step)
    requires Perform(s, step).Ok?
    requires step.AddLine? || step.ChangeLine? || step.CloseLine? || step.ReopenLine?
    ensures WritesLine(s, Apply(s, step), step.lineId)
    ensures step.lineId in s.lines && !step.AddLine? ==>
              Apply(s, step).lines[step.lineId].revisionId == s.lines[step.lineId].revisionId
  {
    hide CreateLine, UpdateLine, RetireLine, RestoreLine, WritesLine;
    match step
    case AddLine(r, l, b) => CreatedLine(s, r, l, b);
    case ChangeLine(l, c, v) => UpdatedLine(s, l, c, v);
    case CloseLine(l, v) => RetiredLine(s, l, v);
    case ReopenLine(l, v) => RestoredLine(s, l, v);
  }

  lemma OnLinesStays(s: State, step: Step)
    requires Owed(s, step) && Perform(s, step).Ok?
    requires step.AddLine? || step.ChangeLine? || step.CloseLine? || step.ReopenLine?
    ensures Stays(s, Apply(s, step))
  {
    hide Perform, Apply, HandReleaseSafe, IdsDistinct;
    OnLinesOnly(s, step);
  }

  lemma SetupStays(s: State, p: Proposal)
    requires Inv(s) && IdsDistinct(p) && SetUp(s, p).Ok?
    ensures Stays(s, SetUp(s, p).value)
  {
    hide Inv, Preflight, Commit, IdsDistinct, SetupProof.RowsPlaced, WithLines, WithWork;
    var t := SetUp(s, p).value;
    SetupProof.CommitExact(s, p);
    SetupProof.PreflightClash(s, p);
    LinesClear(s, p);
    LinesStay(s.lines, p.revisionId, p.lines);
  }

  lemma LinesClear(s: State, p: Proposal)
    requires !IdentityClash(s, p)
    ensures p.revisionId !in s.revisions && forall l :: l in p.lines ==> l.id !in s.lines
  {
  }

  lemma {:induction false} LinesStay(lines: map<Id, Line>, revisionId: Id, planned: seq<PlannedLine>)
    requires forall l :: l in planned ==> l.id !in lines
    ensures forall id :: id in lines ==>
              id in WithLines(lines, revisionId, planned) && WithLines(lines, revisionId, planned)[id] == lines[id]
  {
    if planned != [] {
      LinesStay(lines, revisionId, planned[..|planned| - 1]);
    }
  }

  lemma StepStays(s: State, step: Step)
    requires Inv(s) && Owed(s, step)
    ensures Stays(s, Apply(s, step))
  {
    if Perform(s, step).Err? {
      assert Apply(s, step) == s;
    } else if step.ArchiveIt? || step.RemoveIt? || (step.ChangeProject? && step.next == Some(Archived)) {
      ClosingStays(s, step);
    } else if step.CommitSetup? {
      SetupStays(s, step.proposal);
    } else if step.PlaceReservation? || step.EndReservation? || step.UseReservation? {
      OnReservationsStays(s, step);
    } else if step.AddItem? || step.UndoAddItem? || step.Retire? || step.Describe? || step.CountStock?
              || step.WriteEvent? {
      OnStockStays(s, step);
    } else if step.AddLine? || step.ChangeLine? || step.CloseLine? || step.ReopenLine? {
      OnLinesStays(s, step);
    } else {
      OnProjectsStays(s, step);
    }
  }

  lemma StaysOn(s: State, t: State, u: State)
    requires Stays(s, t) && Stays(t, u)
    ensures Stays(s, u)
  {
  }

  lemma {:induction false} RunStays(s: State, steps: seq<Step>)
    requires Inv(s) && OwedThroughout(s, steps)
    ensures Stays(s, Run(s, steps))
  {
    hide Inv, Apply;
    if steps != [] {
      var rest := steps[..|steps| - 1];
      assert forall n :: 0 <= n <= |rest| ==> rest[..n] == steps[..n];
      RunStays(s, rest);
      RunKeeps(s, rest);
      StepStays(Run(s, rest), steps[|steps| - 1]);
      StaysOn(s, Run(s, rest), Run(s, steps));
    }
  }
}
