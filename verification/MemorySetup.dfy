/** `MemoryProjectSetup`: a setup commit is all or nothing, and its last success can be undone exactly. */
module MemorySetup {
  import opened Outcomes
  import opened LedgerModel
  import opened LedgerInvariant
  import opened SetupModel
  import opened RevisionNumbers
  import opened MemoryStore

  class MemoryAudit {
    var events: seq<string>

    constructor () ensures events == [] {
      events := [];
    }

    method Append(event: string)
      modifies this
      ensures events == old(events) + [event]
    {
      events := events + [event];
    }
  }

  class MemoryIdempotency {
    var values: map<string, string>

    constructor () ensures values == map[] {
      values := map[];
    }

    method Set(key: string, value: string)
      modifies this
      ensures values == old(values)[key := value]
    {
      values := values[key := value];
    }
  }

  /** What a preview recorded about one item, to detect that the item moved since. */
  datatype Basis = Basis(itemId: Id, version: nat, quantity: real, available: real, held: real, unit: Unit,
    evidence: Evidence)

  datatype Preview = Preview(
    id: Id, proposal: Proposal, basis: seq<Basis>, fieldErrors: nat, committed: bool, version: nat)

  datatype SavedPreview = SavedPreview(actor: string, preview: Preview)

  /** Everything a setup commit may touch. */
  datatype Snapshot = Snapshot(
    ledger: State, previews: map<Id, SavedPreview>, audit: seq<string>, idempotency: map<string, string>)

  predicate BasisCurrent(stock: Stock, b: Basis) {
    && Live(stock, b.itemId)
    && var item := stock.items[b.itemId];
       && item.version == b.version && item.quantity == b.quantity && item.available == b.available
       && Max(0.0, item.quantity - item.available) == b.held && item.unit == b.unit && item.evidence == b.evidence
  }

  /**
   What item records and catalog say of printers: the kind of an item, whether its unit needs correction, its profile.
   */
  datatype Catalog = Catalog(kind: Id -> string, misfit: Id -> bool, profile: Id -> Option<Error>)

  /** `assertOwnedPrinter` */
  function PrinterError(stock: Stock, catalog: Catalog, itemId: Id): Option<Error> {
    if !Live(stock, itemId) then Some(NotFound)
    else
      var item := stock.items[itemId];
      if catalog.kind(itemId) != "printer" || item.unit != "each" || catalog.misfit(itemId)
         || !CanCount(item.evidence) || item.quantity <= 0.0 || item.available <= 0.0
      then Some(Validation)
      else catalog.profile(itemId)
  }

  /** The printer of the initial revision, where one is named. */
  function DraftError(stock: Stock, catalog: Catalog, draft: RevisionDraft): Option<Error> {
    if draft.printer.None? || draft.printer.value.None? then None
    else if draft.route != Some(RoutePrinted) then Some(Validation)
    else PrinterError(stock, catalog, draft.printer.value.value)
  }

  /** The command on values: field errors, then the printer, then the basis, then preflight and build. */
  ghost function CommitCommand(s: State, catalog: Catalog, preview: Preview): Result<State> {
    if preview.fieldErrors > 0 then Err(Validation)
    else if DraftError(s.stock, catalog, preview.proposal.draft).Some?
    then Err(DraftError(s.stock, catalog, preview.proposal.draft).value)
    else if exists b :: b in preview.basis && !BasisCurrent(s.stock, b) then Err(Conflict)
    else SetUp(s, preview.proposal)
  }

  class MemoryProjectSetup {
    const projects: MemoryProjects
    const audit: MemoryAudit
    const idempotency: MemoryIdempotency
    const catalog: Catalog
    var previews: map<Id, SavedPreview>
    var lastSnapshot: Option<Snapshot>

    constructor (projects: MemoryProjects, audit: MemoryAudit, idempotency: MemoryIdempotency, catalog: Catalog)
      ensures this.projects == projects && this.audit == audit && this.idempotency == idempotency
           && this.catalog == catalog
      ensures previews == map[] && lastSnapshot == None
    {
      this.projects, this.audit, this.idempotency, this.catalog := projects, audit, idempotency, catalog;
      previews, lastSnapshot := map[], None;
    }

    ghost function Everything(): Snapshot
      reads this, projects, projects.inventory, audit, idempotency
    {
      Snapshot(projects.Contents(), previews, audit.events, idempotency.values)
    }

    ghost predicate Valid()
      reads this, projects
    {
      && projects.Valid()
      && (lastSnapshot.Some? ==>
            TableOk(lastSnapshot.value.ledger) && NumbersDistinct(lastSnapshot.value.ledger.revisions))
    }

    method SavePreview(preview: Preview, actor: string)
      modifies this`previews
      ensures previews == old(previews)[preview.id := SavedPreview(actor, preview)]
    {
      previews := previews[preview.id := SavedPreview(actor, preview)];
    }

    method RestoreState(saved: Snapshot)
      requires TableOk(saved.ledger) && NumbersDistinct(saved.ledger.revisions) && projects.ReceiptsKeyed()
      modifies this`previews, projects, projects.inventory, audit, idempotency
      ensures projects.Valid() && Everything() == saved
    {
      projects.RestoreState(saved.ledger);
      previews, audit.events, idempotency.values := saved.previews, saved.audit, saved.idempotency;
    }

    method RunPreflight(p: Proposal) returns (failure: Option<Error>)
      ensures failure == Preflight(projects.Contents(), p)
    {
      hide FirstRefusal, PlanRefusal, IdentityClash, PlannedTotal;
      var clash := Clash(p);
      if clash {
        return Some(Conflict);
      }
      var reservedByItem;
      failure, reservedByItem := CheckPlan(p);
      if failure.Some? {
        return;
      }
      var enough := CheckTotals(p, reservedByItem);
      return if enough then None else Some(Conflict);
    }

    /** The first preflight loop with its two running sums. */
    method CheckPlan(p: Proposal) returns (failure: Option<Error>, reservedByItem: map<Id, real>)
      ensures failure == FirstRefusal(projects.Contents(), p, 0)
      ensures failure.None? ==> forall r :: r in p.reservations ==>
                r.itemId in reservedByItem && reservedByItem[r.itemId] == PlannedTotal(p, |p.reservations|, r.itemId)
      ensures failure.None? ==> forall i :: i in reservedByItem ==> exists r :: r in p.reservations && r.itemId == i
    {
      hide InLineUnit, LineByRef, PlanRefusal, PlannedCoverage, PlannedTotal;
      NothingPlanned(projects.Contents(), p);
      ghost var s := projects.Contents();
      var reservedByLine: map<string, real> := map[];
      reservedByItem := map[];
      for k := 0 to |p.reservations|
        invariant FirstRefusal(s, p, 0) == FirstRefusal(s, p, k)
        invariant forall ref :: (if ref in reservedByLine then reservedByLine[ref] else 0.0) ==
                    PlannedCoverage(s, p, k, ref)
        invariant forall i :: (if i in reservedByItem then reservedByItem[i] else 0.0) == PlannedTotal(p, k, i)
        invariant forall i :: i in reservedByItem ==> exists r :: r in p.reservations && r.itemId == i
        invariant forall j :: 0 <= j < k ==> p.reservations[j].itemId in reservedByItem
      {
        var r := p.reservations[k];
        assert r in p.reservations;
        var prior := if r.lineRef in reservedByLine then reservedByLine[r.lineRef] else 0.0;
        failure := CheckPlanned(p, k, prior);
        if failure.Some? {
          return;
        }
        PlannedKnown(s, p, k);
        var basis, unit := LineByRef(p.lines, r.lineRef).value.basis, projects.inventory.items[r.itemId].unit;
        CoverageStep(s, p, k);
        TotalStep(p, k);
        reservedByLine := reservedByLine[r.lineRef := prior + InLineUnit(basis, r.itemId, unit, r.quantity)];
        reservedByItem := reservedByItem[r.itemId :=
          (if r.itemId in reservedByItem then reservedByItem[r.itemId] else 0.0) + r.quantity];
      }
      failure := None;
    }

    /** The second preflight loop over the totals per item. */
    method CheckTotals(p: Proposal, reservedByItem: map<Id, real>) returns (enough: bool)
      requires forall r :: r in p.reservations ==>
                 r.itemId in reservedByItem && reservedByItem[r.itemId] == PlannedTotal(p, |p.reservations|, r.itemId)
      requires forall i :: i in reservedByItem ==> exists r :: r in p.reservations && r.itemId == i
      ensures enough == StockSuffices(projects.Contents(), p)
    {
      hide PlannedTotal;
      var rest := reservedByItem.Keys;
      while rest != {}
        invariant rest <= reservedByItem.Keys
        invariant forall i :: i in reservedByItem && i !in rest ==>
                    Live(projects.Contents().stock, i) && reservedByItem[i] <= projects.inventory.items[i].available
        decreases rest
      {
        var i :| i in rest;
        if i !in projects.inventory.items || projects.inventory.items[i].retired
           || reservedByItem[i] > projects.inventory.items[i].available {
          return false;
        }
        rest := rest - {i};
      }
      return true;
    }

    method Clash(p: Proposal) returns (clash: bool)
      ensures clash == IdentityClash(projects.Contents(), p)
    {
      if p.projectId in projects.projects || p.revisionId in projects.revisions {
        return true;
      }
      if exists w :: w in p.workItems && w in projects.workItems {
        return true;
      }
      if exists l :: l in p.lines && l.id in projects.lines {
        return true;
      }
      return exists r :: r in p.reservations && r.id in projects.reservations
               && projects.reservations[r.id].lineId in projects.lines
               && projects.lines[projects.reservations[r.id].lineId].revisionId in projects.revisions;
    }

    method CheckPlanned(p: Proposal, k: nat, prior: real) returns (failure: Option<Error>)
      requires k < |p.reservations|
      requires prior == PlannedCoverage(projects.Contents(), p, k, p.reservations[k].lineRef)
      ensures failure == PlanRefusal(projects.Contents(), p, k)
    {
      var r := p.reservations[k];
      var line := LineByRef(p.lines, r.lineRef);
      if line.None? || r.itemId !in projects.inventory.items || projects.inventory.items[r.itemId].retired {
        return Some(Validation);
      }
      if !line.value.specified {
        return Some(Validation);
      }
      var basis, item := line.value.basis, projects.inventory.items[r.itemId];
      var conversion := ConversionFactor(basis, r.itemId, item.unit);
      if || !Approved(basis, r.itemId) || (item.unit != basis.unit && conversion.None?)
         || (r.unit.Some? && r.unit.value != item.unit) || !(basis.constraints <= item.facts)
         || !CanCount(item.evidence) {
        return Some(Conflict);
      }
      if conversion.Some? && !IsWhole(r.quantity) {
        return Some(Conflict);
      }
      var factor: Factor := if conversion.Some? then conversion.value else 1;
      var maximumInventoryUnits := Ceil(Max(0.0, basis.required - prior) / factor as real);
      if r.quantity > maximumInventoryUnits as real {
        return Some(Conflict);
      }
      return None;
    }

    /** The build inside the try block; a failure may leave part of the graph behind. */
    method Build(p: Proposal) returns (failure: Option<Error>)
      requires Valid()
      modifies projects, projects.inventory
      ensures projects.Valid()
      ensures failure.None? ==> Commit(old(projects.Contents()), p) == Ok(projects.Contents())
      ensures failure.Some? ==> Commit(old(projects.Contents()), p) == Err(failure.value)
    {
      hide CreateProjectWithRevision, Place;
      ghost var s := projects.Contents();
      failure := projects.CreateProjectWithInitialRevision(p.projectId, p.name, p.slug, p.status, p.revisionId,
        p.draft);
      if failure.Some? {
        return;
      }
      ghost var created := projects.Contents();
      failure := BuildWork(p.projectId, p.workItems);
      if failure.Some? {
        return;
      }
      ghost var worked := projects.Contents();
      failure := BuildLines(p.revisionId, p.lines);
      if failure.Some? {
        return;
      }
      ghost var built := projects.Contents();
      failure := PlaceReservations(p);
    }

    method BuildWork(projectId: Id, ids: seq<Id>) returns (failure: Option<Error>)
      requires projects.Valid()
      modifies projects`workItems
      ensures failure.None? ==> AddWork(old(projects.Contents()), projectId, ids) == Ok(projects.Contents())
      ensures failure.Some? ==> AddWork(old(projects.Contents()), projectId, ids) == Err(failure.value)
    {
      hide CreateWorkItem;
      ghost var s := projects.Contents();
      for n := 0 to |ids|
        invariant AddWork(s, projectId, ids[..n]) == Ok(projects.Contents())
      {
        assert ids[..n + 1][..n] == ids[..n];
        failure := projects.CreateWorkItem(projectId, ids[n]);
        if failure.Some? {
          WorkFails(s, projectId, ids, n + 1);
          return;
        }
      }
      assert ids[..|ids|] == ids;
      failure := None;
    }

    method BuildLines(revisionId: Id, lines: seq<PlannedLine>) returns (failure: Option<Error>)
      requires projects.Valid()
      modifies projects`lines
      ensures failure.None? ==> AddLines(old(projects.Contents()), revisionId, lines) == Ok(projects.Contents())
      ensures failure.Some? ==> AddLines(old(projects.Contents()), revisionId, lines) == Err(failure.value)
    {
      hide CreateLine;
      ghost var s := projects.Contents();
      for n := 0 to |lines|
        invariant AddLines(s, revisionId, lines[..n]) == Ok(projects.Contents())
      {
        assert lines[..n + 1][..n] == lines[..n];
        failure := projects.CreateBomLine(revisionId, lines[n].id, lines[n].basis);
        if failure.Some? {
          LinesFail(s, revisionId, lines, n + 1);
          return;
        }
      }
      assert lines[..|lines|] == lines;
      failure := None;
    }

    method PlaceReservations(p: Proposal) returns (failure: Option<Error>)
      requires projects.Valid()
      modifies projects`order, projects`reservations, projects.inventory
      ensures projects.Valid()
      ensures failure.None? ==> PlaceFirst(old(projects.Contents()), p, |p.reservations|) == Ok(projects.Contents())
      ensures failure.Some? ==> PlaceFirst(old(projects.Contents()), p, |p.reservations|) == Err(failure.value)
    {
      hide LineByRef, CreateReservation;
      ghost var s := projects.Contents();
      for k := 0 to |p.reservations|
        invariant projects.Valid() && PlaceFirst(s, p, k) == Ok(projects.Contents())
      {
        var r := p.reservations[k];
        var line := LineByRef(p.lines, r.lineRef);
        if line.None? {
          PlacingFails(s, p, k + 1);
          return Some(Validation);
        }
        failure := projects.CreateReservation(p.revisionId,
          ReservationInput(r.id, line.value.id, r.itemId, r.quantity));
        if failure.Some? {
          PlacingFails(s, p, k + 1);
          return;
        }
        if r.itemId !in projects.inventory.items {
          PlacingFails(s, p, k + 1);
          return Some(IntegrityError);
        }
        var version := projects.inventory.items[r.itemId].version;
        projects.inventory.Append(r.itemId, StockEvent(Allocate, r.quantity, version, Some(r.id)));
      }
      failure := None;
    }

    /**
     `commitPreview`: a refusal or failure at any point leaves ledger, previews, audit and idempotency as they
     were and no receipt; a success reaches the specified ledger, marks the preview and keeps the receipt.
     */
    method CommitPreview(preview: Preview, actor: string) returns (failure: Option<Error>)
      requires Valid()
      modifies this, projects, projects.inventory, audit, idempotency
      ensures Valid()
      ensures failure ==
              match CommitCommand(old(projects.Contents()), catalog, preview)
              case Ok(_) => None
              case Err(error) => Some(error)
      ensures failure.Some? ==> Everything() == old(Everything()) && lastSnapshot == None
      ensures failure.None? ==>
                && lastSnapshot == Some(old(Everything()))
                && Everything() == old(Everything()).(
                     ledger := CommitCommand(old(projects.Contents()), catalog, preview).value,
                     previews := old(previews)[preview.id :=
                       SavedPreview(actor, preview.(committed := true, version := preview.version + 1))])
    {
      hide Preflight, Commit;
      lastSnapshot := None;
      if preview.fieldErrors > 0 {
        return Some(Validation);
      }
      failure := DraftError(Stock(projects.inventory.items, projects.inventory.events), catalog,
        preview.proposal.draft);
      if failure.Some? {
        return;
      }
      var stock := Stock(projects.inventory.items, projects.inventory.events);
      if exists b :: b in preview.basis && !BasisCurrent(stock, b) {
        return Some(Conflict);
      }
      failure := RunPreflight(preview.proposal);
      if failure.Some? {
        return;
      }
      var ledger := projects.SnapshotState();
      var saved := Snapshot(ledger, previews, audit.events, idempotency.values);
      lastSnapshot := Some(saved);
      failure := Build(preview.proposal);
      if failure.Some? {
        RestoreState(saved);
        lastSnapshot := None;
        return;
      }
      previews := previews[preview.id := SavedPreview(actor,
        preview.(committed := true, version := preview.version + 1))];
    }

    /** Undo the last successful commit, whatever was audited or remembered since. */
    method RollbackLastCommit()
      requires Valid()
      modifies this, projects, projects.inventory, audit, idempotency
      ensures Valid() && lastSnapshot == None
      ensures Everything() == if old(lastSnapshot).Some? then old(lastSnapshot).value else old(Everything())
    {
      if lastSnapshot.None? {
        return;
      }
      RestoreState(lastSnapshot.value);
      lastSnapshot := None;
    }
  }

  /** A mutation around a commit that fails after it, as the service runs it: everything is as before. */
  method CommitThenFailedAudit(setup: MemoryProjectSetup, preview: Preview, actor: string, event: string, key: string)
    returns (failure: Option<Error>)
    requires setup.Valid()
    modifies setup, setup.projects, setup.projects.inventory, setup.audit, setup.idempotency
    ensures setup.Everything() == old(setup.Everything())
  {
    failure := setup.CommitPreview(preview, actor);
    if failure.None? {
      setup.audit.Append(event);
      setup.idempotency.Set(key, event);
      setup.RollbackLastCommit();
    }
  }

  lemma PlannedKnown(s: State, p: Proposal, k: nat)
    requires k < |p.reservations| && PlanRefusal(s, p, k) == None
    ensures LineByRef(p.lines, p.reservations[k].lineRef).Some? && p.reservations[k].itemId in s.stock.items
  {
  }

  lemma CoverageStep(s: State, p: Proposal, k: nat)
    requires k < |p.reservations| && LineByRef(p.lines, p.reservations[k].lineRef).Some?
    requires p.reservations[k].itemId in s.stock.items
    ensures var r := p.reservations[k];
            var planned := InLineUnit(LineByRef(p.lines, r.lineRef).value.basis, r.itemId,
              s.stock.items[r.itemId].unit, r.quantity);
            forall ref :: PlannedCoverage(s, p, k + 1, ref) ==
              PlannedCoverage(s, p, k, ref) + if ref == r.lineRef then planned else 0.0
  {
    hide InLineUnit;
  }

  lemma TotalStep(p: Proposal, k: nat)
    requires k < |p.reservations|
    ensures var r := p.reservations[k];
            forall i :: PlannedTotal(p, k + 1, i) == PlannedTotal(p, k, i) + if i == r.itemId then r.quantity else 0.0
  {
  }

  lemma NothingPlanned(s: State, p: Proposal)
    ensures forall ref :: PlannedCoverage(s, p, 0, ref) == 0.0
    ensures forall i :: PlannedTotal(p, 0, i) == 0.0
  {
  }

  lemma {:induction false} WorkFails(s: State, projectId: Id, ids: seq<Id>, n: nat)
    requires n <= |ids| && AddWork(s, projectId, ids[..n]).Err?
    ensures AddWork(s, projectId, ids) == AddWork(s, projectId, ids[..n])
    decreases |ids|
  {
    if n == |ids| {
      assert ids[..n] == ids;
    } else {
      assert ids[..|ids| - 1][..n] == ids[..n];
      WorkFails(s, projectId, ids[..|ids| - 1], n);
    }
  }

  lemma {:induction false} LinesFail(s: State, revisionId: Id, lines: seq<PlannedLine>, n: nat)
    requires n <= |lines| && AddLines(s, revisionId, lines[..n]).Err?
    ensures AddLines(s, revisionId, lines) == AddLines(s, revisionId, lines[..n])
    decreases |lines|
  {
    if n == |lines| {
      assert lines[..n] == lines;
    } else {
      assert lines[..|lines| - 1][..n] == lines[..n];
      LinesFail(s, revisionId, lines[..|lines| - 1], n);
    }
  }

  lemma {:induction false} PlacingFails(s: State, p: Proposal, k: nat)
    requires k <= |p.reservations| && PlaceFirst(s, p, k).Err?
    ensures PlaceFirst(s, p, |p.reservations|) == PlaceFirst(s, p, k)
    decreases |p.reservations| - k
  {
    if k < |p.reservations| {
      PlacingFails(s, p, k + 1);
    }
  }
}
