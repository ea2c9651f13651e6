/**
 The stock and reservation ledger of `MemoryInventory` and `MemoryProjects` as values: the records, and
 every operation as a function from the state before to the state after or the error thrown.
 Quantities are reals; timestamps, names of actors and free text are left out.
 */
module LedgerModel {
  import opened Outcomes
  import opened Tables

  type Id = string
  type Unit = string

  datatype Evidence = PhysicallyCounted | Commissioned | Unconfirmed(state: string)

  /** `facts` are the BOM constraint entries this item satisfies (kind, maker, model, sku, tags, name). */
  datatype Item = Item(
    quantity: real, available: real, unit: Unit, evidence: Evidence,
    retired: bool, facts: set<string>, version: nat)

  datatype EventKind = Count | Receipt | Return | Correction | Allocate | Consume | Loss | Dispose | Release

  datatype StockEvent = StockEvent(kind: EventKind, quantity: real, itemVersion: nat, reservation: Option<Id>)

  /** The two maps of `MemoryInventory`. */
  datatype Stock = Stock(items: map<Id, Item>, events: map<Id, seq<StockEvent>>)

  datatype Status = Idea | Planned | Ready | Building | Validating | Complete | Archived

  datatype Tombstone = Tombstone(lastStatus: Status, released: seq<Id>)

  /** `current` is the revision created last. */
  datatype Project = Project(name: string, status: Status, removed: Option<Tombstone>, current: Option<Id>,
    version: nat)

  datatype Route = RoutePrinted | RouteReadyMade | RouteNone | RouteUndecided

  datatype Revision = Revision(projectId: Id, number: nat, route: Route, printer: Option<Id>, version: nat)

  /** What a new or changed revision states: each field may be left out, and the printer may be given as none. */
  datatype RevisionDraft = RevisionDraft(route: Option<Route>, printer: Option<Option<Id>>)

  datatype Role = Undecided | Consumed | Reusable

  /** A whole, positive number of requirement units per inventory unit, as the contract's schema demands. */
  type Factor = n: int | 1 <= n witness 1

  datatype Conversion = Conversion(inventoryUnit: Unit, requirementUnit: Unit, factor: Factor)

  datatype Alternative = Alternative(itemId: Id, confirmed: bool, conversion: Option<Conversion>)

  /** The planning basis of a BOM line: the fields whose change an active reservation forbids. */
  datatype Requirement = Requirement(
    itemId: Option<Id>, role: Role, required: real, unit: Unit,
    optional: bool, constraints: set<string>, alternatives: seq<Alternative>)

  datatype Line = Line(revisionId: Id, basis: Requirement, retired: bool, version: nat)

  datatype ReservationStatus = Active | Released | Used

  datatype Reservation = Reservation(
    lineId: Id, itemId: Id, quantity: real, status: ReservationStatus, version: nat)

  /** `order` is the insertion order of the JavaScript Map holding the reservations. */
  datatype State = State(
    stock: Stock,
    projects: map<Id, Project>,
    slugs: map<Id, string>,
    revisions: map<Id, Revision>,
    lines: map<Id, Line>,
    order: seq<Id>,
    reservations: map<Id, Reservation>,
    workItems: map<Id, Id>)

  // ---------- helpers ----------

  predicate CanCount(evidence: Evidence) {
    evidence.PhysicallyCounted? || evidence.Commissioned?
  }

  function Ceil(x: real): int { -((-x).Floor) }

  predicate IsWhole(x: real) { x == x.Floor as real }

  function EventsOf(stock: Stock, itemId: Id): seq<StockEvent> {
    if itemId in stock.events then stock.events[itemId] else []
  }

  function WithItem(stock: Stock, itemId: Id, item: Item): Stock {
    stock.(items := stock.items[itemId := item])
  }

  function WithEvent(stock: Stock, itemId: Id, event: StockEvent): Stock {
    stock.(events := stock.events[itemId := EventsOf(stock, itemId) + [event]])
  }

  predicate Live(stock: Stock, itemId: Id) {
    itemId in stock.items && !stock.items[itemId].retired
  }

  // ---------- MemoryInventory ----------

  function CreateItem(
    stock: Stock, itemId: Id, quantity: real, available: Option<real>,
    unit: Unit, evidence: Evidence, facts: set<string>): Result<Stock>
  {
    if itemId in stock.items then Err(Conflict)
    else
      var offered := if available.Some? then available.value else quantity;
      var available := if CanCount(evidence) then Min(quantity, offered) else 0.0;
      var item := Item(quantity, available, unit, evidence, false, facts, 1);
      var created := WithItem(stock, itemId, item);
      if !CanCount(evidence) then Ok(created)
      else
        var counted := [StockEvent(Count, quantity, 1, None)];
        var setAside := if quantity - offered > 0.0 then [StockEvent(Allocate, quantity - offered, 1, None)] else [];
        Ok(created.(events := created.events[itemId := counted + setAside]))
  }

  function RollbackCreatedItem(stock: Stock, itemId: Id): Result<Stock> {
    if itemId !in stock.items then Ok(stock)
    else if stock.items[itemId].version != 1 then Err(IntegrityError)
    else Ok(Stock(stock.items - {itemId}, stock.events - {itemId}))
  }

  function RetireItem(stock: Stock, itemId: Id, expected: Option<nat>): Result<Stock> {
    if !Live(stock, itemId) then Err(NotFound)
    else
      var item := stock.items[itemId];
      if Stale(item.version, expected) then Err(Conflict)
      else if CanCount(item.evidence) && item.quantity > item.available then Err(Conflict)
      else Ok(WithItem(stock, itemId, item.(retired := true, version := item.version + 1)))
  }

  /** `updateItem`: only descriptive fields may change. */
  function UpdateItem(stock: Stock, itemId: Id, facts: set<string>, expected: Option<nat>): Result<Stock> {
    if !Live(stock, itemId) then Err(NotFound)
    else
      var item := stock.items[itemId];
      if Stale(item.version, expected) then Err(Conflict)
      else Ok(WithItem(stock, itemId, item.(facts := facts, version := item.version + 1)))
  }

  /** `recordCount`; `commissioning` carries the unit of a commissioning command. */
  function RecordCount(
    stock: Stock, itemId: Id, quantity: real, commissioning: Option<Unit>, expected: Option<nat>): Result<Stock>
  {
    if !Live(stock, itemId) then Err(NotFound)
    else if quantity < 0.0 then Err(Validation)
    else
      var item := stock.items[itemId];
      var held := if CanCount(item.evidence) then item.quantity - item.available else 0.0;
      if commissioning.Some? && CanCount(item.evidence) then Err(Conflict)
      else if commissioning.Some? && commissioning.value != item.unit then Err(Validation)
      else if Stale(item.version, expected) then Err(Conflict)
      else if quantity < held then Err(Conflict)
      else
        var counted := item.(
          quantity := quantity, available := quantity - held,
          evidence := if commissioning.Some? then Commissioned else PhysicallyCounted,
          version := item.version + 1);
        Ok(WithEvent(WithItem(stock, itemId, counted), itemId, StockEvent(Count, quantity, counted.version, None)))
  }

  /** What one hand-written event (other than a count) does to an item's two quantities. */
  function Moved(item: Item, kind: EventKind, quantity: real): Item
    requires !kind.Count?
  {
    match kind
    case Receipt | Return | Correction =>
      item.(quantity := item.quantity + quantity,
            available := if CanCount(item.evidence) then item.available + quantity else item.available)
    case Allocate => item.(available := item.available - quantity)
    case Consume | Loss | Dispose =>
      item.(quantity := item.quantity - quantity, available := item.available - quantity)
    case Release => item.(available := Min(item.quantity, item.available + quantity))
  }

  function RecordStockEvent(stock: Stock, itemId: Id, kind: EventKind, quantity: real, unit: Unit): Result<Stock> {
    if !Live(stock, itemId) then Err(NotFound)
    else
      var item := stock.items[itemId];
      if item.unit != unit then Err(Validation)
      else if kind.Count? then RecordCount(stock, itemId, quantity, None, None)
      else if quantity <= 0.0 then Err(Validation)
      else if kind in {Allocate, Consume, Loss, Dispose} && quantity > item.available then Err(Conflict)
      else
        var moved := Moved(item, kind, quantity).(version := item.version + 1);
        Ok(WithEvent(WithItem(stock, itemId, moved), itemId, StockEvent(kind, quantity, moved.version, None)))
  }

  // ---------- MemoryProjects: the project graph ----------

  function CreateProject(s: State, projectId: Id, name: string, slug: string, status: Status): Result<State> {
    if projectId in s.projects then Err(Conflict)
    else Ok(s.(projects := s.projects[projectId := Project(name, status, None, None, 1)],
      slugs := s.slugs[projectId := slug]))
  }

  /** `assertProjectActive` */
  function Inactive(s: State, projectId: Id): Option<Error> {
    if projectId !in s.projects then Some(NotFound)
    else if s.projects[projectId].removed.Some? then Some(ProjectRemoved)
    else if s.projects[projectId].status == Archived then Some(Conflict)
    else None
  }

  /** The project's revision with the highest number. Numbers never repeat, so there is no tie to break. */
  predicate IsLatest(revisions: map<Id, Revision>, projectId: Id, v: Id) {
    && v in revisions && revisions[v].projectId == projectId
    && forall w :: w in revisions && revisions[w].projectId == projectId ==> revisions[w].number <= revisions[v].number
  }

  ghost function Latest(revisions: map<Id, Revision>, projectId: Id): (before: Option<Revision>) {
    if exists v :: IsLatest(revisions, projectId, v)
    then var v :| IsLatest(revisions, projectId, v); Some(revisions[v])
    else None
  }

  /** What is left out is as in the revision before. */
  function RouteOf(draft: RevisionDraft, before: Option<Revision>): Route {
    if draft.route.Some? then draft.route.value else if before.Some? then before.value.route else RouteUndecided
  }

  /** Only the printed route has a printer. */
  function PrinterOf(draft: RevisionDraft, before: Option<Revision>): Option<Id> {
    if RouteOf(draft, before) != RoutePrinted then None
    else if draft.printer.Some? then draft.printer.value
    else if before.Some? then before.value.printer
    else None
  }

  /** A printer is named for another route. */
  predicate PrinterRefused(draft: RevisionDraft, before: Option<Revision>) {
    draft.printer.Some? && draft.printer.value.Some? && RouteOf(draft, before) != RoutePrinted
  }

  function Drafted(projectId: Id, draft: RevisionDraft, before: Option<Revision>): Revision {
    var number := if before.Some? then before.value.number + 1 else 1;
    Revision(projectId, number, RouteOf(draft, before), PrinterOf(draft, before), 1)
  }

  ghost function CreateRevision(s: State, projectId: Id, revisionId: Id, draft: RevisionDraft): Result<State> {
    if Inactive(s, projectId).Some? then Err(Inactive(s, projectId).value)
    else
      var before := Latest(s.revisions, projectId);
      if PrinterRefused(draft, before) then Err(Validation)
      else if revisionId in s.revisions then Err(Conflict)
      else
        Ok(s.(revisions := s.revisions[revisionId := Drafted(projectId, draft, before)],
              projects := s.projects[projectId := s.projects[projectId].(current := Some(revisionId))]))
  }

  /** `updateProjectRevision` */
  function UpdateRevision(s: State, revisionId: Id, draft: RevisionDraft, expected: Option<nat>): Result<State> {
    if revisionId !in s.revisions then Err(NotFound)
    else
      var current := s.revisions[revisionId];
      var inactive := Inactive(s, current.projectId);
      if inactive.Some? then Err(inactive.value)
      else if Stale(current.version, expected) then Err(Conflict)
      else if PrinterRefused(draft, Some(current)) then Err(Validation)
      else
        var route, printer := RouteOf(draft, Some(current)), PrinterOf(draft, Some(current));
        Ok(s.(revisions :=
                s.revisions[revisionId := current.(route := route, printer := printer,
                  version := current.version + 1)]))
  }

  /**
   `createProjectWithInitialRevision`: all or nothing, with the name's slug unique among all projects ever created.
   */
  ghost function CreateProjectWithRevision(
    s: State, projectId: Id, name: string, slug: string, status: Status, revisionId: Id,
    draft: RevisionDraft): Result<State>
  {
    if PrinterRefused(draft, None) then Err(Validation)
    else if projectId in s.projects || revisionId in s.revisions || (exists p :: p in s.slugs && s.slugs[p] == slug)
    then Err(Conflict)
    else
      match CreateProject(s, projectId, name, slug, status)
      case Err(error) => Err(error)
      case Ok(created) => CreateRevision(created, projectId, revisionId, draft)
  }

  function CreateWorkItem(s: State, projectId: Id, workItemId: Id): Result<State> {
    if Inactive(s, projectId).Some? then Err(Inactive(s, projectId).value)
    else Ok(s.(workItems := s.workItems[workItemId := projectId]))
  }

  function CreateLine(s: State, revisionId: Id, lineId: Id, basis: Requirement): Result<State> {
    if revisionId !in s.revisions then Err(NotFound)
    else
      var inactive := Inactive(s, s.revisions[revisionId].projectId);
      if inactive.Some? then Err(inactive.value)
      else Ok(s.(lines := s.lines[lineId := Line(revisionId, basis, false, 1)]))
  }

  predicate HasActive(s: State, lineId: Id) {
    exists r :: r in s.reservations && s.reservations[r].lineId == lineId && s.reservations[r].status == Active
  }

  /** `changesReservedRequirement`: settling an undecided role as consumed is not a change. */
  predicate ChangesReserved(current: Requirement, next: Requirement) {
    var role := if current.role == Undecided && next.role == Consumed then next.role else current.role;
    next != current.(role := role)
  }

  /** A partial update: only the fields given change; the item may be given as none. */
  datatype BasisChange = BasisChange(
    itemId: Option<Option<Id>>, role: Option<Role>, required: Option<real>, unit: Option<Unit>,
    optional: Option<bool>, constraints: Option<set<string>>, alternatives: Option<seq<Alternative>>)

  function Given<T>(change: Option<T>, current: T): T {
    if change.Some? then change.value else current
  }

  function Merged(current: Requirement, change: BasisChange): Requirement {
    Requirement(
      Given(change.itemId, current.itemId), Given(change.role, current.role), Given(change.required, current.required),
      Given(change.unit, current.unit), Given(change.optional, current.optional),
      Given(change.constraints, current.constraints), Given(change.alternatives, current.alternatives))
  }

  function UpdateLine(s: State, lineId: Id, change: BasisChange, expected: Option<nat>): Result<State> {
    if lineId !in s.lines then Err(NotFound)
    else
      var line := s.lines[lineId];
      var basis := Merged(line.basis, change);
      if Stale(line.version, expected) then Err(Conflict)
      else if ChangesReserved(line.basis, basis) && HasActive(s, lineId) then Err(Conflict)
      else Ok(s.(lines := s.lines[lineId := line.(basis := basis, version := line.version + 1)]))
  }

  function RetireLine(s: State, lineId: Id, expected: Option<nat>): Result<State> {
    if lineId !in s.lines then Err(NotFound)
    else
      var line := s.lines[lineId];
      if Stale(line.version, expected) then Err(Conflict)
      else if HasActive(s, lineId) then Err(Conflict)
      else if line.retired then Ok(s)
      else Ok(s.(lines := s.lines[lineId := line.(retired := true, version := line.version + 1)]))
  }

  function RestoreLine(s: State, lineId: Id, expected: Option<nat>): Result<State> {
    if lineId !in s.lines then Err(NotFound)
    else
      var line := s.lines[lineId];
      if Stale(line.version, expected) then Err(Conflict)
      else if !line.retired then Ok(s)
      else Ok(s.(lines := s.lines[lineId := line.(retired := false, version := line.version + 1)]))
  }

  // ---------- MemoryProjects: reservations ----------

  /** The factors of the conversions recorded for this item between exactly these two units. */
  function Factors(alternatives: seq<Alternative>, itemId: Id, itemUnit: Unit, lineUnit: Unit): seq<Factor> {
    if alternatives == [] then []
    else
      var a := alternatives[0];
      var rest := Factors(alternatives[1..], itemId, itemUnit, lineUnit);
      if a.itemId == itemId && a.conversion.Some?
         && a.conversion.value.inventoryUnit == itemUnit && a.conversion.value.requirementUnit == lineUnit
      then [a.conversion.value.factor] + rest
      else rest
  }

  /** `bomQuantityConversion`: none for equal units, nor when the recorded factors disagree. */
  function ConversionFactor(basis: Requirement, itemId: Id, itemUnit: Unit): Option<Factor> {
    if itemUnit == basis.unit then None
    else
      var factors := Factors(basis.alternatives, itemId, itemUnit, basis.unit);
      if factors != [] && forall f :: f in factors ==> f == factors[0] then Some(factors[0]) else None
  }

  /** Requirement units covered by one inventory unit of the item. */
  function PerUnit(basis: Requirement, itemId: Id, itemUnit: Unit): Factor {
    var conversion := ConversionFactor(basis, itemId, itemUnit);
    if conversion.Some? then conversion.value else 1
  }

  /** A quantity of an item in the unit of the line. */
  function InLineUnit(basis: Requirement, itemId: Id, itemUnit: Unit, quantity: real): real {
    quantity * PerUnit(basis, itemId, itemUnit) as real
  }

  /** A reservation of this quantity can be read in the line's unit. */
  predicate Readable(basis: Requirement, itemId: Id, itemUnit: Unit, quantity: real) {
    var conversion := ConversionFactor(basis, itemId, itemUnit);
    && (itemUnit != basis.unit ==> conversion.Some?)
    && (conversion.Some? ==> IsWhole(quantity))
  }

  predicate Approved(basis: Requirement, itemId: Id) {
    || basis.itemId == Some(itemId)
    || exists a :: a in basis.alternatives && a.itemId == itemId && a.confirmed
  }

  function Units(items: map<Id, Item>): map<Id, Unit> {
    map i | i in items :: items[i].unit
  }

  /** What a reservation contributes to the coverage of a line, in the line's unit. */
  function CoverageOn(lineId: Id, basis: Requirement, units: map<Id, Unit>): Reservation -> real {
    (r: Reservation) =>
      if r.status == Active && r.lineId == lineId && r.itemId in units
      then InLineUnit(basis, r.itemId, units[r.itemId], r.quantity)
      else 0.0
  }

  function Coverage(s: State, lineId: Id, basis: Requirement): real {
    Sum(s.order, s.reservations, CoverageOn(lineId, basis, Units(s.stock.items)))
  }

  /** No active reservation of the line trips the integrity checks of the coverage sum. */
  predicate CoverageReadable(s: State, lineId: Id, basis: Requirement) {
    forall r :: r in s.reservations && s.reservations[r].status == Active && s.reservations[r].lineId == lineId ==>
      && s.reservations[r].itemId in s.stock.items
      && Readable(basis, s.reservations[r].itemId, s.stock.items[s.reservations[r].itemId].unit,
        s.reservations[r].quantity)
  }

  /** The largest quantity that the requirement still lets an item with this factor reserve. */
  function Room(required: real, covered: real, factor: Factor): int {
    Ceil(Max(0.0, required - covered) / factor as real)
  }

  datatype ReservationInput = ReservationInput(id: Id, lineId: Id, itemId: Id, quantity: real)

  /** The checks of `createReservation`, in the order they are made. */
  function Refusal(s: State, revisionId: Id, input: ReservationInput): Option<Error> {
    if revisionId !in s.revisions then Some(NotFound)
    else if Inactive(s, s.revisions[revisionId].projectId).Some? then Inactive(s, s.revisions[revisionId].projectId)
    else if input.lineId !in s.lines || s.lines[input.lineId].revisionId != revisionId then Some(NotFound)
    else
      var basis := s.lines[input.lineId].basis;
      if basis.role != Consumed then Some(Validation)
      else if !Live(s.stock, input.itemId) then Some(NotFound)
      else
        var item := s.stock.items[input.itemId];
        if !Readable(basis, input.itemId, item.unit, input.quantity) then Some(Validation)
        else if !Approved(basis, input.itemId) then Some(Validation)
        else if !(basis.constraints <= item.facts) then Some(Validation)
        else if !CanCount(item.evidence) then Some(Conflict)
        else if input.quantity <= 0.0 then Some(Validation)
        else if !CoverageReadable(s, input.lineId, basis) then Some(IntegrityError)
        else if input.quantity > Room(basis.required, Coverage(s, input.lineId, basis),
          PerUnit(basis, input.itemId, item.unit)) as real
        then Some(Conflict)
        else if item.available < input.quantity then Some(Conflict)
        else None
  }

  /** `Map.set`: a key already present keeps its place in the insertion order. */
  function WithReservation(s: State, id: Id, r: Reservation): State {
    s.(order := if id in s.reservations then s.order else s.order + [id], reservations := s.reservations[id := r])
  }

  function Reserve(s: State, input: ReservationInput): State
    requires input.itemId in s.stock.items
  {
    var item := s.stock.items[input.itemId];
    var taken := item.(available := item.available - input.quantity, version := item.version + 1);
    WithReservation(s.(stock := WithItem(s.stock, input.itemId, taken)),
                    input.id, Reservation(input.lineId, input.itemId, input.quantity, Active, 1))
  }

  function CreateReservation(s: State, revisionId: Id, input: ReservationInput): Result<State> {
    var refusal := Refusal(s, revisionId, input);
    if refusal.Some? then Err(refusal.value) else Ok(Reserve(s, input))
  }

  function ReleaseReservation(s: State, id: Id, expected: Option<nat>): Result<State> {
    if id !in s.reservations then Err(NotFound)
    else
      var r := s.reservations[id];
      if Stale(r.version, expected) then Err(Conflict)
      else if r.status != Active then Err(Conflict)
      else
        var stock :=
          if r.itemId !in s.stock.items then s.stock
          else
            var item := s.stock.items[r.itemId];
            WithItem(s.stock, r.itemId, item.(available := item.available + r.quantity, version := item.version + 1));
        Ok(WithReservation(s.(stock := stock), id, r.(status := Released, version := r.version + 1)))
  }

  datatype UsageInput = UsageInput(projectId: Id, reservationId: Option<Id>, itemId: Id, quantity: real, unit: Unit)

  /** `recordUsage`: return the reserved stock, then consume it; a refused consumption undoes the return. */
  function RecordUsage(s: State, input: UsageInput): Result<State> {
    if Inactive(s, input.projectId).Some? then Err(Inactive(s, input.projectId).value)
    else if input.reservationId.None? then Err(Validation)
    else if input.reservationId.value !in s.reservations then Err(NotFound)
    else
      var id := input.reservationId.value;
      var r := s.reservations[id];
      if r.status != Active then Err(Conflict)
      else if r.itemId != input.itemId || r.quantity != input.quantity then Err(Validation)
      else if !OwnedBy(s, r, input.projectId) then Err(Conflict)
      else if s.lines[r.lineId].basis.role != Consumed then Err(Validation)
      else if input.itemId !in s.stock.items then Err(NotFound)
      else
        var item := s.stock.items[input.itemId];
        var returned := WithItem(s.stock, input.itemId, item.(available := item.available + r.quantity));
        match RecordStockEvent(returned, input.itemId, Consume, input.quantity, input.unit)
        case Err(error) => Err(error)
        case Ok(stock) => Ok(WithReservation(s.(stock := stock), id, r.(status := Used, version := r.version + 1)))
  }

  // ---------- MemoryProjects: archive and removal ----------

  /** The reservation's line belongs to a revision of the project. */
  predicate OwnedBy(s: State, r: Reservation, projectId: Id) {
    && r.lineId in s.lines
    && s.lines[r.lineId].revisionId in s.revisions
    && s.revisions[s.lines[r.lineId].revisionId].projectId == projectId
  }

  predicate ActiveIn(s: State, id: Id, projectId: Id) {
    id in s.reservations && s.reservations[id].status == Active && OwnedBy(s, s.reservations[id], projectId)
  }

  /** The project's active reservations among these keys, in order. */
  function ActiveOf(s: State, keys: seq<Id>, projectId: Id): (active: seq<Id>) {
    if keys == [] then []
    else
      var last := keys[|keys| - 1];
      ActiveOf(s, keys[..|keys| - 1], projectId) + if ActiveIn(s, last, projectId) then [last] else []
  }

  /** One turn of the archive and removal loops: give the stock back, clamped, and log it. */
  function ReleaseLogged(s: State, id: Id): State {
    if id !in s.reservations || s.reservations[id].itemId !in s.stock.items then s
    else
      var r := s.reservations[id];
      var item := s.stock.items[r.itemId];
      var freed := item.(available := Min(item.quantity, item.available + r.quantity), version := item.version + 1);
      var event := StockEvent(Release, r.quantity, freed.version, Some(id));
      WithReservation(s.(stock := WithEvent(WithItem(s.stock, r.itemId, freed), r.itemId, event)),
                      id, r.(status := Released, version := r.version + 1))
  }

  function ReleaseAll(s: State, ids: seq<Id>): State {
    if ids == [] then s else ReleaseLogged(ReleaseAll(s, ids[..|ids| - 1]), ids[|ids| - 1])
  }

  predicate AnyItemMissing(s: State, ids: seq<Id>) {
    exists id :: id in ids && id in s.reservations && s.reservations[id].itemId !in s.stock.items
  }

  function ArchiveProject(s: State, projectId: Id, expected: Option<nat>): Result<State> {
    if projectId !in s.projects then Err(NotFound)
    else
      var project := s.projects[projectId];
      if Stale(project.version, expected) then Err(Conflict)
      else if project.removed.Some? then Err(ProjectRemoved)
      else if project.status == Archived then Ok(s)
      else
        var active := ActiveOf(s, s.order, projectId);
        if AnyItemMissing(s, active) then Err(IntegrityError)
        else
          var archived := project.(status := Archived, version := project.version + 1);
          Ok(ReleaseAll(s, active).(projects := s.projects[projectId := archived]))
  }

  function RestoreProject(s: State, projectId: Id, expected: Option<nat>): Result<State> {
    if projectId !in s.projects then Err(NotFound)
    else
      var project := s.projects[projectId];
      if Stale(project.version, expected) then Err(Conflict)
      else if project.removed.Some? then Err(ProjectRemoved)
      else if project.status != Archived then Ok(s)
      else Ok(s.(projects := s.projects[projectId := project.(status := Idea, version := project.version + 1)]))
  }

  function UpdateProject(
    s: State, projectId: Id, name: Option<string>, status: Option<Status>, expected: Option<nat>): Result<State>
  {
    if projectId !in s.projects then Err(NotFound)
    else
      var project := s.projects[projectId];
      if project.removed.Some? then Err(ProjectRemoved)
      else if status == Some(Archived) then ArchiveProject(s, projectId, expected)
      else if status == Some(Idea) && project.status == Archived then RestoreProject(s, projectId, expected)
      else if Stale(project.version, expected) then Err(Conflict)
      else
        var next := if status.Some? then status.value else project.status;
        Ok(s.(projects := s.projects[projectId :=
          project.(name := Given(name, project.name), status := next, version := project.version + 1)]))
  }

  function RemoveProject(s: State, projectId: Id, expected: Option<nat>, confirmation: string): Result<State> {
    if projectId !in s.projects then Err(NotFound)
    else
      var project := s.projects[projectId];
      if project.removed.Some? then Ok(s)
      else if project.name != confirmation then Err(Conflict)
      else if Stale(project.version, expected) then Err(Conflict)
      else
        var active := ActiveOf(s, s.order, projectId);
        if AnyItemMissing(s, active) then Err(IntegrityError)
        else
          var removed := project.(removed := Some(Tombstone(project.status, active)), version := project.version + 1);
          Ok(ReleaseAll(s, active).(projects := s.projects[projectId := removed]))
  }
}
