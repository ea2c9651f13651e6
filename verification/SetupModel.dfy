/** Project setup: the preflight `commitPreview` makes, the graph it then builds, and when the build can fail. */
module SetupModel {
  import opened Outcomes
  import opened LedgerModel

  /** `specified` says that no specification decision of the line is open (`bomSpecification(...).sufficient`). */
  datatype PlannedLine = PlannedLine(ref: string, id: Id, basis: Requirement, specified: bool)

  datatype PlannedReservation = PlannedReservation(lineRef: string, id: Id, itemId: Id, quantity: real,
    unit: Option<Unit>)

  datatype Proposal = Proposal(
    projectId: Id, name: string, slug: string, status: Status, revisionId: Id, draft: RevisionDraft,
    workItems: seq<Id>, lines: seq<PlannedLine>, reservations: seq<PlannedReservation>)

  // ---------- preflight ----------

  /** `new Map(lines by localRef)`: the last line with a reference wins. */
  function LineByRef(lines: seq<PlannedLine>, ref: string): (found: Option<PlannedLine>)
    ensures found.Some? ==> found.value in lines && found.value.ref == ref
  {
    if lines == [] then None
    else if lines[|lines| - 1].ref == ref then Some(lines[|lines| - 1])
    else LineByRef(lines[..|lines| - 1], ref)
  }

  /** `getReservationDetails` finds nothing when the line or its revision is missing. */
  predicate DetailsExist(s: State, id: Id) {
    && id in s.reservations
    && s.reservations[id].lineId in s.lines
    && s.lines[s.reservations[id].lineId].revisionId in s.revisions
  }

  predicate IdentityClash(s: State, p: Proposal) {
    || p.projectId in s.projects
    || p.revisionId in s.revisions
    || (exists w :: w in p.workItems && w in s.workItems)
    || (exists l :: l in p.lines && l.id in s.lines)
    || (exists r :: r in p.reservations && DetailsExist(s, r.id))
  }

  /** `reservedByLine` after the first k reservations. */
  function PlannedCoverage(s: State, p: Proposal, k: nat, ref: string): real
    requires k <= |p.reservations|
  {
    if k == 0 then 0.0
    else
      var r := p.reservations[k - 1];
      var line := LineByRef(p.lines, ref);
      PlannedCoverage(s, p, k - 1, ref) +
      if r.lineRef == ref && line.Some? && r.itemId in s.stock.items
      then InLineUnit(line.value.basis, r.itemId, s.stock.items[r.itemId].unit, r.quantity)
      else 0.0
  }

  /** `reservedByItem` after the first k reservations. */
  function PlannedTotal(p: Proposal, k: nat, itemId: Id): real
    requires k <= |p.reservations|
  {
    if k == 0 then 0.0
    else PlannedTotal(p, k - 1, itemId) + if p.reservations[k - 1].itemId == itemId then p.reservations[k - 1].quantity
      else 0.0
  }

  function PlannedUses(p: Proposal, k: nat, itemId: Id): nat
    requires k <= |p.reservations|
  {
    if k == 0 then 0 else PlannedUses(p, k - 1, itemId) + if p.reservations[k - 1].itemId == itemId then 1 else 0
  }

  /** The first preflight loop's verdict on reservation k. */
  function PlanRefusal(s: State, p: Proposal, k: nat): Option<Error>
    requires k < |p.reservations|
  {
    var r := p.reservations[k];
    var line := LineByRef(p.lines, r.lineRef);
    if line.None? || !Live(s.stock, r.itemId) then Some(Validation)
    else if !line.value.specified then Some(Validation)
    else
      var basis, item := line.value.basis, s.stock.items[r.itemId];
      if || !Approved(basis, r.itemId)
         || (item.unit != basis.unit && ConversionFactor(basis, r.itemId, item.unit).None?)
         || (r.unit.Some? && r.unit.value != item.unit)
         || !(basis.constraints <= item.facts)
         || !CanCount(item.evidence)
      then Some(Conflict)
      else if ConversionFactor(basis, r.itemId, item.unit).Some? && !IsWhole(r.quantity) then Some(Conflict)
      else if r.quantity > Room(basis.required, PlannedCoverage(s, p, k, r.lineRef),
        PerUnit(basis, r.itemId, item.unit)) as real
      then Some(Conflict)
      else None
  }

  /** The first refusal among the reservations from k on. */
  function FirstRefusal(s: State, p: Proposal, k: nat): Option<Error>
    requires k <= |p.reservations|
    decreases |p.reservations| - k
  {
    if k == |p.reservations| then None
    else if PlanRefusal(s, p, k).Some? then PlanRefusal(s, p, k)
    else FirstRefusal(s, p, k + 1)
  }

  /** The second preflight loop: per item, everything planned is available. */
  predicate StockSuffices(s: State, p: Proposal) {
    forall r :: r in p.reservations ==>
      Live(s.stock, r.itemId) && PlannedTotal(p, |p.reservations|, r.itemId) <= s.stock.items[r.itemId].available
  }

  function Preflight(s: State, p: Proposal): Option<Error> {
    if IdentityClash(s, p) then Some(Conflict)
    else if FirstRefusal(s, p, 0).Some? then FirstRefusal(s, p, 0)
    else if !StockSuffices(s, p) then Some(Conflict)
    else None
  }

  // ---------- commit ----------

  function AddWork(s: State, projectId: Id, ids: seq<Id>): Result<State> {
    if ids == [] then Ok(s)
    else
      match AddWork(s, projectId, ids[..|ids| - 1])
      case Err(error) => Err(error)
      case Ok(t) => CreateWorkItem(t, projectId, ids[|ids| - 1])
  }

  function AddLines(s: State, revisionId: Id, lines: seq<PlannedLine>): Result<State> {
    if lines == [] then Ok(s)
    else
      match AddLines(s, revisionId, lines[..|lines| - 1])
      case Err(error) => Err(error)
      case Ok(t) => CreateLine(t, revisionId, lines[|lines| - 1].id, lines[|lines| - 1].basis)
  }

  ghost function BuildGraph(s: State, p: Proposal): Result<State> {
    match CreateProjectWithRevision(s, p.projectId, p.name, p.slug, p.status, p.revisionId, p.draft)
    case Err(error) => Err(error)
    case Ok(created) =>
      match AddWork(created, p.projectId, p.workItems)
      case Err(error) => Err(error)
      case Ok(worked) => AddLines(worked, p.revisionId, p.lines)
  }

  /** Create one planned reservation and log its allocation. */
  function Place(s: State, p: Proposal, r: PlannedReservation): Result<State> {
    var line := LineByRef(p.lines, r.lineRef);
    if line.None? then Err(Validation)
    else
      match CreateReservation(s, p.revisionId, ReservationInput(r.id, line.value.id, r.itemId, r.quantity))
      case Err(error) => Err(error)
      case Ok(t) =>
        if r.itemId !in t.stock.items then Err(IntegrityError)
        else Ok(t.(stock := WithEvent(t.stock, r.itemId,
                                      StockEvent(Allocate, r.quantity, t.stock.items[r.itemId].version, Some(r.id)))))
  }

  function PlaceFirst(s: State, p: Proposal, k: nat): Result<State>
    requires k <= |p.reservations|
  {
    if k == 0 then Ok(s)
    else
      match PlaceFirst(s, p, k - 1)
      case Err(error) => Err(error)
      case Ok(t) => Place(t, p, p.reservations[k - 1])
  }

  ghost function Commit(s: State, p: Proposal): Result<State> {
    match BuildGraph(s, p)
    case Err(error) => Err(error)
    case Ok(g) => PlaceFirst(g, p, |p.reservations|)
  }

  /** `commitPreview` on the ledger: preflight, then build; a failure of either leaves everything as it was. */
  ghost function SetUp(s: State, p: Proposal): Result<State> {
    if Preflight(s, p).Some? then Err(Preflight(s, p).value) else Commit(s, p)
  }

  // ---------- when a commit that passed preflight succeeds ----------

  /** The proposal does not name the same line or reservation twice. */
  ghost predicate IdsDistinct(p: Proposal) {
    && (forall j, k :: 0 <= j < k < |p.lines| ==> p.lines[j].id != p.lines[k].id)
    && (forall j, k :: 0 <= j < k < |p.reservations| ==> p.reservations[j].id != p.reservations[k].id)
  }

  function WithWork(workItems: map<Id, Id>, projectId: Id, ids: seq<Id>): map<Id, Id> {
    if ids == [] then workItems else WithWork(workItems, projectId, ids[..|ids| - 1])[ids[|ids| - 1] := projectId]
  }

  function WithLines(lines: map<Id, Line>, revisionId: Id, planned: seq<PlannedLine>): map<Id, Line> {
    if planned == [] then lines
    else
      var last := planned[|planned| - 1];
      WithLines(lines, revisionId, planned[..|planned| - 1])[last.id := Line(revisionId, last.basis, false, 1)]
  }

  /** The graph that setup adds before it reserves anything. */
  ghost function Built(s: State, p: Proposal): State {
    s.(projects := s.projects[p.projectId := Project(p.name, p.status, None, Some(p.revisionId), 1)],
       slugs := s.slugs[p.projectId := p.slug],
       revisions := s.revisions[p.revisionId := Drafted(p.projectId, p.draft, Latest(s.revisions, p.projectId))],
       workItems := WithWork(s.workItems, p.projectId, p.workItems),
       lines := WithLines(s.lines, p.revisionId, p.lines))
  }

  /** A name not used before, a project that starts open, and a printer on the printed route only. */
  predicate GraphAllowed(s: State, p: Proposal) {
    p.status != Archived && !PrinterRefused(p.draft, None) && !exists q :: q in s.slugs && s.slugs[q] == p.slug
  }

  /** What preflight forgets to ask of a planned reservation. */
  predicate Reservable(p: Proposal, r: PlannedReservation) {
    r.quantity > 0.0 && LineByRef(p.lines, r.lineRef).Some?
    && LineByRef(p.lines, r.lineRef).value.basis.role == Consumed
  }

  lemma {:induction false} WorkAdded(s: State, projectId: Id, ids: seq<Id>)
    requires Inactive(s, projectId) == None
    ensures AddWork(s, projectId, ids) == Ok(s.(workItems := WithWork(s.workItems, projectId, ids)))
  {
    if ids != [] {
      WorkAdded(s, projectId, ids[..|ids| - 1]);
    }
  }

  lemma {:induction false} LinesAdded(s: State, revisionId: Id, lines: seq<PlannedLine>)
    requires revisionId in s.revisions && Inactive(s, s.revisions[revisionId].projectId) == None
    ensures AddLines(s, revisionId, lines) == Ok(s.(lines := WithLines(s.lines, revisionId, lines)))
  {
    if lines != [] {
      LinesAdded(s, revisionId, lines[..|lines| - 1]);
    }
  }

  /** The lines afterwards: the proposed ones under their ids, and every old one. */
  lemma {:induction false} LinesExact(lines: map<Id, Line>, revisionId: Id, planned: seq<PlannedLine>)
    requires forall j, k :: 0 <= j < k < |planned| ==> planned[j].id != planned[k].id
    ensures forall l :: l in planned ==>
              l.id in WithLines(lines, revisionId, planned)
              && WithLines(lines, revisionId, planned)[l.id] == Line(revisionId, l.basis, false, 1)
    ensures forall id :: id in WithLines(lines, revisionId, planned) ==>
              id in lines || exists l :: l in planned && l.id == id
    ensures forall id :: id in lines ==>
              id in WithLines(lines, revisionId, planned)
              && ((forall l :: l in planned ==> l.id != id) ==> WithLines(lines, revisionId, planned)[id] == lines[id])
  {
    if planned != [] {
      var rest, last := planned[..|planned| - 1], planned[|planned| - 1];
      assert planned == rest + [last];
      LinesExact(lines, revisionId, rest);
      forall l | l in rest ensures l.id != last.id {
        var j :| 0 <= j < |rest| && rest[j] == l;
        assert planned[j].id != planned[|planned| - 1].id;
      }
    }
  }

  /** The project and its first revision, which becomes current. */
  lemma ProjectCreated(s: State, p: Proposal)
    requires !IdentityClash(s, p) && GraphAllowed(s, p)
    ensures CreateProjectWithRevision(s, p.projectId, p.name, p.slug, p.status, p.revisionId, p.draft) ==
            Ok(Built(s, p).(workItems := s.workItems, lines := s.lines))
  {
    var created := CreateProject(s, p.projectId, p.name, p.slug, p.status).value;
    var project := created.projects[p.projectId].(current := Some(p.revisionId));
    assert created.projects[p.projectId := project] == s.projects[p.projectId := project];
    assert !PrinterRefused(p.draft, Latest(s.revisions, p.projectId));
    hide Latest, Drafted, IdentityClash;
  }

  /** After preflight, the graph is built exactly when its name is new and the project starts open. */
  lemma GraphBuiltIff(s: State, p: Proposal)
    requires !IdentityClash(s, p)
    ensures BuildGraph(s, p).Ok? <==> GraphAllowed(s, p)
    ensures BuildGraph(s, p).Ok? ==> BuildGraph(s, p) == Ok(Built(s, p))
  {
    var created := CreateProjectWithRevision(s, p.projectId, p.name, p.slug, p.status, p.revisionId, p.draft);
    if created.Ok? {
      ProjectCreated(s, p);
      WorkAdded(created.value, p.projectId, p.workItems);
      LinesAdded(AddWork(created.value, p.projectId, p.workItems).value, p.revisionId, p.lines);
    }
  }
}
