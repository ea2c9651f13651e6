/**
 Preflight soundness of project setup. Preflight adds up a whole plan against the state before anything is
 created; the commit then checks every reservation afresh against a state that has moved. They agree.
 */
module SetupProof {
  import opened Outcomes
  import opened LedgerModel
  import opened LedgerInvariant
  import opened LedgerOperations
  import opened SetupModel

  /** The commit after k planned reservations. */
  ghost predicate Placed(s: State, p: Proposal, k: nat, t: State)
    requires k <= |p.reservations|
  {
    && Inv(t)
    && t == Built(s, p).(stock := t.stock, order := t.order, reservations := t.reservations)
    && StockPlaced(s, p, k, t)
    && RowsPlaced(s, p, k, t)
    && SameManual(s, t)
    && (forall line :: line in p.lines && LineByRef(p.lines, line.ref) == Some(line) ==>
          Coverage(t, line.id, line.basis) == PlannedCoverage(s, p, k, line.ref))
  }

  ghost predicate SameManual(s: State, t: State) {
    forall i :: Manual(t, i) == Manual(s, i)
  }

  /** Each item lost exactly what was planned on it so far, and gained one version per reservation. */
  ghost predicate StockPlaced(s: State, p: Proposal, k: nat, t: State)
    requires k <= |p.reservations|
  {
    && t.stock.items.Keys == s.stock.items.Keys
    && (forall i :: i in s.stock.items ==>
          t.stock.items[i] == s.stock.items[i].(
            available := s.stock.items[i].available - PlannedTotal(p, k, i),
            version := s.stock.items[i].version + PlannedUses(p, k, i)))
  }

  /** Exactly the first k planned reservations were added. */
  ghost predicate RowsPlaced(s: State, p: Proposal, k: nat, t: State)
    requires k <= |p.reservations|
  {
    && (forall id :: id in s.reservations ==> id in t.reservations && t.reservations[id] == s.reservations[id])
    && (forall id :: id in t.reservations ==>
      id in s.reservations || exists j :: 0 <= j < k && p.reservations[j].id == id)
    && (forall j :: 0 <= j < k ==>
          var r := p.reservations[j];
          && r.id in t.reservations && LineByRef(p.lines, r.lineRef).Some?
          && t.reservations[r.id] == Reservation(LineByRef(p.lines, r.lineRef).value.id, r.itemId, r.quantity, Active,
            1))
  }

  // ---------- the graph ----------

  lemma BuiltKeeps(s: State, p: Proposal)
    requires Inv(s) && !IdentityClash(s, p) && GraphAllowed(s, p) && IdsDistinct(p)
    ensures Inv(Built(s, p)) && SameManual(s, Built(s, p))
  {
    hide CoverageOk, Manual;
    var g := Built(s, p);
    LinesExact(s.lines, p.revisionId, p.lines);
    forall l | l in s.lines ensures l in g.lines && g.lines[l] == s.lines[l] {
    }
    forall l | l in g.lines ensures (l in s.lines && g.lines[l].basis == s.lines[l].basis) || !HasActive(s, l) {
    }
    forall id | id in s.reservations && s.reservations[id].status == Active
      ensures Inactive(g, g.revisions[g.lines[s.reservations[id].lineId].revisionId].projectId) == None
    {
      assert ActiveOk(s, s.reservations[id]);
    }
    GraphChange(s, g);
  }

  lemma NewIds(s: State, p: Proposal)
    requires Inv(s) && !IdentityClash(s, p)
    ensures forall r :: r in p.reservations ==> r.id !in s.reservations
    ensures forall l :: l in p.lines ==> !HasActive(s, l.id)
  {
    forall r | r in p.reservations ensures r.id !in s.reservations {
      assert !DetailsExist(s, r.id);
    }
  }

  lemma NothingPlaced(s: State, p: Proposal)
    requires Inv(s) && !IdentityClash(s, p) && GraphAllowed(s, p) && IdsDistinct(p)
    ensures Placed(s, p, 0, Built(s, p))
  {
    hide Inv;
    BuiltKeeps(s, p);
    NewIds(s, p);
    forall line | line in p.lines ensures Coverage(Built(s, p), line.id, line.basis) == 0.0 {
      NothingCovered(s, line.id, line.basis);
    }
  }

  // ---------- one planned reservation ----------

  lemma {:induction false} NoRefusalAt(s: State, p: Proposal, from: nat, k: nat)
    requires from <= k < |p.reservations| && FirstRefusal(s, p, from) == None
    ensures PlanRefusal(s, p, k) == None
    decreases k - from
  {
    if from < k {
      NoRefusalAt(s, p, from + 1, k);
    }
  }

  lemma {:induction false} TotalGrows(p: Proposal, j: nat, k: nat, itemId: Id)
    requires j <= k <= |p.reservations|
    requires forall r :: r in p.reservations ==> r.quantity > 0.0
    ensures PlannedTotal(p, j, itemId) <= PlannedTotal(p, k, itemId)
    decreases k - j
  {
    if j < k {
      TotalGrows(p, j, k - 1, itemId);
      assert p.reservations[k - 1] in p.reservations;
    }
  }

  function InputOf(p: Proposal, k: nat): ReservationInput
    requires k < |p.reservations| && LineByRef(p.lines, p.reservations[k].lineRef).Some?
  {
    var r := p.reservations[k];
    ReservationInput(r.id, LineByRef(p.lines, r.lineRef).value.id, r.itemId, r.quantity)
  }

  lemma {:induction false} RefFound(lines: seq<PlannedLine>, ref: string)
    requires LineByRef(lines, ref).Some?
    ensures LineByRef(lines, LineByRef(lines, ref).value.ref) == LineByRef(lines, ref)
  {
  }

  /** The line a planned reservation goes to, as committed. */
  lemma TargetLine(s: State, p: Proposal, k: nat)
    requires IdsDistinct(p) && k < |p.reservations| && LineByRef(p.lines, p.reservations[k].lineRef).Some?
    ensures var line := LineByRef(p.lines, p.reservations[k].lineRef).value;
            && line.id in Built(s, p).lines
            && Built(s, p).lines[line.id] == Line(p.revisionId, line.basis, false, 1)
  {
    LinesExact(s.lines, p.revisionId, p.lines);
  }

  lemma ActiveReadable(t: State, lineId: Id)
    requires Inv(t) && lineId in t.lines
    ensures CoverageReadable(t, lineId, t.lines[lineId].basis)
  {
    forall id | id in t.reservations && t.reservations[id].status == Active && t.reservations[id].lineId == lineId
      ensures t.reservations[id].itemId in t.stock.items
    {
      assert ActiveOk(t, t.reservations[id]);
    }
  }

  /** In the moved state the plan's verdict still holds: reservation k is accepted. */
  lemma PlanAccepted(s: State, p: Proposal, k: nat, t: State)
    requires k < |p.reservations| && Placed(s, p, k, t) && IdsDistinct(p) && GraphAllowed(s, p)
    requires PlanRefusal(s, p, k) == None && Reservable(p, p.reservations[k])
    requires PlannedTotal(p, k + 1, p.reservations[k].itemId) <= s.stock.items[p.reservations[k].itemId].available
    ensures Refusal(t, p.revisionId, InputOf(p, k)) == None
  {
    hide Inv, Coverage, PlannedCoverage, CoverageReadable, Approved, ConversionFactor, RowsPlaced, LineByRef, CanCount,
         Ceil, WithLines;
    var r := p.reservations[k];
    var line := LineByRef(p.lines, r.lineRef).value;
    TargetLine(s, p, k);
    ActiveReadable(t, line.id);
    RefFound(p.lines, r.lineRef);
    assert t.stock.items[r.itemId].facts == s.stock.items[r.itemId].facts;
    assert PlannedTotal(p, k + 1, r.itemId) == PlannedTotal(p, k, r.itemId) + r.quantity;
  }

  /** The state after reservation k: the reservation, then its logged allocation. */
  function Step(t: State, input: ReservationInput): State
    requires input.itemId in t.stock.items
  {
    var u := Reserve(t, input);
    u.(stock := WithEvent(u.stock, input.itemId,
                          StockEvent(Allocate, input.quantity, u.stock.items[input.itemId].version, Some(input.id))))
  }

  lemma EventsIgnored(s: State, events: map<Id, seq<StockEvent>>)
    requires Inv(s)
    ensures Inv(s.(stock := s.stock.(events := events))) && SameManual(s, s.(stock := s.stock.(events := events)))
    ensures forall l, basis :: Coverage(s.(stock := s.stock.(events := events)), l, basis) == Coverage(s, l, basis)
  {
    forall id | id in s.reservations && s.reservations[id].status == Active ensures ActiveOk(s, s.reservations[id]) {
    }
    StockChange(s, s.stock.(events := events));
  }

  lemma PlaceIsStep(t: State, p: Proposal, k: nat)
    requires k < |p.reservations| && LineByRef(p.lines, p.reservations[k].lineRef).Some?
    requires Refusal(t, p.revisionId, InputOf(p, k)) == None
    ensures InputOf(p, k).itemId in t.stock.items
    ensures Place(t, p, p.reservations[k]) == Ok(Step(t, InputOf(p, k)))
  {
    hide Coverage, CoverageReadable, LineByRef;
    RefusalNone(t, p.revisionId, InputOf(p, k));
  }

  lemma StepKeeps(t: State, p: Proposal, input: ReservationInput)
    requires Inv(t) && input.id !in t.reservations && Refusal(t, p.revisionId, input) == None
    ensures input.itemId in t.stock.items && Inv(Step(t, input)) && SameManual(t, Step(t, input))
  {
    hide Inv, Coverage, CoverageReadable;
    RefusalNone(t, p.revisionId, input);
    ReserveKeeps(t, p.revisionId, input);
    var u := Reserve(t, input);
    EventsIgnored(u, Step(t, input).stock.events);
  }

  lemma StepCoverageAt(t: State, input: ReservationInput, l: Id, basis: Requirement)
    requires TableOk(t) && input.id !in t.reservations && input.itemId in t.stock.items
    ensures Coverage(Step(t, input), l, basis) == Coverage(t, l, basis)
          + if l == input.lineId
            then InLineUnit(basis, input.itemId, t.stock.items[input.itemId].unit, input.quantity)
            else 0.0
  {
    ReserveCoverage(t, input, l, basis);
    assert Coverage(Step(t, input), l, basis) == Coverage(Reserve(t, input), l, basis);
  }

  lemma LineCovered(s: State, p: Proposal, k: nat, t: State, line: PlannedLine)
    requires k < |p.reservations| && IdsDistinct(p) && TableOk(t)
    requires LineByRef(p.lines, p.reservations[k].lineRef).Some?
    requires var r := p.reservations[k];
             && r.itemId in s.stock.items && r.itemId in t.stock.items && r.id !in t.reservations
             && t.stock.items[r.itemId].unit == s.stock.items[r.itemId].unit
    requires line in p.lines && LineByRef(p.lines, line.ref) == Some(line)
    requires Coverage(t, line.id, line.basis) == PlannedCoverage(s, p, k, line.ref)
    ensures Coverage(Step(t, InputOf(p, k)), line.id, line.basis) == PlannedCoverage(s, p, k + 1, line.ref)
  {
    hide InLineUnit, Coverage, Step, TableOk, IdsDistinct;
    StepCoverageAt(t, InputOf(p, k), line.id, line.basis);
    SameLineSameRef(p, line, LineByRef(p.lines, p.reservations[k].lineRef).value);
  }

  lemma StepCoverage(s: State, p: Proposal, k: nat, t: State)
    requires k < |p.reservations| && Placed(s, p, k, t) && IdsDistinct(p)
    requires LineByRef(p.lines, p.reservations[k].lineRef).Some? && p.reservations[k].itemId in s.stock.items
    requires p.reservations[k].id !in t.reservations
    ensures forall line :: line in p.lines && LineByRef(p.lines, line.ref) == Some(line) ==>
              Coverage(Step(t, InputOf(p, k)), line.id, line.basis) == PlannedCoverage(s, p, k + 1, line.ref)
  {
    hide Built, Coverage, PlannedCoverage, Step, RowsPlaced, GraphOk, ReservationsOk, BooksOk, CoverageOk, IdsDistinct,
         LineByRef;
    forall line | line in p.lines && LineByRef(p.lines, line.ref) == Some(line)
      ensures Coverage(Step(t, InputOf(p, k)), line.id, line.basis) == PlannedCoverage(s, p, k + 1, line.ref)
    {
      LineCovered(s, p, k, t, line);
    }
  }

  lemma SameLineSameRef(p: Proposal, line: PlannedLine, target: PlannedLine)
    requires IdsDistinct(p) && line in p.lines && target in p.lines
    ensures line.id == target.id ==> line == target
  {
    var j :| 0 <= j < |p.lines| && p.lines[j] == line;
    var k :| 0 <= k < |p.lines| && p.lines[k] == target;
  }

  lemma StepStock(s: State, p: Proposal, k: nat, t: State)
    requires k < |p.reservations| && StockPlaced(s, p, k, t)
    requires LineByRef(p.lines, p.reservations[k].lineRef).Some? && p.reservations[k].itemId in s.stock.items
    ensures StockPlaced(s, p, k + 1, Step(t, InputOf(p, k)))
  {
    var u := Step(t, InputOf(p, k));
    forall i | i in s.stock.items
      ensures u.stock.items[i] == s.stock.items[i].(
                available := s.stock.items[i].available - PlannedTotal(p, k + 1, i),
                version := s.stock.items[i].version + PlannedUses(p, k + 1, i))
    {
      assert t.stock.items[i].available == s.stock.items[i].available - PlannedTotal(p, k, i);
    }
  }

  lemma StepRows(s: State, p: Proposal, k: nat, t: State)
    requires k < |p.reservations| && RowsPlaced(s, p, k, t) && IdsDistinct(p)
    requires LineByRef(p.lines, p.reservations[k].lineRef).Some? && p.reservations[k].itemId in t.stock.items
    requires p.reservations[k].id !in s.reservations
    ensures p.reservations[k].id !in t.reservations
    ensures RowsPlaced(s, p, k + 1, Step(t, InputOf(p, k)))
  {
    hide LineByRef;
  }

  /** Reservation k, once the moved state accepts it. */
  lemma PlaceAccepted(s: State, p: Proposal, k: nat, t: State)
    requires k < |p.reservations| && Placed(s, p, k, t) && IdsDistinct(p)
    requires LineByRef(p.lines, p.reservations[k].lineRef).Some? && p.reservations[k].id !in s.reservations
    requires Refusal(t, p.revisionId, InputOf(p, k)) == None
    ensures Place(t, p, p.reservations[k]).Ok? && Placed(s, p, k + 1, Place(t, p, p.reservations[k]).value)
  {
    hide Inv, Refusal, Coverage, PlannedCoverage, RowsPlaced, StockPlaced, LineByRef, Place, Room, Approved,
         ConversionFactor;
    PlaceIsStep(t, p, k);
    KeysPlaced(s, p, k, t);
    StepRows(s, p, k, t);
    StepKeeps(t, p, InputOf(p, k));
    StepStock(s, p, k, t);
    StepCoverage(s, p, k, t);
  }

  lemma PlaceOne(s: State, p: Proposal, k: nat, t: State)
    requires k < |p.reservations| && Placed(s, p, k, t) && IdsDistinct(p) && GraphAllowed(s, p)
    requires PlanRefusal(s, p, k) == None && Reservable(p, p.reservations[k])
    requires p.reservations[k].id !in s.reservations
    requires PlannedTotal(p, k + 1, p.reservations[k].itemId) <= s.stock.items[p.reservations[k].itemId].available
    ensures Place(t, p, p.reservations[k]).Ok? && Placed(s, p, k + 1, Place(t, p, p.reservations[k]).value)
  {
    hide Placed, Refusal, LineByRef, Place, Room, Approved, ConversionFactor;
    PlanAccepted(s, p, k, t);
    PlaceAccepted(s, p, k, t);
  }

  lemma KeysPlaced(s: State, p: Proposal, k: nat, t: State)
    requires k <= |p.reservations| && StockPlaced(s, p, k, t)
    ensures t.stock.items.Keys == s.stock.items.Keys
  {
  }

  // ---------- the whole commit ----------

  lemma {:induction false} PlacedAll(s: State, p: Proposal, k: nat)
    requires Inv(s) && Preflight(s, p) == None && IdsDistinct(p) && GraphAllowed(s, p) && k <= |p.reservations|
    requires forall r :: r in p.reservations ==> Reservable(p, r)
    ensures PlaceFirst(Built(s, p), p, k).Ok? && Placed(s, p, k, PlaceFirst(Built(s, p), p, k).value)
  {
    hide Inv, Placed, Place, PlanRefusal, FirstRefusal, Built, IdsDistinct, GraphAllowed;
    if k == 0 {
      NothingPlaced(s, p);
    } else {
      PlacedAll(s, p, k - 1);
      var r := p.reservations[k - 1];
      assert r in p.reservations && Reservable(p, r);
      NoRefusalAt(s, p, 0, k - 1);
      NewIds(s, p);
      TotalGrows(p, k, |p.reservations|, r.itemId);
      PlaceOne(s, p, k - 1, PlaceFirst(Built(s, p), p, k - 1).value);
    }
  }

  lemma PlaceFrame(t: State, p: Proposal, r: PlannedReservation)
    requires Place(t, p, r).Ok?
    ensures Place(t, p, r).value.lines == t.lines
  {
  }

  lemma {:induction false} PlaceFirstFrame(g: State, p: Proposal, k: nat)
    requires k <= |p.reservations| && PlaceFirst(g, p, k).Ok?
    ensures PlaceFirst(g, p, k).value.lines == g.lines
  {
    hide Place;
    if k > 0 {
      PlaceFirstFrame(g, p, k - 1);
      PlaceFrame(PlaceFirst(g, p, k - 1).value, p, p.reservations[k - 1]);
    }
  }

  /** A commit that went through only ever reserved positive quantities on consumed lines. */
  lemma {:induction false} CommittedAreReservable(s: State, p: Proposal, k: nat, j: nat)
    requires IdsDistinct(p) && j < k <= |p.reservations| && PlaceFirst(Built(s, p), p, k).Ok?
    ensures Reservable(p, p.reservations[j])
  {
    hide Refusal, Built, LineByRef, IdsDistinct;
    if j < k - 1 {
      CommittedAreReservable(s, p, k - 1, j);
    } else {
      var t := PlaceFirst(Built(s, p), p, j).value;
      PlaceFirstFrame(Built(s, p), p, j);
      TargetLine(s, p, j);
      RefusalNone(t, p.revisionId, InputOf(p, j));
    }
  }

  /**
   Preflight soundness, exactly. A preflight that passes does not guarantee the commit: it never asks whether the
   name is taken or the project starts archived, nor whether quantities are positive and lines are consumed.
   Those four questions decide it: the commit succeeds if and only if their answers are right.
   */
  lemma CommitSucceedsIff(s: State, p: Proposal)
    requires Inv(s) && Preflight(s, p) == None && IdsDistinct(p)
    ensures Commit(s, p).Ok? <==> GraphAllowed(s, p) && forall r :: r in p.reservations ==> Reservable(p, r)
  {
    hide Inv, Preflight, PlaceFirst, Built, GraphAllowed, Reservable, IdsDistinct;
    PreflightClash(s, p);
    GraphBuiltIff(s, p);
    if GraphAllowed(s, p) {
      if forall r :: r in p.reservations ==> Reservable(p, r) {
        PlacedAll(s, p, |p.reservations|);
      } else if Commit(s, p).Ok? {
        forall r | r in p.reservations ensures Reservable(p, r) {
          var j :| 0 <= j < |p.reservations| && p.reservations[j] == r;
          CommittedAreReservable(s, p, |p.reservations|, j);
        }
      }
    }
  }

  lemma PreflightClash(s: State, p: Proposal)
    requires Preflight(s, p) == None
    ensures !IdentityClash(s, p)
  {
  }

  /**
   What a successful commit leaves: a sound ledger with exactly the proposed project, work items, lines and
   reservations added, and every item's availability reduced by exactly what was planned on it.
   */
  lemma CommitExact(s: State, p: Proposal)
    requires Inv(s) && Preflight(s, p) == None && IdsDistinct(p) && Commit(s, p).Ok?
    ensures Inv(Commit(s, p).value) && SameManual(s, Commit(s, p).value)
    ensures StockPlaced(s, p, |p.reservations|, Commit(s, p).value)
    ensures RowsPlaced(s, p, |p.reservations|, Commit(s, p).value)
    ensures var t := Commit(s, p).value;
            t == Built(s, p).(stock := t.stock, order := t.order, reservations := t.reservations)
  {
    hide Inv, Preflight, PlaceFirst, Built, GraphAllowed, Reservable, IdsDistinct, StockPlaced, RowsPlaced;
    CommitSucceedsIff(s, p);
    PreflightClash(s, p);
    GraphBuiltIff(s, p);
    PlacedAll(s, p, |p.reservations|);
  }
}
