/** Inputs at which the ledger's operations do not do what their callers may expect. */
module LedgerWitnesses {
  import opened Outcomes
  import opened LedgerModel
  import opened LedgerInvariant
  import opened LedgerOperations
  import opened SetupModel
  import opened Tables
  import opened LedgerArchive
  import opened LedgerRuns
  import opened LedgerRollbacks

  /** Ten washers on hand, four of them reserved for a line that needs eight. */
  function Washers(): Item {
    Item(10.0, 6.0, "each", PhysicallyCounted, false, {}, 2)
  }

  function Needed(): Requirement {
    Requirement(Some("washers"), Consumed, 8.0, "each", false, {}, [])
  }

  function Workshop(): State {
    State(
      Stock(map["washers" := Washers()], map[]),
      map["lamp" := Project("Lamp", Idea, None, Some("v1"), 1)], map["lamp" := "lamp"],
      map["v1" := Revision("lamp", 1, RouteUndecided, None, 1)],
      map["line" := Line("v1", Needed(), false, 1)],
      ["held"], map["held" := Reservation("line", "washers", 4.0, Active, 1)], map[])
  }

  lemma WorkshopSums()
    ensures Reserved(Workshop(), "washers") == 4.0 && Coverage(Workshop(), "line", Needed()) == 4.0
    ensures forall i :: i != "washers" ==> Reserved(Workshop(), i) == 0.0
  {
    var s := Workshop();
    assert s.order[..0] == [];
    assert Units(s.stock.items) == map["washers" := "each"];
    assert PerUnit(Needed(), "washers", "each") == 1;
    forall i | i != "washers" ensures Reserved(s, i) == 0.0 {
      NothingReserved(s, i);
    }
  }

  lemma WorkshopSound()
    ensures Inv(Workshop())
  {
    WorkshopSums();
  }

  /** A hand-written release of the four reserved washers is accepted and makes all ten available. */
  lemma HandReleaseFreesReserved()
    ensures Inv(Workshop())
    ensures var released := RecordStockEvent(Workshop().stock, "washers", Release, 4.0, "each");
            released.Ok? && released.value.items["washers"].available == 10.0
            && !Inv(Workshop().(stock := released.value))
  {
    WorkshopSums();
    WorkshopSound();
    HandReleaseKeepsIff(Workshop(), "washers", 4.0, "each");
  }

  /** Reserving the other four under the id in use is accepted, and the first four belong to nobody from then on. */
  lemma ReusedIdLosesStock()
    ensures var reserved := CreateReservation(Workshop(), "v1", ReservationInput("held", "line", "washers", 4.0));
            reserved.Ok? && Manual(Workshop(), "washers") == 0.0 && Manual(reserved.value, "washers") == 4.0
  {
    WorkshopSums();
    WorkshopSound();
    var s, input := Workshop(), ReservationInput("held", "line", "washers", 4.0);
    assert Room(8.0, 4.0, 1) == 4;
    assert Refusal(s, "v1", input) == None;
    ReserveManual(s, input);
  }

  /** A plan for one more lamp: one line, and nothing to reserve yet. */
  function Plan(slug: string, status: Status): Proposal {
    Proposal("second", "Second lamp", slug, status, "v2", RevisionDraft(None, None), [],
      [PlannedLine("a", "line2", Needed(), true)], [])
  }

  /** A plan whose name gives a slug in use passes the preflight, and its commit fails. */
  lemma TakenNameFailsCommit()
    ensures Preflight(Workshop(), Plan("lamp", Idea)) == None && Commit(Workshop(), Plan("lamp", Idea)) == Err(Conflict)
    ensures Preflight(Workshop(), Plan("second", Idea)) == None && Commit(Workshop(), Plan("second", Idea)).Ok?
  {
    assert "lamp" in Workshop().slugs;
  }

  /** A plan for a project that starts archived passes the preflight, and its commit fails. */
  lemma ArchivedStartFailsCommit()
    ensures Preflight(Workshop(), Plan("second", Archived)) == None
    ensures Commit(Workshop(), Plan("second", Archived)) == Err(Conflict)
  {
  }

  function FourNeeded(): Requirement {
    Requirement(Some("washers"), Consumed, 4.0, "each", false, {}, [])
  }

  /** A plan for a lamp that needs four of the six washers left, and reserves some. */
  function PlanReserving(quantity: real): Proposal {
    Proposal("second", "Second lamp", "second", Idea, "v2", RevisionDraft(None, None), [],
      [PlannedLine("a", "line2", FourNeeded(), true)], [PlannedReservation("a", "new", "washers", quantity, None)])
  }

  /** All four can be reserved with the plan, and not one more. */
  lemma PlanReservesAllItNeeds()
    ensures Preflight(Workshop(), PlanReserving(4.0)) == None
    ensures Preflight(Workshop(), PlanReserving(5.0)) == Some(Conflict)
  {
    var basis := FourNeeded();
    assert Room(4.0, 0.0, 1) == 4;
    forall quantity | quantity == 4.0 || quantity == 5.0
      ensures PlanRefusal(Workshop(), PlanReserving(quantity), 0) == if quantity == 4.0 then None else Some(Conflict)
      ensures PlannedTotal(PlanReserving(quantity), 1, "washers") == quantity
    {
      assert LineByRef(PlanReserving(quantity).lines, "a") == Some(PlannedLine("a", "line2", basis, true));
      assert PlannedCoverage(Workshop(), PlanReserving(quantity), 0, "a") == 0.0;
      assert ConversionFactor(basis, "washers", "each") == None;
    }
  }

  function FourMore(): ReservationInput {
    ReservationInput("second", "line", "washers", 4.0)
  }

  lemma FourMoreReserved()
    ensures CreateReservation(Workshop(), "v1", FourMore()) == Ok(Reserve(Workshop(), FourMore()))
  {
    WorkshopSums();
    assert Room(8.0, 4.0, 1) == 4;
    assert Refusal(Workshop(), "v1", FourMore()) == None;
  }

  lemma HeldComesBack()
    ensures ActiveOf(Workshop(), Workshop().order, "lamp") == ["held"]
    ensures ListSum(Workshop().reservations, ["held"], HeldFrom("washers")) == 4.0
    ensures Others(Reserve(Workshop(), FourMore()), ["held"], HeldFrom("washers")) == 4.0
    ensures "washers" in AffectedItems(Workshop(), ["held"])
  {
    var s, t := Workshop(), Reserve(Workshop(), FourMore());
    assert s.order[..0] == [] && ["held"][..0] == [];
    assert ActiveIn(s, "held", "lamp");
    var rows := Without(t.reservations, ["held"]);
    assert t.order == ["held", "second"] && t.order[..1] == ["held"] && t.order[..1][..0] == [];
    assert "held" !in rows && rows["second"] == Reservation("line", "washers", 4.0, Active, 1);
  }

  lemma FourMoreRun()
    ensures var s, step := Workshop(), PlaceReservation("v1", FourMore());
            OwedThroughout(s, [step]) && Perform(s, step).Ok? && Run(s, [step]) == Reserve(s, FourMore())
  {
    FourMoreReserved();
    hide CreateReservation, Reserve;
    assert [PlaceReservation("v1", FourMore())][..0] == [];
  }

  lemma LampArchives()
    ensures "lamp" in Workshop().projects && Workshop().projects["lamp"].status != Archived
    ensures ArchiveProject(Workshop(), "lamp", None).Ok?
  {
    HeldComesBack();
    HeldIsThere();
    hide ActiveOf, ReleaseAll, AffectedItems, AnyItemMissing;
  }

  lemma HeldIsThere()
    ensures !AnyItemMissing(Workshop(), ["held"])
  {
  }

  lemma FourMoreDoNotFit()
    ensures !Fits(Workshop(), Reserve(Workshop(), FourMore()), ActiveOf(Workshop(), Workshop().order, "lamp"))
  {
    HeldComesBack();
    hide LinesFit, CoverageFits, Others, AffectedItems, Reserve;
  }

  /**
   The archive of the lamp fails after it was done, the stores are put back, and somebody reserves four more washers
   before the receipt is: eight are then reserved, and only four of the ten set aside.
   */
  lemma LateRollbackOverbooks()
    ensures var s, step := Workshop(), PlaceReservation("v1", FourMore());
            && Inv(s) && ArchiveProject(s, "lamp", None).Ok? && OwedThroughout(s, [step]) && Perform(s, step).Ok?
            && !Inv(RollbackArchive(Run(s, [step]), ReceiptsAfter(map[], s, "lamp", None), "lamp"))
  {
    WorkshopSound();
    FourMoreRun();
    FourMoreDoNotFit();
    LampArchives();
    hide *;
    LateArchiveRollbackIff(Workshop(), [PlaceReservation("v1", FourMore())], "lamp", None);
  }

  // ---------- a line whose item comes in boxes ----------

  /** The line needs 150 each; the item comes in boxes of one hundred, as a confirmed alternative states. */
  function BoxNeed(): Requirement {
    Requirement(None, Consumed, 150.0, "each", false, {},
      [Alternative("box", true, Some(Conversion("box", "each", 100)))])
  }

  function Boxes(): State {
    State(
      Stock(map["box" := Item(10.0, 10.0, "box", PhysicallyCounted, false, {}, 1)], map[]),
      map["lamp" := Project("Lamp", Idea, None, Some("v1"), 1)], map["lamp" := "lamp"],
      map["v1" := Revision("lamp", 1, RouteUndecided, None, 1)],
      map["line" := Line("v1", BoxNeed(), false, 1)], [], map[], map[])
  }

  lemma BoxRefusal(quantity: real)
    requires IsWhole(quantity) && 0.0 < quantity <= 10.0
    ensures Refusal(Boxes(), "v1", ReservationInput("new", "line", "box", quantity)) ==
            if quantity > 2.0 then Some(Conflict) else None
  {
    var basis := BoxNeed();
    var one := basis.alternatives[0];
    assert basis.alternatives[1..] == [] && one in basis.alternatives;
    assert Factors(basis.alternatives, "box", "box", "each") == [100];
    assert Coverage(Boxes(), "line", basis) == 0.0;
    assert 150.0 / 100.0 == 1.5;
    assert Room(150.0, 0.0, 100) == 2;
  }

  /** One box is not enough and two are: two can be reserved, and three cannot, though ten are there. */
  lemma TwoBoxesAreTheLimit()
    ensures CreateReservation(Boxes(), "v1", ReservationInput("new", "line", "box", 2.0)).Ok?
    ensures CreateReservation(Boxes(), "v1", ReservationInput("new", "line", "box", 3.0)) == Err(Conflict)
    ensures CreateReservation(Boxes(), "v1", ReservationInput("new", "line", "box", 1.5)) == Err(Validation)
  {
    BoxRefusal(2.0);
    BoxRefusal(3.0);
    assert (1.5).Floor == 1;
    assert BoxNeed().alternatives[1..] == [] && BoxNeed().alternatives[0] in BoxNeed().alternatives;
    assert Factors(BoxNeed().alternatives, "box", "box", "each") == [100];
  }
}
