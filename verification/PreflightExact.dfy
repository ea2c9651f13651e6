/**
 Preflight against the commit, both ways: a plan with new ids, the items' own units and settled specifications passes
 whenever its commit goes through.
 */
module PreflightExact {
  import opened Outcomes
  import opened LedgerModel
  import opened LedgerInvariant
  import opened SetupModel
  import opened SetupProof

  /** Nothing that the plan creates is there already. */
  predicate AllNew(s: State, p: Proposal) {
    && p.projectId !in s.projects && p.revisionId !in s.revisions
    && (forall k :: 0 <= k < |p.workItems| ==> p.workItems[k] !in s.workItems)
    && (forall k :: 0 <= k < |p.lines| ==> p.lines[k].id !in s.lines)
    && (forall k :: 0 <= k < |p.reservations| ==> p.reservations[k].id !in s.reservations)
  }

  /** The last line with this reference. */
  ghost predicate Names(p: Proposal, ref: string, n: int) {
    && 0 <= n < |p.lines| && p.lines[n].ref == ref
    && forall m :: n < m < |p.lines| ==> p.lines[m].ref != ref
  }

  /** Each planned reservation states the unit of its item, or none, and its line has no open specification decision. */
  ghost predicate WellStated(s: State, p: Proposal) {
    && (forall k :: 0 <= k < |p.reservations| ==>
          var r := p.reservations[k];
          r.unit.Some? && r.itemId in s.stock.items ==> s.stock.items[r.itemId].unit == r.unit.value)
    && (forall k, n :: 0 <= k < |p.reservations| && Names(p, p.reservations[k].lineRef, n) ==> p.lines[n].specified)
  }

  lemma {:induction false} LastWins(lines: seq<PlannedLine>, ref: string)
    ensures LineByRef(lines, ref).None? <==> forall n :: 0 <= n < |lines| ==> lines[n].ref != ref
    ensures forall n :: 0 <= n < |lines| && lines[n].ref == ref && (forall m :: n < m < |lines| ==> lines[m].ref != ref)
              ==> LineByRef(lines, ref) == Some(lines[n])
  {
    if lines != [] && lines[|lines| - 1].ref != ref {
      var rest := lines[..|lines| - 1];
      LastWins(rest, ref);
      assert forall n :: 0 <= n < |rest| ==> rest[n] == lines[n];
    }
  }

  lemma {:induction false} LastExists(p: Proposal, ref: string, k: nat)
    requires k <= |p.lines| && forall m :: k <= m < |p.lines| ==> p.lines[m].ref != ref
    requires exists n :: 0 <= n < |p.lines| && p.lines[n].ref == ref
    ensures exists n :: Names(p, ref, n)
  {
    if k > 0 {
      if p.lines[k - 1].ref == ref {
        assert Names(p, ref, k - 1);
      } else {
        LastExists(p, ref, k - 1);
      }
    }
  }

  /** Line number n is the one with this reference. */
  lemma NamedLine(p: Proposal, ref: string, n: int)
    requires Names(p, ref, n)
    ensures LineByRef(p.lines, ref) == Some(p.lines[n])
  {
    LastWins(p.lines, ref);
  }

  lemma NewIffNoClash(s: State, p: Proposal)
    requires Inv(s)
    ensures AllNew(s, p) <==> !IdentityClash(s, p)
  {
    forall id | id in s.reservations ensures DetailsExist(s, id) {
      assert s.lines[s.reservations[id].lineId].revisionId in s.revisions;
    }
    if AllNew(s, p) {
      forall w | w in p.workItems ensures w !in s.workItems {
      }
      forall l | l in p.lines ensures l.id !in s.lines {
      }
      forall r | r in p.reservations ensures r.id !in s.reservations {
      }
    } else {
      if k :| 0 <= k < |p.workItems| && p.workItems[k] in s.workItems {
        assert p.workItems[k] in p.workItems;
      }
      if k :| 0 <= k < |p.lines| && p.lines[k].id in s.lines {
        assert p.lines[k] in p.lines;
      }
      if k :| 0 <= k < |p.reservations| && p.reservations[k].id in s.reservations {
        assert p.reservations[k] in p.reservations;
      }
    }
  }

  // ---------- from the commit back to the preflight ----------

  lemma AcceptedInput(t: State, revisionId: Id, input: ReservationInput)
    requires Refusal(t, revisionId, input) == None
    ensures input.lineId in t.lines && input.itemId in t.stock.items
    ensures var basis, item := t.lines[input.lineId].basis, t.stock.items[input.itemId];
            && !item.retired && Approved(basis, input.itemId) && basis.constraints <= item.facts
            && CanCount(item.evidence)
            && Readable(basis, input.itemId, item.unit, input.quantity)
            && 0.0 < input.quantity <= item.available
            && input.quantity <= Room(basis.required, Coverage(t, input.lineId, basis),
              PerUnit(basis, input.itemId, item.unit)) as real
  {
  }

  /** What the moved state accepts, the plan's verdict passes. */
  lemma AcceptedPasses(s: State, p: Proposal, k: nat, t: State)
    requires k < |p.reservations| && Placed(s, p, k, t) && IdsDistinct(p)
    requires LineByRef(p.lines, p.reservations[k].lineRef).Some?
    requires LineByRef(p.lines, p.reservations[k].lineRef).value.specified
    requires var r := p.reservations[k];
             r.unit.Some? && r.itemId in s.stock.items ==> s.stock.items[r.itemId].unit == r.unit.value
    requires Refusal(t, p.revisionId, InputOf(p, k)) == None
    ensures PlanRefusal(s, p, k) == None
    ensures p.reservations[k].itemId in s.stock.items
    ensures PlannedTotal(p, k + 1, p.reservations[k].itemId) <= s.stock.items[p.reservations[k].itemId].available
  {
    hide Inv, Refusal, Coverage, PlannedCoverage, CoverageReadable, Approved, ConversionFactor, RowsPlaced, LineByRef,
         CanCount, Ceil, WithLines;
    var r := p.reservations[k];
    TargetLine(s, p, k);
    AcceptedInput(t, p.revisionId, InputOf(p, k));
    RefFound(p.lines, r.lineRef);
    assert t.stock.items[r.itemId].facts == s.stock.items[r.itemId].facts;
  }

  lemma PlaceAccepts(t: State, p: Proposal, k: nat)
    requires k < |p.reservations| && Place(t, p, p.reservations[k]).Ok?
    ensures LineByRef(p.lines, p.reservations[k].lineRef).Some? && Refusal(t, p.revisionId, InputOf(p, k)) == None
  {
  }

  /** The preflight checks that concern the first k reservations. */
  ghost predicate Passed(s: State, p: Proposal, k: nat)
    requires k <= |p.reservations|
  {
    forall j :: 0 <= j < k ==> PlanRefusal(s, p, j) == None && Affordable(s, p, k, p.reservations[j].itemId)
  }

  predicate Affordable(s: State, p: Proposal, k: nat, itemId: Id)
    requires k <= |p.reservations|
  {
    Live(s.stock, itemId) && PlannedTotal(p, k, itemId) <= s.stock.items[itemId].available
  }

  lemma NothingPassed(s: State, p: Proposal)
    ensures Passed(s, p, 0)
  {
  }

  lemma StatedAt(s: State, p: Proposal, k: nat)
    requires WellStated(s, p) && k < |p.reservations| && LineByRef(p.lines, p.reservations[k].lineRef).Some?
    ensures LineByRef(p.lines, p.reservations[k].lineRef).value.specified
    ensures var r := p.reservations[k];
            r.unit.Some? && r.itemId in s.stock.items ==> s.stock.items[r.itemId].unit == r.unit.value
  {
    var ref := p.reservations[k].lineRef;
    LastWins(p.lines, ref);
    LastExists(p, ref, |p.lines|);
    var n :| Names(p, ref, n);
    NamedLine(p, ref, n);
  }

  lemma NextPassed(s: State, p: Proposal, k: nat)
    requires k < |p.reservations| && Passed(s, p, k) && PlanRefusal(s, p, k) == None
    requires Affordable(s, p, k + 1, p.reservations[k].itemId)
    ensures Passed(s, p, k + 1)
  {
    hide PlanRefusal, LineByRef;
  }

  lemma CommittedNext(s: State, p: Proposal, k: nat, t: State)
    requires k < |p.reservations| && Placed(s, p, k, t) && Passed(s, p, k) && IdsDistinct(p) && WellStated(s, p)
    requires p.reservations[k].id !in s.reservations && Place(t, p, p.reservations[k]).Ok?
    ensures Placed(s, p, k + 1, Place(t, p, p.reservations[k]).value) && Passed(s, p, k + 1)
  {
    PassesNext(s, p, k, t);
    hide Placed, Passed, Place, PlanRefusal, LineByRef, WellStated, IdsDistinct, Refusal, Affordable, InputOf;
    PlaceAccepts(t, p, k);
    PlaceAccepted(s, p, k, t);
    NextPassed(s, p, k);
  }

  lemma PassesNext(s: State, p: Proposal, k: nat, t: State)
    requires k < |p.reservations| && Placed(s, p, k, t) && IdsDistinct(p) && WellStated(s, p)
    requires Place(t, p, p.reservations[k]).Ok?
    ensures PlanRefusal(s, p, k) == None && Affordable(s, p, k + 1, p.reservations[k].itemId)
  {
    hide Placed, Place, LineByRef, WellStated, IdsDistinct, Refusal, Inv;
    PlaceAccepts(t, p, k);
    StatedAt(s, p, k);
    AcceptedPasses(s, p, k, t);
  }

  lemma {:induction false} CommittedPlaced(s: State, p: Proposal, k: nat)
    requires Inv(s) && AllNew(s, p) && IdsDistinct(p) && GraphAllowed(s, p) && WellStated(s, p)
    requires k <= |p.reservations| && PlaceFirst(Built(s, p), p, k).Ok?
    ensures Placed(s, p, k, PlaceFirst(Built(s, p), p, k).value) && Passed(s, p, k)
  {
    hide Inv, Placed, Place, PlanRefusal, Built, IdsDistinct, GraphAllowed, IdentityClash, WellStated, Passed,
         Affordable, LineByRef;
    NewIffNoClash(s, p);
    if k == 0 {
      NothingPlaced(s, p);
      NothingPassed(s, p);
    } else {
      CommittedPlaced(s, p, k - 1);
      CommittedNext(s, p, k - 1, PlaceFirst(Built(s, p), p, k - 1).value);
    }
  }

  lemma {:induction false} PassedAll(s: State, p: Proposal, from: nat)
    requires from <= |p.reservations| && Passed(s, p, |p.reservations|)
    ensures FirstRefusal(s, p, from) == None
    decreases |p.reservations| - from
  {
    hide PlanRefusal, Affordable;
    if from < |p.reservations| {
      PassedAll(s, p, from + 1);
    }
  }

  lemma PassedSuffices(s: State, p: Proposal)
    requires Passed(s, p, |p.reservations|)
    ensures StockSuffices(s, p)
  {
    hide PlanRefusal, PlannedTotal;
    forall r | r in p.reservations
      ensures Live(s.stock, r.itemId)
      ensures PlannedTotal(p, |p.reservations|, r.itemId) <= s.stock.items[r.itemId].available
    {
      var j :| 0 <= j < |p.reservations| && p.reservations[j] == r;
      assert Affordable(s, p, |p.reservations|, p.reservations[j].itemId);
    }
  }

  lemma CommitPasses(s: State, p: Proposal)
    requires Inv(s) && IdsDistinct(p) && AllNew(s, p) && WellStated(s, p) && Commit(s, p).Ok?
    ensures Preflight(s, p) == None
  {
    hide Inv, IdsDistinct, AllNew, WellStated, GraphAllowed, Built, PlaceFirst, FirstRefusal, StockSuffices, Placed,
         Passed;
    NewIffNoClash(s, p);
    GraphBuiltIff(s, p);
    CommittedPlaced(s, p, |p.reservations|);
    PassedAll(s, p, 0);
    PassedSuffices(s, p);
  }

  // ---------- what passing says ----------

  lemma PassesStated(s: State, p: Proposal, k: nat)
    requires k < |p.reservations| && PlanRefusal(s, p, k) == None
    ensures var r := p.reservations[k];
            r.unit.Some? && r.itemId in s.stock.items ==> s.stock.items[r.itemId].unit == r.unit.value
    ensures forall n :: Names(p, p.reservations[k].lineRef, n) ==> p.lines[n].specified
  {
    forall n | Names(p, p.reservations[k].lineRef, n) ensures p.lines[n].specified {
      NamedLine(p, p.reservations[k].lineRef, n);
    }
  }

  lemma PreflightStates(s: State, p: Proposal)
    requires Inv(s) && Preflight(s, p) == None
    ensures AllNew(s, p) && WellStated(s, p)
  {
    hide Inv, AllNew, PlanRefusal, FirstRefusal;
    NewIffNoClash(s, p);
    forall k | 0 <= k < |p.reservations|
      ensures PlanRefusal(s, p, k) == None
      ensures var r := p.reservations[k];
              r.unit.Some? && r.itemId in s.stock.items ==> s.stock.items[r.itemId].unit == r.unit.value
    {
      NoRefusalAt(s, p, 0, k);
      PassesStated(s, p, k);
    }
    forall k, n | 0 <= k < |p.reservations| && Names(p, p.reservations[k].lineRef, n) ensures p.lines[n].specified {
      PassesStated(s, p, k);
    }
  }

  /**
   Project setup goes through if and only if everything it creates is new, its units and specifications are settled, and
   the build would go through without any preflight: preflight refuses no other plan.
   */
  lemma SetUpIff(s: State, p: Proposal)
    requires Inv(s) && IdsDistinct(p)
    ensures SetUp(s, p).Ok? <==> AllNew(s, p) && WellStated(s, p) && Commit(s, p).Ok?
    ensures SetUp(s, p).Ok? ==> SetUp(s, p) == Commit(s, p)
  {
    hide Inv, IdsDistinct, AllNew, WellStated, Preflight, Commit;
    if Preflight(s, p) == None {
      PreflightStates(s, p);
    } else if AllNew(s, p) && WellStated(s, p) && Commit(s, p).Ok? {
      CommitPasses(s, p);
    }
  }

  /** For a plan that setup could build at all, preflight is exact. */
  lemma PreflightIff(s: State, p: Proposal)
    requires Inv(s) && IdsDistinct(p) && GraphAllowed(s, p) && forall r :: r in p.reservations ==> Reservable(p, r)
    ensures Preflight(s, p) == None <==> AllNew(s, p) && WellStated(s, p) && Commit(s, p).Ok?
  {
    hide Inv, IdsDistinct, AllNew, WellStated, Preflight, Commit, GraphAllowed, Reservable;
    if Preflight(s, p) == None {
      PreflightStates(s, p);
      CommitSucceedsIff(s, p);
    } else if AllNew(s, p) && WellStated(s, p) && Commit(s, p).Ok? {
      CommitPasses(s, p);
    }
  }
}
