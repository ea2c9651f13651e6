/**
 Rollbacks of an archive that come late: the unit of work has put the stores back already, or other operations ran
 in between. When it is sound to put a receipt back, and what happens to the stock.
 */
module LedgerRollbacks {
  import opened Outcomes
  import opened Tables
  import opened LedgerModel
  import opened LedgerInvariant
  import opened LedgerArchive
  import opened LedgerRuns
  import opened LedgerStays

  // ---------- straight after the unit of work put the stores back ----------

  /**
   What a failed mutation does to the receipt of its archive: the participants are restored first, and the receipt,
   which no participant holds, is put back on top. That changes nothing, whatever the state was.
   */
  lemma RestoredThenRolledBack(s: State, receipts: map<Id, ArchiveReceipt>, projectId: Id, expected: Option<nat>)
    requires ArchiveProject(s, projectId, expected).Ok?
    ensures RollbackArchive(s, ReceiptsAfter(receipts, s, projectId, expected), projectId) == s
  {
    var project := s.projects[projectId];
    if project.status != Archived {
      var ids := ActiveOf(s, s.order, projectId);
      ActiveOfKnown(s, s.order, projectId);
      NothingWritten(s, ids);
      hide WritesOnly, Compensate, ReceiptFor;
      CompensateUndoes(s, s, projectId, ids, project);
      assert s.(projects := s.projects[projectId := project]) == s;
    }
  }

  lemma NothingWritten(s: State, ids: seq<Id>)
    ensures WritesOnly(s, s, ids)
  {
  }

  // ---------- the state after the rollback ----------

  /** The receipt that an archive took in `s`, put back in `t`. */
  function Back(s: State, t: State, projectId: Id, ids: seq<Id>): State
    requires projectId in s.projects
  {
    Compensate(t, projectId, ReceiptFor(s, projectId, ids))
  }

  /** The weights of all reservations but these. */
  function Others(s: State, ids: seq<Id>, weight: Reservation -> real): real {
    Sum(s.order, Without(s.reservations, ids), weight)
  }

  lemma WithReservationTable(s: State, id: Id, r: Reservation)
    requires TableOk(s)
    ensures TableOk(WithReservation(s, id, r))
  {
  }

  lemma SavedOneMore(current: map<Id, Reservation>, saved: map<Id, Reservation>, rest: seq<Id>, last: Id)
    requires last in saved
    ensures (current + (map id | id in saved && id in rest :: saved[id]))[last := saved[last]] ==
            current + (map id | id in saved && id in rest + [last] :: saved[id])
  {
  }

  lemma {:induction false} PutBackShape(t: State, ids: seq<Id>, saved: map<Id, Reservation>)
    requires TableOk(t) && forall id :: id in ids ==> id in saved
    ensures var u := PutBack(t, ids, saved);
            && u == t.(order := u.order, reservations := u.reservations) && TableOk(u)
            && u.reservations == t.reservations + (map id | id in saved && id in ids :: saved[id])
  {
    hide TableOk;
    var put := map id | id in saved && id in ids :: saved[id];
    if ids == [] {
      assert put == map[];
    } else {
      var rest, last := ids[..|ids| - 1], ids[|ids| - 1];
      assert ids == rest + [last];
      PutBackShape(t, rest, saved);
      SavedOneMore(t.reservations, saved, rest, last);
      WithReservationTable(PutBack(t, rest, saved), last, saved[last]);
    }
  }

  lemma {:induction false} PutBackSums(t: State, ids: seq<Id>, saved: map<Id, Reservation>, weight: Reservation -> real)
    requires TableOk(t) && Distinct(ids) && forall id :: id in ids ==> id in saved
    ensures var u := PutBack(t, ids, saved);
            Sum(u.order, u.reservations, weight) == Others(t, ids, weight) + ListSum(saved, ids, weight)
  {
    hide Sum;
    if ids == [] {
      assert Without(t.reservations, ids) == t.reservations;
    } else {
      var rest, last := ids[..|ids| - 1], ids[|ids| - 1];
      assert ids == rest + [last] && last !in rest;
      PutBackSums(t, rest, saved, weight);
      PutBackShape(t, rest, saved);
      WithoutOneMore(t.reservations, rest, last);
      SetSum(PutBack(t, rest, saved), last, saved[last], weight);
      RestSum(t, rest, last, weight);
      hide PutBack, TableOk, Distinct, Others;
    }
  }

  lemma SetSum(s: State, id: Id, r: Reservation, weight: Reservation -> real)
    requires TableOk(s)
    ensures var u := WithReservation(s, id, r);
            Sum(u.order, u.reservations, weight) ==
            Sum(s.order, s.reservations, weight) + weight(r) - if id in s.reservations then weight(s.reservations[id])
              else 0.0
  {
    hide Sum;
    if id in s.reservations {
      SumReplace(s.order, s.reservations, weight, id, r);
    } else {
      SumAppend(s.order, s.reservations, weight, id, r);
    }
  }

  lemma RestSum(t: State, rest: seq<Id>, last: Id, weight: Reservation -> real)
    requires TableOk(t) && last !in rest
    ensures Others(t, rest + [last], weight) ==
            Others(t, rest, weight) - if last in t.reservations then weight(t.reservations[last]) else 0.0
  {
    hide Sum;
    WithoutOneMore(t.reservations, rest, last);
    if last in t.reservations {
      SumLess(t.order, Without(t.reservations, rest), weight, last);
    } else {
      assert Without(t.reservations, rest) - {last} == Without(t.reservations, rest);
    }
  }

  lemma ReceiptShape(s: State, projectId: Id, ids: seq<Id>)
    requires projectId in s.projects
    ensures var receipt := ReceiptFor(s, projectId, ids);
            && receipt.project == s.projects[projectId] && receipt.ids == ids
            && receipt.reservations == (map id | id in s.reservations && id in ids :: s.reservations[id])
            && receipt.items == (map i | i in s.stock.items && i in AffectedItems(s, ids) :: s.stock.items[i])
  {
  }

  lemma BackShape(s: State, t: State, projectId: Id, ids: seq<Id>)
    requires projectId in s.projects && TableOk(t) && Batch(s, ids)
    ensures var u := Back(s, t, projectId, ids);
            && TableOk(u) && u.revisions == t.revisions && u.lines == t.lines
            && u.projects == t.projects[projectId := s.projects[projectId]]
            && u.reservations.Keys == t.reservations.Keys + KeySet(ids)
            && (forall id :: id in u.reservations ==>
                  u.reservations[id] == if id in ids then s.reservations[id] else t.reservations[id])
            && u.stock.items == t.stock.items + (map i | i in s.stock.items && i in AffectedItems(s, ids) ::
              s.stock.items[i])
  {
    hide AffectedItems;
    var receipt := ReceiptFor(s, projectId, ids);
    ReceiptShape(s, projectId, ids);
    PutBackShape(t.(projects := t.projects[projectId := receipt.project]), ids, receipt.reservations);
    BackRows(s, t, projectId, ids);
    hide ReceiptFor, PutBack;
  }

  lemma BackRows(s: State, t: State, projectId: Id, ids: seq<Id>)
    requires projectId in s.projects && TableOk(t) && Batch(s, ids)
    ensures var u := Back(s, t, projectId, ids);
            && u.reservations.Keys == t.reservations.Keys + KeySet(ids)
            && (forall id :: id in u.reservations ==>
                  u.reservations[id] == if id in ids then s.reservations[id] else t.reservations[id])
  {
    hide AffectedItems;
    var receipt := ReceiptFor(s, projectId, ids);
    ReceiptShape(s, projectId, ids);
    PutBackShape(t.(projects := t.projects[projectId := receipt.project]), ids, receipt.reservations);
    hide ReceiptFor, PutBack;
  }

  lemma BackSum(s: State, t: State, projectId: Id, ids: seq<Id>, weight: Reservation -> real)
    requires projectId in s.projects && TableOk(t) && Batch(s, ids)
    ensures var u := Back(s, t, projectId, ids);
            Sum(u.order, u.reservations, weight) == Others(t, ids, weight) + ListSum(s.reservations, ids, weight)
  {
    hide AffectedItems, Sum, PutBack;
    var receipt := ReceiptFor(s, projectId, ids);
    ReceiptShape(s, projectId, ids);
    PutBackSums(t.(projects := t.projects[projectId := receipt.project]), ids, receipt.reservations, weight);
    ListSumSame(receipt.reservations, s.reservations, ids, weight, weight);
  }

  // ---------- when the state after the rollback is sound ----------

  /** The lines of the receipt's reservations are still the project's, and its items still there in their units. */
  ghost predicate Reaches(s: State, t: State, projectId: Id, ids: seq<Id>) {
    && (forall id :: id in ids ==>
          && id in s.reservations && s.reservations[id].lineId in t.lines
          && var v := t.lines[s.reservations[id].lineId].revisionId;
             v in t.revisions && t.revisions[v].projectId == projectId)
    && (forall i :: i in AffectedItems(s, ids) ==>
          i in s.stock.items && i in t.stock.items && t.stock.items[i].unit == s.stock.items[i].unit)
  }

  /** A line with this basis can hold the reservation of this item. */
  ghost predicate TakesBack(basis: Requirement, item: Item, r: Reservation) {
    basis.role == Consumed && Approved(basis, r.itemId) && Readable(basis, r.itemId, item.unit, r.quantity)
  }

  /** What comes back fits the lines as they are now. */
  ghost predicate LinesFit(s: State, t: State, ids: seq<Id>) {
    forall id :: id in ids ==>
      && id in s.reservations && s.reservations[id].lineId in t.lines && s.reservations[id].itemId in s.stock.items
      && TakesBack(t.lines[s.reservations[id].lineId].basis, s.stock.items[s.reservations[id].itemId],
        s.reservations[id])
  }

  /** Per item of the receipt, the other active reservations and those put back fit the gap that comes back with it. */
  ghost predicate GapsFit(s: State, t: State, ids: seq<Id>) {
    forall i :: i in AffectedItems(s, ids) ==>
      && i in s.stock.items
      && Others(t, ids, HeldFrom(i)) + ListSum(s.reservations, ids, HeldFrom(i))
           <= s.stock.items[i].quantity - s.stock.items[i].available
  }

  predicate OnLine(s: State, ids: seq<Id>, l: Id) {
    exists id :: id in ids && id in s.reservations && s.reservations[id].lineId == l
  }

  /** Per line of the receipt, the same for its coverage. */
  ghost predicate CoverageFits(s: State, t: State, ids: seq<Id>) {
    forall l :: l in t.lines && OnLine(s, ids, l) ==>
      var basis := t.lines[l].basis;
      var weight := CoverageOn(l, basis, Units(t.stock.items));
      Others(t, ids, weight) + ListSum(s.reservations, ids, weight) < CoverageLimit(basis)
  }

  lemma WasReserved(s: State, ids: seq<Id>, i: Id)
    requires Inv(s) && Batch(s, ids) && i in AffectedItems(s, ids)
    ensures Live(s.stock, i) && CanCount(s.stock.items[i].evidence) && s.stock.items[i].version >= 2
    ensures ItemOk(s.stock.items[i])
  {
    var id :| id in ids && id in s.reservations && s.reservations[id].itemId == i;
    assert ActiveOk(s, s.reservations[id]);
    GapOf(s, i);
  }

  lemma BackGraph(s: State, t: State, projectId: Id, ids: seq<Id>)
    requires projectId in s.projects && TableOk(t) && GraphOk(t) && Batch(s, ids)
    ensures GraphOk(Back(s, t, projectId, ids))
  {
    BackShape(s, t, projectId, ids);
    hide Back, AffectedItems;
  }

  /** The state after a rollback, by its parts. */
  ghost predicate IsBack(s: State, t: State, u: State, projectId: Id, ids: seq<Id>) {
    && projectId in s.projects && u.revisions == t.revisions && u.lines == t.lines
    && u.projects == t.projects[projectId := s.projects[projectId]]
    && (forall id :: id in u.reservations ==>
          if id in ids then id in s.reservations && u.reservations[id] == s.reservations[id]
          else id in t.reservations && u.reservations[id] == t.reservations[id])
    && u.stock.items == t.stock.items + (map i | i in s.stock.items && i in AffectedItems(s, ids) :: s.stock.items[i])
  }

  lemma AffectedBack(s: State, t: State, u: State, projectId: Id, ids: seq<Id>, id: Id)
    requires IsBack(s, t, u, projectId, ids) && Inv(s) && Batch(s, ids) && id in ids
    ensures var i := s.reservations[id].itemId;
            i in AffectedItems(s, ids) && i in s.stock.items && i in u.stock.items
            && u.stock.items[i] == s.stock.items[i]
  {
    assert s.reservations[id].itemId in AffectedItems(s, ids);
    WasReserved(s, ids, s.reservations[id].itemId);
  }

  lemma ReturnedOk(s: State, t: State, u: State, projectId: Id, ids: seq<Id>, id: Id)
    requires IsBack(s, t, u, projectId, ids) && Inv(s) && Inv(t) && Batch(s, ids) && Reaches(s, t, projectId, ids)
    requires GraphOk(u) && LinesFit(s, t, ids) && id in ids && id in u.reservations && Inactive(s, projectId) == None
    ensures u.reservations[id].quantity > 0.0 && u.reservations[id].lineId in u.lines && ActiveOk(u, u.reservations[id])
  {
    hide AffectedItems, TableOk, BooksOk, CoverageOk;
    AffectedBack(s, t, u, projectId, ids, id);
    WasReserved(s, ids, s.reservations[id].itemId);
  }

  lemma OtherOk(s: State, t: State, u: State, projectId: Id, ids: seq<Id>, id: Id)
    requires IsBack(s, t, u, projectId, ids) && Inv(s) && Inv(t) && Batch(s, ids) && Reaches(s, t, projectId, ids)
    requires GraphOk(u) && id !in ids && id in u.reservations && u.reservations[id].status == Active
    requires Inactive(s, projectId) == None
    ensures u.reservations[id].quantity > 0.0 && u.reservations[id].lineId in u.lines && ActiveOk(u, u.reservations[id])
  {
    hide AffectedItems, TableOk, BooksOk, CoverageOk;
    var r := u.reservations[id];
    assert ActiveOk(t, t.reservations[id]);
    if r.itemId in AffectedItems(s, ids) {
      WasReserved(s, ids, r.itemId);
    }
  }

  lemma BackIs(s: State, t: State, projectId: Id, ids: seq<Id>)
    requires projectId in s.projects && TableOk(t) && Batch(s, ids)
    ensures IsBack(s, t, Back(s, t, projectId, ids), projectId, ids)
    ensures forall id :: id in ids ==> id in Back(s, t, projectId, ids).reservations
  {
    BackShape(s, t, projectId, ids);
    hide Back, AffectedItems;
  }

  lemma FittingOk(s: State, t: State, u: State, projectId: Id, ids: seq<Id>)
    requires IsBack(s, t, u, projectId, ids) && Inv(s) && Inv(t) && Batch(s, ids) && Reaches(s, t, projectId, ids)
    requires GraphOk(u) && LinesFit(s, t, ids) && Inactive(s, projectId) == None
    ensures ReservationsOk(u)
  {
    forall id | id in u.reservations
      ensures u.reservations[id].quantity > 0.0 && u.reservations[id].lineId in u.lines
      ensures u.reservations[id].status == Active ==> ActiveOk(u, u.reservations[id])
    {
      if id in ids {
        ReturnedOk(s, t, u, projectId, ids, id);
      } else if u.reservations[id].status == Active {
        OtherOk(s, t, u, projectId, ids, id);
      } else {
        KeptOk(s, t, u, projectId, ids, id);
      }
    }
    hide IsBack, Inv, Reaches, LinesFit, ActiveOk;
  }

  lemma KeptOk(s: State, t: State, u: State, projectId: Id, ids: seq<Id>, id: Id)
    requires IsBack(s, t, u, projectId, ids) && Inv(t) && id !in ids && id in u.reservations
    ensures u.reservations[id].quantity > 0.0 && u.reservations[id].lineId in u.lines
  {
    hide AffectedItems, BooksOk, CoverageOk;
  }

  lemma OkFits(s: State, t: State, u: State, projectId: Id, ids: seq<Id>)
    requires IsBack(s, t, u, projectId, ids) && Inv(s) && Batch(s, ids) && GraphOk(u) && ReservationsOk(u)
    requires forall id :: id in ids ==> id in u.reservations
    ensures LinesFit(s, t, ids)
  {
    forall id | id in ids
      ensures s.reservations[id].lineId in t.lines && s.reservations[id].itemId in s.stock.items
      ensures TakesBack(t.lines[s.reservations[id].lineId].basis, s.stock.items[s.reservations[id].itemId],
                        s.reservations[id])
    {
      hide AffectedItems, Inv;
      assert ActiveOk(u, u.reservations[id]);
      AffectedBack(s, t, u, projectId, ids, id);
    }
  }

  /** The reservations themselves. */
  lemma ReservationsBackIff(s: State, t: State, projectId: Id, ids: seq<Id>)
    requires Inv(s) && Inv(t) && Batch(s, ids) && Reaches(s, t, projectId, ids) && Inactive(s, projectId) == None
    requires GraphOk(Back(s, t, projectId, ids))
    ensures ReservationsOk(Back(s, t, projectId, ids)) <==> LinesFit(s, t, ids)
  {
    var u := Back(s, t, projectId, ids);
    BackIs(s, t, projectId, ids);
    hide Back, IsBack, Reaches, Batch, LinesFit, ReservationsOk, GraphOk;
    if LinesFit(s, t, ids) {
      FittingOk(s, t, u, projectId, ids);
    }
    if ReservationsOk(u) {
      OkFits(s, t, u, projectId, ids);
    }
  }

  /** The books. */
  lemma BooksBackIff(s: State, t: State, projectId: Id, ids: seq<Id>)
    requires Inv(s) && Inv(t) && Batch(s, ids) && projectId in s.projects
    ensures BooksOk(Back(s, t, projectId, ids)) <==> GapsFit(s, t, ids)
  {
    var u := Back(s, t, projectId, ids);
    forall i | i in u.stock.items
      ensures ItemOk(u.stock.items[i])
      ensures (CanCount(u.stock.items[i].evidence) ==>
                 Reserved(u, i) <= u.stock.items[i].quantity - u.stock.items[i].available)
         <==> (i in AffectedItems(s, ids) ==>
                 Others(t, ids, HeldFrom(i)) + ListSum(s.reservations, ids, HeldFrom(i))
                   <= s.stock.items[i].quantity - s.stock.items[i].available)
    {
      GapBack(s, t, projectId, ids, i);
    }
    forall i | i in AffectedItems(s, ids) ensures i in s.stock.items && i in u.stock.items {
      WasReserved(s, ids, i);
      BackShape(s, t, projectId, ids);
    }
    hide Back, AffectedItems, Reserved, Others, Inv;
  }

  /** One item: those of the receipt come back as they were, the others stay with no more reserved than before. */
  lemma GapBack(s: State, t: State, projectId: Id, ids: seq<Id>, i: Id)
    requires Inv(s) && Inv(t) && Batch(s, ids) && projectId in s.projects && i in Back(s, t, projectId, ids).stock.items
    ensures var u := Back(s, t, projectId, ids);
            && ItemOk(u.stock.items[i])
            && Reserved(u, i) == Others(t, ids, HeldFrom(i)) + ListSum(s.reservations, ids, HeldFrom(i))
            && (i in AffectedItems(s, ids) ==>
                  i in s.stock.items && u.stock.items[i] == s.stock.items[i] && CanCount(u.stock.items[i].evidence))
            && (i !in AffectedItems(s, ids) ==>
                  i in t.stock.items && u.stock.items[i] == t.stock.items[i]
                  && Reserved(u, i) == Reserved(t, i) - ListSum(t.reservations, ids, HeldFrom(i)) <= Reserved(t, i))
            && (CanCount(u.stock.items[i].evidence) && i !in AffectedItems(s, ids) ==>
                  Reserved(u, i) <= u.stock.items[i].quantity - u.stock.items[i].available)
  {
    BackShape(s, t, projectId, ids);
    BackSum(s, t, projectId, ids, HeldFrom(i));
    if i in AffectedItems(s, ids) {
      WasReserved(s, ids, i);
    } else {
      GapOf(t, i);
      NothingHeldBack(s, ids, i);
      SumSplits(t.order, t.reservations, ids, HeldFrom(i));
      HeldWithout(t, ids, i);
    }
  }

  lemma NothingHeldBack(s: State, ids: seq<Id>, i: Id)
    requires i !in AffectedItems(s, ids)
    ensures ListSum(s.reservations, ids, HeldFrom(i)) == 0.0
  {
    ListSumZero(s.reservations, ids, HeldFrom(i));
  }

  lemma HeldWithout(t: State, ids: seq<Id>, i: Id)
    requires Inv(t)
    ensures 0.0 <= Others(t, ids, HeldFrom(i)) <= Reserved(t, i)
  {
    WithoutWeighsLess(t.order, t.reservations, ids, HeldFrom(i));
  }

  /** Coverage. */
  lemma CoverageBackIff(s: State, t: State, projectId: Id, ids: seq<Id>)
    requires Inv(s) && Inv(t) && Batch(s, ids) && projectId in s.projects && Reaches(s, t, projectId, ids)
    ensures CoverageOk(Back(s, t, projectId, ids)) <==> CoverageFits(s, t, ids)
  {
    var u := Back(s, t, projectId, ids);
    BackShape(s, t, projectId, ids);
    forall l | l in t.lines
      ensures Coverage(u, l, t.lines[l].basis) < CoverageLimit(t.lines[l].basis)
         <==> (OnLine(s, ids, l) ==>
                 var weight := CoverageOn(l, t.lines[l].basis, Units(t.stock.items));
                 Others(t, ids, weight) + ListSum(s.reservations, ids, weight) < CoverageLimit(t.lines[l].basis))
    {
      LineBack(s, t, projectId, ids, l);
    }
    hide Back, AffectedItems, Coverage, CoverageLimit, Others, Inv, OnLine;
  }

  lemma UnitsBack(s: State, t: State, projectId: Id, ids: seq<Id>)
    requires TableOk(t) && Batch(s, ids) && projectId in s.projects && Reaches(s, t, projectId, ids)
    ensures Units(Back(s, t, projectId, ids).stock.items) == Units(t.stock.items)
  {
    BackShape(s, t, projectId, ids);
    hide Back, AffectedItems;
  }

  lemma LineBack(s: State, t: State, projectId: Id, ids: seq<Id>, l: Id)
    requires Inv(s) && Inv(t) && Batch(s, ids) && projectId in s.projects && Reaches(s, t, projectId, ids)
          && l in t.lines
    ensures var u, basis := Back(s, t, projectId, ids), t.lines[l].basis;
            var weight := CoverageOn(l, basis, Units(t.stock.items));
            && Coverage(u, l, basis) == Others(t, ids, weight) + ListSum(s.reservations, ids, weight)
            && (!OnLine(s, ids, l) ==> Coverage(u, l, basis) < CoverageLimit(basis))
  {
    var basis := t.lines[l].basis;
    var weight := CoverageOn(l, basis, Units(t.stock.items));
    UnitsBack(s, t, projectId, ids);
    BackSum(s, t, projectId, ids, weight);
    CoveredWithout(t, ids, l, basis);
    LimitOf(t, l);
    if !OnLine(s, ids, l) {
      NothingOnLine(s, ids, l, basis, Units(t.stock.items));
    }
    hide Back, AffectedItems, CoverageLimit, OnLine, Inv;
  }

  lemma NothingOnLine(s: State, ids: seq<Id>, l: Id, basis: Requirement, units: map<Id, Unit>)
    requires !OnLine(s, ids, l)
    ensures ListSum(s.reservations, ids, CoverageOn(l, basis, units)) == 0.0
  {
    hide InLineUnit;
    ListSumZero(s.reservations, ids, CoverageOn(l, basis, units));
  }

  lemma LimitOf(s: State, l: Id)
    requires Inv(s) && l in s.lines
    ensures Coverage(s, l, s.lines[l].basis) < CoverageLimit(s.lines[l].basis)
  {
    hide Coverage, CoverageLimit;
  }

  lemma CoveredWithout(t: State, ids: seq<Id>, l: Id, basis: Requirement)
    requires Inv(t)
    ensures 0.0 <= Others(t, ids, CoverageOn(l, basis, Units(t.stock.items))) <= Coverage(t, l, basis)
  {
    var weight := CoverageOn(l, basis, Units(t.stock.items));
    forall id | id in t.order && id in t.reservations ensures 0.0 <= weight(t.reservations[id]) {
      WeightNonNegative(t.reservations[id], l, basis, Units(t.stock.items));
    }
    WithoutWeighsLess(t.order, t.reservations, ids, weight);
  }

  /** Everything the rollback needs, in terms of the receipt and of the state it is put back in. */
  ghost predicate Fits(s: State, t: State, ids: seq<Id>) {
    LinesFit(s, t, ids) && GapsFit(s, t, ids) && CoverageFits(s, t, ids)
  }

  /**
   Put back in any sound state that still reaches its lines and items, the receipt of a sound one leaves a sound ledger
   if and only if it fits. The manual allocation of its items is then what it was, less what others reserved since.
   */
  lemma BackSoundIff(s: State, t: State, projectId: Id, ids: seq<Id>)
    requires Inv(s) && Inv(t) && Batch(s, ids) && Inactive(s, projectId) == None && Reaches(s, t, projectId, ids)
    ensures Inv(Back(s, t, projectId, ids)) <==> Fits(s, t, ids)
    ensures forall i :: i in AffectedItems(s, ids) ==>
              Manual(Back(s, t, projectId, ids), i) ==
              Manual(s, i) + Others(s, ids, HeldFrom(i)) - Others(t, ids, HeldFrom(i))
    ensures forall i :: i !in AffectedItems(s, ids) ==>
              Manual(Back(s, t, projectId, ids), i) == Manual(t, i)
                + if i in t.stock.items && CanCount(t.stock.items[i].evidence)
                  then ListSum(t.reservations, ids, HeldFrom(i)) else 0.0
  {
    BackShape(s, t, projectId, ids);
    BackGraph(s, t, projectId, ids);
    ReservationsBackIff(s, t, projectId, ids);
    BooksBackIff(s, t, projectId, ids);
    CoverageBackIff(s, t, projectId, ids);
    forall i ensures i in AffectedItems(s, ids) ==>
              Manual(Back(s, t, projectId, ids), i) ==
              Manual(s, i) + Others(s, ids, HeldFrom(i)) - Others(t, ids, HeldFrom(i))
      ensures i !in AffectedItems(s, ids) ==>
              Manual(Back(s, t, projectId, ids), i) == Manual(t, i)
                + if i in t.stock.items && CanCount(t.stock.items[i].evidence)
                  then ListSum(t.reservations, ids, HeldFrom(i)) else 0.0
    {
      ManualBack(s, t, projectId, ids, i);
    }
    hide Back, TableOk, GraphOk, ReservationsOk, BooksOk, CoverageOk, AffectedItems, Others, Manual;
  }

  lemma ManualBack(s: State, t: State, projectId: Id, ids: seq<Id>, i: Id)
    requires Inv(s) && Inv(t) && Batch(s, ids) && projectId in s.projects
    ensures i in AffectedItems(s, ids) ==>
              Manual(Back(s, t, projectId, ids), i) ==
              Manual(s, i) + Others(s, ids, HeldFrom(i)) - Others(t, ids, HeldFrom(i))
    ensures i !in AffectedItems(s, ids) ==>
              Manual(Back(s, t, projectId, ids), i) == Manual(t, i)
                + if i in t.stock.items && CanCount(t.stock.items[i].evidence)
                  then ListSum(t.reservations, ids, HeldFrom(i)) else 0.0
  {
    BackShape(s, t, projectId, ids);
    if i in AffectedItems(s, ids) {
      WasReserved(s, ids, i);
      SumSplits(s.order, s.reservations, ids, HeldFrom(i));
    }
    hide AffectedItems, Others;
    if i in Back(s, t, projectId, ids).stock.items {
      GapBack(s, t, projectId, ids, i);
    }
    hide Back, Reserved, Inv;
  }

  // ---------- over runs ----------

  /** Every state of a run still reaches the lines and items of a receipt taken at its start. */
  lemma RunReaches(s: State, steps: seq<Step>, projectId: Id, ids: seq<Id>)
    requires Inv(s) && OwedThroughout(s, steps) && Batch(s, ids)
    requires forall id :: id in ids ==> ActiveIn(s, id, projectId)
    ensures Inv(Run(s, steps)) && Reaches(s, Run(s, steps), projectId, ids)
  {
    RunKeeps(s, steps);
    RunStays(s, steps);
    var t := Run(s, steps);
    hide Run, OwedThroughout;
    forall i | i in AffectedItems(s, ids)
      ensures i in s.stock.items && i in t.stock.items && t.stock.items[i].unit == s.stock.items[i].unit
    {
      WasReserved(s, ids, i);
    }
    hide AffectedItems;
  }

  /**
   However late the rollback of an archive comes, after the archive itself or after the unit of work put the stores
   back, and whatever other operations ran: the ledger is sound afterwards if and only if the receipt fits.
   */
  lemma LateArchiveRollbackIff(s: State, steps: seq<Step>, projectId: Id, expected: Option<nat>)
    requires Inv(s) && OwedThroughout(s, steps)
    requires ArchiveProject(s, projectId, expected).Ok? && s.projects[projectId].status != Archived
    ensures var ids := ActiveOf(s, s.order, projectId);
            Inv(RollbackArchive(Run(s, steps), ReceiptsAfter(map[], s, projectId, expected), projectId)) <==>
              Fits(s, Run(s, steps), ids)
  {
    var ids := ActiveOf(s, s.order, projectId);
    ReceiptIs(s, Run(s, steps), projectId, expected);
    ProjectBatch(s, projectId);
    hide Inv, ReleaseAll, ActiveOf, RollbackArchive, ReceiptsAfter, ArchiveProject, Reaches, Fits, Back, Batch;
    RunReaches(s, steps, projectId, ids);
    BackSoundIff(s, Run(s, steps), projectId, ids);
  }

  lemma ReceiptIs(s: State, t: State, projectId: Id, expected: Option<nat>)
    requires ArchiveProject(s, projectId, expected).Ok? && s.projects[projectId].status != Archived
    ensures RollbackArchive(t, ReceiptsAfter(map[], s, projectId, expected), projectId) ==
            Back(s, t, projectId, ActiveOf(s, s.order, projectId))
    ensures Inactive(s, projectId) == None
  {
    hide Compensate, ReceiptFor, ReleaseAll, ActiveOf;
  }

  // ---------- when nothing that the receipt covers was disturbed ----------

  /**
   What the receipt of an archive covers, and the lines it relies on, are as the archive left them: `a` is the state
   after the release of the project's reservations `ids` in `s`, and `t` is the state before the rollback.
   */
  ghost predicate Undisturbed(s: State, a: State, t: State, projectId: Id, ids: seq<Id>) {
    && projectId in t.projects && t.projects[projectId].status == Archived
    && (forall id :: id in ids ==>
          && id in s.reservations && id in a.reservations && id in t.reservations
          && t.reservations[id] == a.reservations[id]
          && var l := s.reservations[id].lineId;
             && l in s.lines && l in t.lines && t.lines[l].basis == s.lines[l].basis
             && t.lines[l].revisionId in t.revisions && t.revisions[t.lines[l].revisionId].projectId == projectId)
    && (forall i :: i in AffectedItems(s, ids) ==>
          i in s.stock.items && i in a.stock.items && i in t.stock.items && t.stock.items[i] == a.stock.items[i])
  }

  ghost predicate Linear(weight: Reservation -> real) {
    forall r: Reservation :: r.status != Active ==> weight(r) == 0.0
  }

  lemma HeldIsLinear(itemId: Id)
    ensures Linear(HeldFrom(itemId))
  {
  }

  lemma CoverageIsLinear(lineId: Id, basis: Requirement, units: map<Id, Unit>)
    ensures Linear(CoverageOn(lineId, basis, units))
  {
  }

  /** Where the reservations of the receipt are ended, the others are all that weighs. */
  lemma OthersAreAll(t: State, ids: seq<Id>, weight: Reservation -> real)
    requires TableOk(t) && Distinct(ids) && Linear(weight)
    requires forall id :: id in ids && id in t.reservations ==> t.reservations[id].status != Active
    ensures Others(t, ids, weight) == Sum(t.order, t.reservations, weight)
         && ListSum(t.reservations, ids, weight) == 0.0
  {
    SumSplits(t.order, t.reservations, ids, weight);
    ListSumZero(t.reservations, ids, weight);
  }

  lemma SameOthers(s: State, a: State, ids: seq<Id>, weight: Reservation -> real)
    requires a.order == s.order && a.reservations == ReleasedRows(s.reservations, ids)
    ensures Others(a, ids, weight) == Others(s, ids, weight)
  {
    assert Without(a.reservations, ids) == Without(s.reservations, ids);
  }

  /** One item of the receipt: what comes back into its gap is what the archive took out of it. */
  lemma GapUndisturbed(s: State, a: State, t: State, projectId: Id, ids: seq<Id>, i: Id)
    requires Inv(s) && Inv(a) && Inv(t) && Batch(s, ids) && SameItems(s, a) && Undisturbed(s, a, t, projectId, ids)
    requires a == s.(stock := a.stock, reservations := ReleasedRows(s.reservations, ids)) && i in AffectedItems(s, ids)
    ensures Others(t, ids, HeldFrom(i)) + ListSum(s.reservations, ids, HeldFrom(i))
              <= s.stock.items[i].quantity - s.stock.items[i].available
    ensures Manual(t, i) == Manual(s, i) + Others(s, ids, HeldFrom(i)) - Others(t, ids, HeldFrom(i))
  {
    HeldIsLinear(i);
    OthersAreAll(t, ids, HeldFrom(i));
    OthersAreAll(a, ids, HeldFrom(i));
    SameOthers(s, a, ids, HeldFrom(i));
    SumSplits(s.order, s.reservations, ids, HeldFrom(i));
    WasReserved(s, ids, i);
    GapOf(t, i);
    hide AffectedItems, ReleasedRows, Others, Inv;
    assert SameBut(s.stock.items[i], a.stock.items[i]) && Manual(a, i) == Manual(s, i);
  }

  /**
   One line of the receipt: it had nothing reserved while its project was archived, and its coverage before was in
   bounds.
   */
  lemma LineUndisturbed(s: State, a: State, t: State, projectId: Id, ids: seq<Id>, l: Id)
    requires Inv(s) && Inv(t) && Batch(s, ids) && SameItems(s, a) && Undisturbed(s, a, t, projectId, ids)
    requires l in t.lines && OnLine(s, ids, l)
    ensures var weight := CoverageOn(l, t.lines[l].basis, Units(t.stock.items));
            Others(t, ids, weight) + ListSum(s.reservations, ids, weight) < CoverageLimit(t.lines[l].basis)
  {
    var id :| id in ids && id in s.reservations && s.reservations[id].lineId == l;
    var basis := t.lines[l].basis;
    NothingActiveOn(s, a, t, projectId, ids, l);
    NothingCovered(t, l, basis);
    CoveredWithout(t, ids, l, basis);
    LimitOf(s, l);
    CoveredWithout(s, ids, l, basis);
    SumSplits(s.order, s.reservations, ids, CoverageOn(l, basis, Units(s.stock.items)));
    SameWeights(s, a, t, projectId, ids, l, basis);
    hide AffectedItems, Others, Inv, CoverageLimit;
  }

  lemma NothingActiveOn(s: State, a: State, t: State, projectId: Id, ids: seq<Id>, l: Id)
    requires Inv(t) && Undisturbed(s, a, t, projectId, ids) && OnLine(s, ids, l)
    ensures !HasActive(t, l)
  {
    hide AffectedItems, BooksOk, CoverageOk;
    forall r | r in t.reservations && t.reservations[r].status == Active ensures t.reservations[r].lineId != l {
      assert ActiveOk(t, t.reservations[r]);
    }
  }

  lemma SameWeights(s: State, a: State, t: State, projectId: Id, ids: seq<Id>, l: Id, basis: Requirement)
    requires Batch(s, ids) && SameItems(s, a) && Undisturbed(s, a, t, projectId, ids)
    ensures ListSum(s.reservations, ids, CoverageOn(l, basis, Units(t.stock.items))) ==
            ListSum(s.reservations, ids, CoverageOn(l, basis, Units(s.stock.items)))
  {
    hide InLineUnit;
    var now, earlier := CoverageOn(l, basis, Units(t.stock.items)), CoverageOn(l, basis, Units(s.stock.items));
    forall id | id in ids ensures now(s.reservations[id]) == earlier(s.reservations[id]) {
      var i := s.reservations[id].itemId;
      assert i in AffectedItems(s, ids);
      assert SameBut(s.stock.items[i], a.stock.items[i]);
    }
    ListSumSame(s.reservations, s.reservations, ids, now, earlier);
  }

  lemma UndisturbedReaches(s: State, a: State, t: State, projectId: Id, ids: seq<Id>)
    requires SameItems(s, a) && Undisturbed(s, a, t, projectId, ids)
    ensures Reaches(s, t, projectId, ids)
  {
    hide AffectedItems;
    forall i | i in AffectedItems(s, ids)
      ensures i in s.stock.items && i in t.stock.items && t.stock.items[i].unit == s.stock.items[i].unit
    {
      assert SameBut(s.stock.items[i], a.stock.items[i]);
    }
  }

  lemma UndisturbedFits(s: State, a: State, t: State, projectId: Id, ids: seq<Id>)
    requires Inv(s) && Inv(a) && Inv(t) && Batch(s, ids) && SameItems(s, a) && Undisturbed(s, a, t, projectId, ids)
    requires a == s.(stock := a.stock, reservations := ReleasedRows(s.reservations, ids))
    ensures Fits(s, t, ids)
    ensures forall i :: i in AffectedItems(s, ids) ==>
              Manual(t, i) == Manual(s, i) + Others(s, ids, HeldFrom(i)) - Others(t, ids, HeldFrom(i))
  {
    hide ReleasedRows, SameItems, Others, CoverageLimit, Manual;
    forall i | i in AffectedItems(s, ids)
      ensures i in s.stock.items
      ensures Others(t, ids, HeldFrom(i)) + ListSum(s.reservations, ids, HeldFrom(i))
                <= s.stock.items[i].quantity - s.stock.items[i].available
      ensures Manual(t, i) == Manual(s, i) + Others(s, ids, HeldFrom(i)) - Others(t, ids, HeldFrom(i))
    {
      WasReserved(s, ids, i);
      GapUndisturbed(s, a, t, projectId, ids, i);
    }
    forall l | l in t.lines && OnLine(s, ids, l)
      ensures var weight := CoverageOn(l, t.lines[l].basis, Units(t.stock.items));
              Others(t, ids, weight) + ListSum(s.reservations, ids, weight) < CoverageLimit(t.lines[l].basis)
    {
      LineUndisturbed(s, a, t, projectId, ids, l);
    }
    LinesUndisturbed(s, a, t, projectId, ids);
    hide Undisturbed, AffectedItems, Inv;
  }

  lemma LinesUndisturbed(s: State, a: State, t: State, projectId: Id, ids: seq<Id>)
    requires Inv(s) && Batch(s, ids) && Undisturbed(s, a, t, projectId, ids)
    ensures LinesFit(s, t, ids)
  {
    hide AffectedItems, BooksOk, CoverageOk;
    forall id | id in ids
      ensures s.reservations[id].lineId in t.lines && s.reservations[id].itemId in s.stock.items
      ensures TakesBack(t.lines[s.reservations[id].lineId].basis, s.stock.items[s.reservations[id].itemId],
              s.reservations[id])
    {
      assert ActiveOk(s, s.reservations[id]);
    }
  }

  /**
   So a rollback of an archive leaves a sound ledger and every manual allocation as it was, if the project is still
   archived and what the receipt covers, and the lines it relies on, are as the archive left them.
   */
  lemma LateArchiveRollbackKeeps(s: State, t: State, projectId: Id, expected: Option<nat>)
    requires Inv(s) && ArchiveProject(s, projectId, expected).Ok? && s.projects[projectId].status != Archived
    requires var ids := ActiveOf(s, s.order, projectId);
             Inv(t) && Undisturbed(s, ReleaseAll(s, ids), t, projectId, ids)
    ensures var u := RollbackArchive(t, ReceiptsAfter(map[], s, projectId, expected), projectId);
            Inv(u) && forall i :: Manual(u, i) == Manual(t, i)
  {
    var ids := ActiveOf(s, s.order, projectId);
    ReceiptIs(s, t, projectId, expected);
    ProjectBatch(s, projectId);
    ReleaseAllKeeps(s, ids);
    hide Inv, ReleaseAll, ActiveOf, SameItems, ReleasedRows, RollbackArchive, ReceiptsAfter, Manual, ArchiveProject,
         Back, Batch, Undisturbed;
    UndisturbedBack(s, ReleaseAll(s, ids), t, projectId, ids);
  }

  lemma UndisturbedBack(s: State, a: State, t: State, projectId: Id, ids: seq<Id>)
    requires Inv(s) && Inv(a) && Inv(t) && Batch(s, ids) && SameItems(s, a) && Undisturbed(s, a, t, projectId, ids)
    requires a == s.(stock := a.stock, reservations := ReleasedRows(s.reservations, ids))
          && Inactive(s, projectId) == None
    ensures var u := Back(s, t, projectId, ids);
            Inv(u) && forall i :: Manual(u, i) == Manual(t, i)
  {
    hide Inv, SameItems, AffectedItems, ReleasedRows, Manual, Reaches, Fits, Back, Others, Batch, Undisturbed;
    UndisturbedReaches(s, a, t, projectId, ids);
    UndisturbedFits(s, a, t, projectId, ids);
    BackSoundIff(s, t, projectId, ids);
    forall i ensures ListSum(t.reservations, ids, HeldFrom(i)) == 0.0 {
      NothingHeld(s, a, t, projectId, ids, i);
    }
  }

  lemma NothingHeld(s: State, a: State, t: State, projectId: Id, ids: seq<Id>, i: Id)
    requires Undisturbed(s, a, t, projectId, ids) && a.reservations == ReleasedRows(s.reservations, ids)
    ensures ListSum(t.reservations, ids, HeldFrom(i)) == 0.0
  {
    hide AffectedItems;
    ListSumZero(t.reservations, ids, HeldFrom(i));
  }
}
