/** What the calls on bill-of-materials lines and on reservations answer, and what they then do. */
module ReservationAnswers {
  import opened Outcomes
  import opened Tables
  import opened LedgerModel
  import opened StockAnswers
  import GraphAnswers
  import Conversions

  // ---------- lines ----------

  predicate IsReserved(s: State, lineId: Id) {
    exists r :: r in s.reservations && s.reservations[r].status == Active && s.reservations[r].lineId == lineId
  }

  /** One line changed under the next version, and nothing else. */
  ghost predicate LineMovesOn(s: State, t: State, lineId: Id) {
    && t == s.(lines := t.lines) && lineId in s.lines && OnlyAt(s.lines, t.lines, lineId)
    && t.lines[lineId].version == s.lines[lineId].version + 1
    && t.lines[lineId].revisionId == s.lines[lineId].revisionId
  }

  lemma CreateLineAnswers(s: State, revisionId: Id, lineId: Id, basis: Requirement)
    ensures var answer := CreateLine(s, revisionId, lineId, basis);
            && (answer.Ok? <==> revisionId in s.revisions && GraphAnswers.IsOpen(s, s.revisions[revisionId].projectId))
            && (answer == Err(NotFound) <==>
                  revisionId !in s.revisions || s.revisions[revisionId].projectId !in s.projects)
            && (answer.Err? ==> answer.error in {NotFound, ProjectRemoved, Conflict})
            && (answer.Ok? ==>
                  && answer.value == s.(lines := answer.value.lines) && OnlyAt(s.lines, answer.value.lines, lineId)
                  && answer.value.lines[lineId] == Line(revisionId, basis, false, 1))
  {
  }

  /** A field that is given replaces the one before, and any other stays. */
  predicate Takes<T(==)>(change: Option<T>, before: T, after: T) {
    change == Some(after) || (change == None && after == before)
  }

  predicate TakesAll(before: Requirement, change: BasisChange, after: Requirement) {
    && Takes(change.itemId, before.itemId, after.itemId) && Takes(change.role, before.role, after.role)
    && Takes(change.required, before.required, after.required) && Takes(change.unit, before.unit, after.unit)
    && Takes(change.optional, before.optional, after.optional)
    && Takes(change.constraints, before.constraints, after.constraints)
    && Takes(change.alternatives, before.alternatives, after.alternatives)
  }

  /** Nothing a reservation was planned on differs; an undecided role may settle as consumed. */
  predicate SamePlan(before: Requirement, after: Requirement) {
    && after.itemId == before.itemId && after.required == before.required && after.unit == before.unit
    && after.optional == before.optional && after.constraints == before.constraints
    && after.alternatives == before.alternatives
    && (after.role == before.role || (before.role == Undecided && after.role == Consumed))
  }

  lemma MergedTakes(before: Requirement, change: BasisChange)
    ensures TakesAll(before, change, Merged(before, change))
    ensures forall after :: TakesAll(before, change, after) ==> after == Merged(before, change)
  {
  }

  lemma ChangesIff(before: Requirement, after: Requirement)
    ensures ChangesReserved(before, after) <==> !SamePlan(before, after)
  {
  }

  /** A line takes any change that names its version, unless it is reserved and the change touches the plan. */
  lemma UpdateLineAnswers(s: State, lineId: Id, change: BasisChange, expected: Option<nat>)
    ensures var answer := UpdateLine(s, lineId, change, expected);
            && (answer == Err(NotFound) <==> lineId !in s.lines)
            && (answer.Err? ==> answer.error in {NotFound, Conflict})
            && (answer.Ok? <==>
                  && lineId in s.lines && UpToDate(s.lines[lineId].version, expected)
                  && (IsReserved(s, lineId) ==>
                        exists after :: TakesAll(s.lines[lineId].basis, change, after)
                                        && SamePlan(s.lines[lineId].basis, after)))
            && (answer.Ok? ==>
                  && LineMovesOn(s, answer.value, lineId)
                  && answer.value.lines[lineId].retired == s.lines[lineId].retired
                  && TakesAll(s.lines[lineId].basis, change, answer.value.lines[lineId].basis))
  {
    if lineId in s.lines {
      var before := s.lines[lineId].basis;
      MergedTakes(before, change);
      ChangesIff(before, Merged(before, change));
    }
    hide ChangesReserved, Merged, SamePlan, TakesAll;
  }

  /** A line is retired while nothing is reserved on it; a repeated retirement changes nothing. */
  lemma RetireLineAnswers(s: State, lineId: Id, expected: Option<nat>)
    ensures var answer := RetireLine(s, lineId, expected);
            && (answer == Err(NotFound) <==> lineId !in s.lines)
            && (answer.Err? ==> answer.error in {NotFound, Conflict})
            && (answer.Ok? <==>
                  lineId in s.lines && UpToDate(s.lines[lineId].version, expected) && !IsReserved(s, lineId))
            && (answer.Ok? && s.lines[lineId].retired ==> answer.value == s)
            && (answer.Ok? && !s.lines[lineId].retired ==>
                  && LineMovesOn(s, answer.value, lineId) && answer.value.lines[lineId].retired
                  && answer.value.lines[lineId].basis == s.lines[lineId].basis)
  {
  }

  lemma RestoreLineAnswers(s: State, lineId: Id, expected: Option<nat>)
    ensures var answer := RestoreLine(s, lineId, expected);
            && (answer == Err(NotFound) <==> lineId !in s.lines)
            && (answer.Err? ==> answer.error in {NotFound, Conflict})
            && (answer.Ok? <==> lineId in s.lines && UpToDate(s.lines[lineId].version, expected))
            && (answer.Ok? && !s.lines[lineId].retired ==> answer.value == s)
            && (answer.Ok? && s.lines[lineId].retired ==>
                  && LineMovesOn(s, answer.value, lineId) && !answer.value.lines[lineId].retired
                  && answer.value.lines[lineId].basis == s.lines[lineId].basis)
  {
  }

  // ---------- reservations ----------

  /** Stock of one item was taken or given back under its next version. */
  ghost predicate Shifts(s: State, t: State, itemId: Id, quantity: real) {
    && itemId in s.stock.items && t.stock.events == s.stock.events
    && OnlyAt(s.stock.items, t.stock.items, itemId)
    && var before, after := s.stock.items[itemId], t.stock.items[itemId];
       && after.available == before.available + quantity && after.version == before.version + 1
       && before == after.(available := before.available, version := before.version)
  }

  /** An accepted reservation is active, holds what was asked for, and comes last if its id is new. */
  lemma Reserves(s: State, revisionId: Id, input: ReservationInput)
    requires CreateReservation(s, revisionId, input).Ok?
    ensures var t := CreateReservation(s, revisionId, input).value;
            && t == s.(stock := t.stock, order := t.order, reservations := t.reservations)
            && Shifts(s, t, input.itemId, -input.quantity)
            && OnlyAt(s.reservations, t.reservations, input.id)
            && t.reservations[input.id] == Reservation(input.lineId, input.itemId, input.quantity, Active, 1)
            && t.order == s.order + (if input.id in s.reservations then [] else [input.id])
  {
    assert s.order + [] == s.order;
  }

  /** Only an active reservation can be released, and it ends as released; its item gets all of it back. */
  lemma ReleaseAnswers(s: State, id: Id, expected: Option<nat>)
    ensures var answer := ReleaseReservation(s, id, expected);
            && (answer == Err(NotFound) <==> id !in s.reservations)
            && (answer.Err? ==> answer.error in {NotFound, Conflict})
            && (answer.Ok? <==>
                  && id in s.reservations && UpToDate(s.reservations[id].version, expected)
                  && s.reservations[id].status == Active)
            && (answer.Ok? ==>
                  var r, t := s.reservations[id], answer.value;
                  && t == s.(stock := t.stock, reservations := t.reservations)
                  && OnlyAt(s.reservations, t.reservations, id)
                  && t.reservations[id] == r.(status := Released, version := r.version + 1)
                  && (if r.itemId in s.stock.items then Shifts(s, t, r.itemId, r.quantity) else t.stock == s.stock))
  {
  }

  /** The reservation is active and the project's own, on a consumed line, and this is what it holds. */
  predicate Usable(s: State, input: UsageInput) {
    && GraphAnswers.IsOpen(s, input.projectId) && input.reservationId.Some?
    && input.reservationId.value in s.reservations
    && var r := s.reservations[input.reservationId.value];
       && r.status == Active && r.itemId == input.itemId && r.quantity == input.quantity
       && r.lineId in s.lines && s.lines[r.lineId].basis.role == Consumed
       && s.lines[r.lineId].revisionId in s.revisions
       && s.revisions[s.lines[r.lineId].revisionId].projectId == input.projectId
  }

  /** Another item or quantity than reserved, or the project's own line though it is not consumed. */
  predicate WrongUse(s: State, r: Reservation, input: UsageInput) {
    || r.itemId != input.itemId || r.quantity != input.quantity
    || (r.lineId in s.lines && s.lines[r.lineId].basis.role != Consumed
        && s.lines[r.lineId].revisionId in s.revisions
        && s.revisions[s.lines[r.lineId].revisionId].projectId == input.projectId)
  }

  /** A usage consumes exactly what was reserved, in the item's unit, and the reservation ends as used. */
  lemma UsageAnswers(s: State, input: UsageInput)
    ensures var answer := RecordUsage(s, input);
            && (answer.Ok? <==>
                  && Usable(s, input) && InUse(s.stock, input.itemId)
                  && input.unit == s.stock.items[input.itemId].unit
                  && 0.0 < input.quantity && 0.0 <= s.stock.items[input.itemId].available)
            && (answer.Ok? ==>
                  var id, t := input.reservationId.value, answer.value;
                  var r, item := s.reservations[id], s.stock.items[input.itemId];
                  && t == s.(stock := t.stock, reservations := t.reservations)
                  && OnlyAt(s.reservations, t.reservations, id)
                  && t.reservations[id] == r.(status := Used, version := r.version + 1)
                  && OnlyAt(s.stock.items, t.stock.items, input.itemId)
                  && t.stock.items[input.itemId] ==
                     item.(quantity := item.quantity - r.quantity, version := item.version + 1)
                  && OnlyAt(s.stock.events, t.stock.events, input.itemId)
                  && EventsOf(t.stock, input.itemId) ==
                     EventsOf(s.stock, input.itemId) + [StockEvent(Consume, r.quantity, item.version + 1, None)])
  {
  }

  /** And why a usage is refused: each reason has its own error. */
  lemma UsageRefusals(s: State, input: UsageInput)
    ensures var answer := RecordUsage(s, input);
            && (!GraphAnswers.IsOpen(s, input.projectId) ==> answer == Err(Inactive(s, input.projectId).value))
            && (Usable(s, input) ==>
                  && (answer == Err(NotFound) <==> !InUse(s.stock, input.itemId))
                  && (answer == Err(Validation) <==>
                        InUse(s.stock, input.itemId)
                        && (input.unit != s.stock.items[input.itemId].unit || input.quantity <= 0.0)))
            && (GraphAnswers.IsOpen(s, input.projectId) ==>
                  var id := input.reservationId;
                  && (id == None ==> answer == Err(Validation))
                  && (id.Some? && id.value !in s.reservations ==> answer == Err(NotFound))
                  && (id.Some? && id.value in s.reservations && !Usable(s, input) ==>
                        var r := s.reservations[id.value];
                        answer == Err(if r.status == Active && WrongUse(s, r, input) then Validation else Conflict)))
            && (answer.Err? ==> answer.error in {NotFound, ProjectRemoved, Validation, Conflict})
  {
  }

  // ---------- why a reservation is refused ----------

  predicate OnLine(s: State, revisionId: Id, lineId: Id) {
    && revisionId in s.revisions && GraphAnswers.IsOpen(s, s.revisions[revisionId].projectId)
    && lineId in s.lines && s.lines[lineId].revisionId == revisionId
  }

  /** The item fits the line, and so does the quantity. */
  ghost predicate FitsLine(s: State, input: ReservationInput)
    requires input.lineId in s.lines && input.itemId in s.stock.items
  {
    var basis, item := s.lines[input.lineId].basis, s.stock.items[input.itemId];
    && Conversions.Suits(basis, input.itemId, item)
    && exists f :: Conversions.Covers(basis, input.itemId, item.unit, f)
                   && Conversions.WholeWhereConverted(basis, item.unit, input.quantity)
  }

  /** The reasons, apart from a conflict over stock or requirement: each with its own error. */
  lemma RefusalReasons(s: State, revisionId: Id, input: ReservationInput)
    ensures var answer := CreateReservation(s, revisionId, input);
            var onLine := OnLine(s, revisionId, input.lineId);
            var consumed := onLine && s.lines[input.lineId].basis.role == Consumed;
            var known := consumed && InUse(s.stock, input.itemId);
            var fits := known && FitsLine(s, input);
            var sound := fits && Confirmed(s.stock.items[input.itemId].evidence) && input.quantity > 0.0;
            && (answer == Err(NotFound) <==>
                  || revisionId !in s.revisions || s.revisions[revisionId].projectId !in s.projects
                  || (GraphAnswers.IsOpen(s, s.revisions[revisionId].projectId) && !onLine) || (consumed && !known))
            && (answer == Err(ProjectRemoved) <==>
                  && revisionId in s.revisions && s.revisions[revisionId].projectId in s.projects
                  && s.projects[s.revisions[revisionId].projectId].removed != None)
            && (answer == Err(Validation) <==>
                  || (onLine && !consumed) || (known && !fits)
                  || (fits && Confirmed(s.stock.items[input.itemId].evidence) && input.quantity <= 0.0))
            && (answer == Err(IntegrityError) <==>
                  sound && !Conversions.LineReads(s, input.lineId, s.lines[input.lineId].basis))
            && (answer.Err? ==> answer.error in {NotFound, ProjectRemoved, Validation, IntegrityError, Conflict})
  {
    if input.lineId in s.lines {
      var basis := s.lines[input.lineId].basis;
      Conversions.LineReadsIff(s, input.lineId, basis);
      if input.itemId in s.stock.items {
        var item := s.stock.items[input.itemId];
        Conversions.ReadableIff(basis, input.itemId, item.unit, input.quantity);
        Conversions.SuitsIff(basis, input.itemId, item);
      }
    }
    hide Coverage, CoverageReadable, Conversions.LineReads, Readable, Conversions.Covers,
         Conversions.WholeWhereConverted, Conversions.Suits, Approved, Room, PerUnit;
  }
}
