/** What `commitPreview` answers, as conditions on the plan and on the stock it was previewed against. */
module SetupAnswers {
  import opened Outcomes
  import opened LedgerModel
  import opened LedgerInvariant
  import opened SetupModel
  import opened PreflightExact
  import opened StockAnswers
  import opened MemorySetup

  /** What a preview would record of the item now. */
  predicate Shows(stock: Stock, b: Basis) {
    && InUse(stock, b.itemId)
    && var item := stock.items[b.itemId];
       b == Basis(b.itemId, item.version, item.quantity, item.available,
         if item.available <= item.quantity then item.quantity - item.available else 0.0, item.unit, item.evidence)
  }

  lemma BasisCurrentIff(stock: Stock, b: Basis)
    ensures BasisCurrent(stock, b) <==> Shows(stock, b)
  {
  }

  /** A confirmed printer in stock, counted by the piece, whose record needs no correction. */
  predicate IsPrinter(stock: Stock, catalog: Catalog, itemId: Id) {
    && InUse(stock, itemId)
    && var item := stock.items[itemId];
       && catalog.kind(itemId) == "printer" && !catalog.misfit(itemId)
       && item.unit == "each" && Confirmed(item.evidence) && item.quantity > 0.0 && item.available > 0.0
  }

  lemma PrinterAnswers(stock: Stock, catalog: Catalog, itemId: Id)
    ensures var answer := PrinterError(stock, catalog, itemId);
            && (answer == None <==> IsPrinter(stock, catalog, itemId) && catalog.profile(itemId) == None)
            && (!InUse(stock, itemId) ==> answer == Some(NotFound))
            && (InUse(stock, itemId) && !IsPrinter(stock, catalog, itemId) ==> answer == Some(Validation))
            && (IsPrinter(stock, catalog, itemId) ==> answer == catalog.profile(itemId))
  {
  }

  /** A printer is named for the printed route only, and is one. */
  predicate PrinterFits(stock: Stock, catalog: Catalog, draft: RevisionDraft) {
    draft.printer.Some? && draft.printer.value.Some? ==>
      && draft.route == Some(RoutePrinted)
      && IsPrinter(stock, catalog, draft.printer.value.value) && catalog.profile(draft.printer.value.value) == None
  }

  /**
   A preview without field errors commits if and only if its printer fits, every item it was based on is as it was, what
   it creates is new, and the build would go through: nothing else is asked.
   */
  lemma CommandAnswers(s: State, catalog: Catalog, preview: Preview)
    requires Inv(s) && IdsDistinct(preview.proposal)
    ensures var answer, p := CommitCommand(s, catalog, preview), preview.proposal;
            var fits := PrinterFits(s.stock, catalog, p.draft);
            var current := forall b :: b in preview.basis ==> Shows(s.stock, b);
            && (answer.Ok? <==>
                  preview.fieldErrors == 0 && fits && current
                  && AllNew(s, p) && WellStated(s, p) && Commit(s, p).Ok?)
            && (answer.Ok? ==> answer == Commit(s, p))
            && (preview.fieldErrors > 0 ==> answer == Err(Validation))
            && (preview.fieldErrors == 0 && fits && !current ==> answer == Err(Conflict))
            && (preview.fieldErrors == 0 && fits && current && !AllNew(s, p) ==> answer == Err(Conflict))
  {
    var p := preview.proposal;
    forall b ensures BasisCurrent(s.stock, b) <==> Shows(s.stock, b) {
      BasisCurrentIff(s.stock, b);
    }
    DraftAnswers(s.stock, catalog, p.draft);
    SetUpIff(s, p);
    NewIffNoClash(s, p);
    ClashIsConflict(s, p);
    hide Inv, AllNew, WellStated, Commit, SetUp, BasisCurrent, Shows, DraftError, PrinterFits, IdentityClash,
         IdsDistinct;
  }

  lemma ClashIsConflict(s: State, p: Proposal)
    ensures IdentityClash(s, p) ==> SetUp(s, p) == Err(Conflict)
  {
    hide IdentityClash, Commit;
  }

  lemma DraftAnswers(stock: Stock, catalog: Catalog, draft: RevisionDraft)
    ensures DraftError(stock, catalog, draft) == None <==> PrinterFits(stock, catalog, draft)
    ensures draft.printer.Some? && draft.printer.value.Some? && draft.route != Some(RoutePrinted) ==>
              DraftError(stock, catalog, draft) == Some(Validation)
  {
    if draft.printer.Some? && draft.printer.value.Some? {
      PrinterAnswers(stock, catalog, draft.printer.value.value);
    }
  }

  /** The kind of a preflight refusal: a plan that names no line or item, or an open specification, is not valid. */
  lemma RefusalKinds(s: State, p: Proposal, k: nat)
    requires k < |p.reservations| && PlanRefusal(s, p, k).Some?
    ensures var r := p.reservations[k];
            PlanRefusal(s, p, k) == Some(Validation) <==>
              || !InUse(s.stock, r.itemId)
              || (forall n :: 0 <= n < |p.lines| ==> p.lines[n].ref != r.lineRef)
              || (exists n :: Names(p, r.lineRef, n) && !p.lines[n].specified)
    ensures PlanRefusal(s, p, k) in {Some(Validation), Some(Conflict)}
  {
    var r := p.reservations[k];
    LastWins(p.lines, r.lineRef);
    if exists n :: 0 <= n < |p.lines| && p.lines[n].ref == r.lineRef {
      LastExists(p, r.lineRef, |p.lines|);
      var n :| Names(p, r.lineRef, n);
      NamedLine(p, r.lineRef, n);
      forall m | Names(p, r.lineRef, m) ensures LineByRef(p.lines, r.lineRef) == Some(p.lines[m]) {
        NamedLine(p, r.lineRef, m);
      }
    }
    hide LineByRef, Room, Approved, ConversionFactor, PlannedCoverage, PerUnit;
  }

  /** Where reservations pass one by one, only a shortage of stock refuses the plan. */
  lemma ShortageIsConflict(s: State, p: Proposal)
    requires !IdentityClash(s, p) && FirstRefusal(s, p, 0) == None
    ensures Preflight(s, p) in {None, Some(Conflict)}
  {
  }
}
