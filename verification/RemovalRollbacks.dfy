/**
 Rollbacks of a removal that come late. The receipt holds whole maps, so whatever happened to them since is undone; the
 revisions and lines stay as they are now, and what comes back has to fit them.
 */
module RemovalRollbacks {
  import opened Outcomes
  import opened LedgerModel
  import opened LedgerInvariant
  import opened LedgerArchive
  import opened LedgerRuns
  import opened LedgerStays

  /** The receipt that a removal took in `s`, put back in `t`. */
  function Undone(s: State, t: State): State {
    RollbackRemoval(t, RemovalReceiptOf(s))
  }

  /** Straight after the unit of work put the stores back, the rollback changes nothing. */
  lemma RestoredThenUndone(s: State)
    ensures Undone(s, s) == s
  {
  }

  /** The lines of the receipt's reservations are still there, those of active ones under their projects. */
  ghost predicate LinesStay(s: State, t: State) {
    forall id :: id in s.reservations ==>
      && s.reservations[id].lineId in t.lines
      && (s.reservations[id].status == Active ==>
            && var l := s.reservations[id].lineId;
               && l in s.lines && s.lines[l].revisionId in s.revisions && t.lines[l].revisionId in t.revisions
               && t.revisions[t.lines[l].revisionId].projectId == s.revisions[s.lines[l].revisionId].projectId)
  }

  /** Every revision names a project that comes back. */
  ghost predicate RevisionsKnown(s: State, t: State) {
    forall v :: v in t.revisions ==> t.revisions[v].projectId in s.projects
  }

  /** With this basis the line can hold every active reservation it had. */
  ghost predicate StillTakes(s: State, l: Id, basis: Requirement) {
    && basis.role == Consumed && Coverage(s, l, basis) < CoverageLimit(basis)
    && (forall id :: id in s.reservations && s.reservations[id].status == Active && s.reservations[id].lineId == l ==>
          var r := s.reservations[id];
          && Approved(basis, r.itemId) && r.itemId in s.stock.items
          && Readable(basis, r.itemId, s.stock.items[r.itemId].unit, r.quantity))
  }

  /** Every line that comes back into use can hold what it held. */
  ghost predicate LinesTake(s: State, t: State) {
    forall l :: l in t.lines && HasActive(s, l) ==> StillTakes(s, l, t.lines[l].basis)
  }

  lemma ReservationsUndoneIff(s: State, t: State)
    requires Inv(s) && GraphOk(t) && LinesStay(s, t) && RevisionsKnown(s, t)
    ensures Inv(Undone(s, t)) ==> LinesTake(s, t)
    ensures LinesTake(s, t) ==> GraphOk(Undone(s, t)) && ReservationsOk(Undone(s, t))
  {
    var u := Undone(s, t);
    assert GraphOk(u);
    hide BooksOk;
    if Inv(u) {
      forall l | l in t.lines && HasActive(s, l) ensures StillTakes(s, l, t.lines[l].basis) {
        LineTakes(s, t, l);
      }
    }
    if LinesTake(s, t) {
      forall id | id in s.reservations && s.reservations[id].status == Active ensures ActiveOk(u, s.reservations[id]) {
        assert ActiveOk(s, s.reservations[id]) && HasActive(s, s.reservations[id].lineId);
      }
    }
  }

  lemma LineTakes(s: State, t: State, l: Id)
    requires Inv(s) && Inv(Undone(s, t)) && l in t.lines && HasActive(s, l)
    ensures StillTakes(s, l, t.lines[l].basis)
  {
    var u := Undone(s, t);
    assert Coverage(u, l, t.lines[l].basis) == Coverage(s, l, t.lines[l].basis);
    hide BooksOk, CoverageLimit, Coverage;
    forall id | id in s.reservations && s.reservations[id].status == Active && s.reservations[id].lineId == l
      ensures ActiveOk(u, s.reservations[id])
    {
      assert id in u.reservations;
    }
  }

  lemma CoverageUndone(s: State, t: State)
    requires Inv(s) && LinesTake(s, t)
    ensures CoverageOk(Undone(s, t))
  {
    var u := Undone(s, t);
    forall l | l in t.lines ensures Coverage(u, l, t.lines[l].basis) < CoverageLimit(t.lines[l].basis) {
      var basis := t.lines[l].basis;
      assert Coverage(u, l, basis) == Coverage(s, l, basis);
      if !HasActive(s, l) {
        NothingCovered(s, l, basis);
      }
    }
  }

  /**
   Put back in any state whose revisions and lines hang together and that still has the lines of the receipt, a
   receipt of a sound ledger leaves a sound one if and only if every revision names a project that comes back and every
   line that comes back into use can hold what it held. Manual allocations are in either case those of the receipt.
   */
  lemma UndoneSoundIff(s: State, t: State)
    requires Inv(s) && GraphOk(t) && LinesStay(s, t)
    ensures Inv(Undone(s, t)) <==> RevisionsKnown(s, t) && LinesTake(s, t)
    ensures forall i :: Manual(Undone(s, t), i) == Manual(s, i)
  {
    var u := Undone(s, t);
    assert GraphOk(u) ==> RevisionsKnown(s, t);
    if RevisionsKnown(s, t) {
      ReservationsUndoneIff(s, t);
      if LinesTake(s, t) {
        CoverageUndone(s, t);
        BooksUndone(s, t);
      }
    }
    forall i ensures Manual(u, i) == Manual(s, i) {
      assert Reserved(u, i) == Reserved(s, i);
    }
    hide ReservationsOk, BooksOk, CoverageOk, Manual, LinesTake;
  }

  lemma BooksUndone(s: State, t: State)
    requires Inv(s)
    ensures TableOk(Undone(s, t)) && BooksOk(Undone(s, t))
  {
    forall i | i in s.stock.items ensures Reserved(Undone(s, t), i) == Reserved(s, i) {
    }
  }

  lemma RunKeepsLines(s: State, steps: seq<Step>)
    requires Inv(s) && OwedThroughout(s, steps)
    ensures GraphOk(Run(s, steps)) && LinesStay(s, Run(s, steps))
  {
    RunKeeps(s, steps);
    RunStays(s, steps);
    hide Run, OwedThroughout, BooksOk, CoverageOk;
    forall id | id in s.reservations && s.reservations[id].status == Active
      ensures s.reservations[id].lineId in s.lines
    {
      assert ActiveOk(s, s.reservations[id]);
    }
  }

  /**
   However late the rollback of a removal comes, after the removal itself or after the unit of work put the stores back,
   and whatever other operations ran: the ledger is sound afterwards exactly on this condition.
   */
  lemma LateRemovalRollbackIff(s: State, steps: seq<Step>)
    requires Inv(s) && OwedThroughout(s, steps)
    ensures var t := Run(s, steps);
            Inv(Undone(s, t)) <==> RevisionsKnown(s, t) && LinesTake(s, t)
    ensures forall i :: Manual(Undone(s, Run(s, steps)), i) == Manual(s, i)
  {
    hide Inv, GraphOk, Run, OwedThroughout, LinesStay, RevisionsKnown, LinesTake, Manual, Undone;
    RunKeepsLines(s, steps);
    UndoneSoundIff(s, Run(s, steps));
  }

  /**
   So it is sound if since then no revision went to a new project, and no line with an active reservation at that time
   changed its basis or went away.
   */
  lemma LateRemovalRollbackKeeps(s: State, t: State)
    requires Inv(s) && GraphOk(t)
    requires forall v :: v in t.revisions ==> t.revisions[v].projectId in s.projects
    requires forall id :: id in s.reservations ==>
               var l := s.reservations[id].lineId;
               && l in t.lines
               && (s.reservations[id].status == Active ==>
                     && t.lines[l].basis == s.lines[l].basis
                     && t.revisions[t.lines[l].revisionId].projectId == s.revisions[s.lines[l].revisionId].projectId)
    requires forall l :: l in t.lines && HasActive(s, l) ==> l in s.lines && t.lines[l].basis == s.lines[l].basis
    ensures Inv(Undone(s, t)) && forall i :: Manual(Undone(s, t), i) == Manual(s, i)
  {
    hide BooksOk, Coverage, CoverageLimit, Manual;
    forall l | l in t.lines && HasActive(s, l) ensures StillTakes(s, l, t.lines[l].basis) {
      TookBefore(s, l);
    }
    UndoneSoundIff(s, t);
  }

  lemma TookBefore(s: State, l: Id)
    requires Inv(s) && HasActive(s, l) && l in s.lines
    ensures StillTakes(s, l, s.lines[l].basis)
  {
    hide BooksOk, Coverage, CoverageLimit;
    forall id | id in s.reservations && s.reservations[id].status == Active && s.reservations[id].lineId == l
      ensures ActiveOk(s, s.reservations[id])
    {
    }
  }

  /** A workspace with one project. */
  function OneProject(project: Project): State {
    State(Stock(map[], map[]), map["q" := project], map["q" := "q"], map[], map[], [], map[], map[])
  }

  /** A second project, with its first revision, in a workspace. */
  function SecondProject(s: State): State {
    s.(projects := s.projects["p" := Project("P", Idea, None, Some("v"), 1)], slugs := s.slugs["p" := "p"],
       revisions := s.revisions["v" := Revision("p", 1, RouteUndecided, None, 1)])
  }

  lemma NothingReservedSound(s: State)
    requires s.stock.items == map[] && s.order == [] && s.reservations == map[] && s.lines == map[] && GraphOk(s)
    ensures Inv(s)
  {
  }

  lemma SecondCreated(first: Project)
    ensures CreateProjectWithRevision(OneProject(first), "p", "P", "p", Idea, "v", RevisionDraft(None, None)) ==
            Ok(SecondProject(OneProject(first)))
  {
    var s := OneProject(first);
    var entered := SecondProject(s).projects["p"].(current := None);
    assert s.projects["p" := entered]["p" := entered.(current := Some("v"))] == SecondProject(s).projects;
    assert Latest(s.revisions, "p") == None;
  }

  /** A project created between a removal and its rollback is lost, while its revision stays behind. */
  lemma LateRemovalRollbackLosesProject()
    ensures var s := OneProject(Project("Q", Idea, None, None, 1));
            var removed := RemoveProject(s, "q", None, "Q");
            && Inv(s) && removed.Ok? && Inv(removed.value)
            && var created := CreateProjectWithRevision(removed.value, "p", "P", "p", Idea, "v",
              RevisionDraft(None, None));
               && created.Ok? && Inv(created.value)
               && var u := Undone(s, created.value);
                  "v" in u.revisions && u.revisions["v"].projectId !in u.projects && !Inv(u)
  {
    var s := OneProject(Project("Q", Idea, None, None, 1));
    var gone := Project("Q", Idea, Some(Tombstone(Idea, [])), None, 2);
    var removed := OneProject(gone);
    assert ActiveOf(s, [], "q") == [] && ReleaseAll(s, []) == s && s.projects["q" := gone] == removed.projects;
    assert RemoveProject(s, "q", None, "Q") == Ok(removed);
    NothingReservedSound(s);
    NothingReservedSound(removed);
    hide Inv, RemoveProject, CreateProjectWithRevision;
    SecondCreated(gone);
    NothingReservedSound(SecondProject(removed));
    if Inv(Undone(s, SecondProject(removed))) {
      RevisionKnown(Undone(s, SecondProject(removed)), "v");
    }
  }

  lemma RevisionKnown(s: State, v: Id)
    requires Inv(s) && v in s.revisions
    ensures s.revisions[v].projectId in s.projects
  {
  }
}
