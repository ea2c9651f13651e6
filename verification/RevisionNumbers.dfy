/**
 Revisions of a project: which one is the latest, and what every run keeps. Numbers go 1, 2, 3, ... without a gap, the
 project's current revision is the latest, and only the printed route has a printer.
 */
module RevisionNumbers {
  import opened Outcomes
  import opened LedgerModel
  import opened LedgerInvariant
  import opened LedgerArchive
  import opened LedgerRuns
  import opened SetupModel

  /** No two revisions of a project have the same number. */
  ghost predicate NumbersDistinct(revisions: map<Id, Revision>) {
    forall v, w :: v in revisions && w in revisions && v != w && revisions[v].projectId == revisions[w].projectId ==>
      revisions[v].number != revisions[w].number
  }

  lemma LatestUnique(revisions: map<Id, Revision>, projectId: Id, latest: Option<Id>)
    requires NumbersDistinct(revisions)
    requires if latest.Some? then IsLatest(revisions, projectId, latest.value)
             else forall v :: v in revisions ==> revisions[v].projectId != projectId
    ensures Latest(revisions, projectId) == if latest.Some? then Some(revisions[latest.value]) else None
  {
    var before := Latest(revisions, projectId);
    if latest.Some? {
      var v :| IsLatest(revisions, projectId, v) && before == Some(revisions[v]);
      assert v == latest.value;
    }
  }

  lemma NumberIsNew(revisions: map<Id, Revision>, projectId: Id, revisionId: Id, draft: RevisionDraft)
    requires NumbersDistinct(revisions) && revisionId !in revisions
    ensures NumbersDistinct(revisions[revisionId := Drafted(projectId, draft, Latest(revisions, projectId))])
  {
    AllBehindLatest(revisions, projectId);
    hide Latest;
  }

  /** A project with a revision has a latest one. */
  lemma SomeLatest(revisions: map<Id, Revision>, projectId: Id, v: Id, keys: set<Id>)
    requires keys <= revisions.Keys && v in keys && revisions[v].projectId == projectId
    requires forall w :: w in revisions && w !in keys && revisions[w].projectId == projectId ==>
               revisions[w].number <= revisions[v].number
    ensures exists top :: IsLatest(revisions, projectId, top)
    decreases keys
  {
    if w :| w in keys && revisions[w].projectId == projectId && revisions[w].number > revisions[v].number {
      SomeLatest(revisions, projectId, w, keys - {v});
    } else {
      assert IsLatest(revisions, projectId, v);
    }
  }

  // ---------- what every run keeps ----------

  ghost predicate PrintersOk(revisions: map<Id, Revision>) {
    forall v :: v in revisions ==>
      1 <= revisions[v].number && (revisions[v].printer.Some? ==> revisions[v].route == RoutePrinted)
  }

  /** Every number but 1 follows another of the project. */
  ghost predicate NoGaps(revisions: map<Id, Revision>) {
    forall v :: v in revisions && revisions[v].number > 1 ==>
      exists w :: w in revisions && revisions[w].projectId == revisions[v].projectId
                  && revisions[w].number == revisions[v].number - 1
  }

  /** A project without a current revision has none, and any other's is its latest. */
  ghost predicate CurrentIsLatest(projects: map<Id, Project>, revisions: map<Id, Revision>) {
    forall p :: p in projects ==>
      match projects[p].current
      case None => forall v :: v in revisions ==> revisions[v].projectId != p
      case Some(v) => IsLatest(revisions, p, v)
  }

  ghost predicate Numbered(s: State) {
    && NumbersDistinct(s.revisions) && PrintersOk(s.revisions) && NoGaps(s.revisions)
    && CurrentIsLatest(s.projects, s.revisions)
  }

  lemma SeededNumbered(items: map<Id, Item>)
    ensures Numbered(Seeded(items))
  {
  }

  /** The predecessor that the service reads off the project is the one that the store finds. */
  lemma CurrentIsPredecessor(s: State, projectId: Id)
    requires Numbered(s) && projectId in s.projects
    ensures var current := s.projects[projectId].current;
            Latest(s.revisions, projectId) == if current.Some? then Some(s.revisions[current.value]) else None
  {
    LatestUnique(s.revisions, projectId, s.projects[projectId].current);
  }

  /** Numbers, routes and printers after a new revision. */
  lemma RevisionAdded(revisions: map<Id, Revision>, projectId: Id, revisionId: Id, draft: RevisionDraft)
    requires NumbersDistinct(revisions) && PrintersOk(revisions) && NoGaps(revisions) && revisionId !in revisions
    ensures var next := revisions[revisionId := Drafted(projectId, draft, Latest(revisions, projectId))];
            NumbersDistinct(next) && PrintersOk(next) && NoGaps(next) && IsLatest(next, projectId, revisionId)
  {
    NumberIsNew(revisions, projectId, revisionId, draft);
    AllBehindLatest(revisions, projectId);
    AddedGapless(revisions, projectId, revisionId, draft);
    hide Latest, NumbersDistinct, NoGaps;
  }

  lemma AllBehindLatest(revisions: map<Id, Revision>, projectId: Id)
    ensures var before := Latest(revisions, projectId);
            forall v :: v in revisions && revisions[v].projectId == projectId ==>
              before.Some? && revisions[v].number <= before.value.number
  {
    var before := Latest(revisions, projectId);
    forall v | v in revisions && revisions[v].projectId == projectId
      ensures before.Some? && revisions[v].number <= before.value.number
    {
      SomeLatest(revisions, projectId, v, revisions.Keys);
    }
  }

  lemma AddedGapless(revisions: map<Id, Revision>, projectId: Id, revisionId: Id, draft: RevisionDraft)
    requires NoGaps(revisions) && revisionId !in revisions
    ensures NoGaps(revisions[revisionId := Drafted(projectId, draft, Latest(revisions, projectId))])
  {
    var before := Latest(revisions, projectId);
    var next := revisions[revisionId := Drafted(projectId, draft, before)];
    forall v | v in next && next[v].number > 1
      ensures exists w :: w in next && next[w].projectId == next[v].projectId && next[w].number == next[v].number - 1
    {
      if v == revisionId {
        var w :| IsLatest(revisions, projectId, w) && before == Some(revisions[w]);
        assert w in next && next[w].number == next[v].number - 1;
      } else {
        var w :| w in revisions && revisions[w].projectId == revisions[v].projectId
                 && revisions[w].number == revisions[v].number - 1;
        assert w in next && next[w] == revisions[w];
      }
    }
  }

  /** Projects come and go from the open, but their revisions and current revisions stay. */
  ghost predicate SameCurrent(s: State, t: State) {
    && t.revisions == s.revisions
    && (forall p :: p in t.projects ==>
          if p in s.projects then t.projects[p].current == s.projects[p].current
          else t.projects[p].current == None && forall v :: v in s.revisions ==> s.revisions[v].projectId != p)
  }

  lemma SameNumbered(s: State, t: State)
    requires Numbered(s) && SameCurrent(s, t)
    ensures Numbered(t)
  {
  }

  lemma SameProjects(s: State, t: State)
    requires t.revisions == s.revisions && t.projects == s.projects
    ensures SameCurrent(s, t)
  {
  }

  lemma ElsewhereCurrent(s: State, step: Step)
    requires Perform(s, step).Ok?
    requires step.AddItem? || step.UndoAddItem? || step.Retire? || step.Describe? || step.CountStock?
          || step.WriteEvent?
          || step.PlaceReservation? || step.EndReservation? || step.UseReservation? || step.AddWorkItem?
    ensures SameCurrent(s, Apply(s, step))
  {
    hide SameCurrent, CreateItem, RollbackCreatedItem, RetireItem, UpdateItem, RecordCount, RecordStockEvent, Refusal;
    SameProjects(s, Apply(s, step));
  }

  lemma OnLinesCurrent(s: State, step: Step)
    requires Perform(s, step).Ok?
    requires step.AddLine? || step.ChangeLine? || step.CloseLine? || step.ReopenLine?
    ensures SameCurrent(s, Apply(s, step))
  {
    hide SameCurrent, HasActive, ChangesReserved;
    SameProjects(s, Apply(s, step));
  }

  lemma NewProjectCurrent(s: State, projectId: Id, name: string, slug: string, status: Status)
    requires GraphOk(s) && CreateProject(s, projectId, name, slug, status).Ok?
    ensures SameCurrent(s, CreateProject(s, projectId, name, slug, status).value)
  {
  }

  lemma RestoredCurrent(s: State, projectId: Id, expected: Option<nat>)
    requires RestoreProject(s, projectId, expected).Ok?
    ensures SameCurrent(s, RestoreProject(s, projectId, expected).value)
  {
  }

  lemma UpdatedCurrent(s: State, projectId: Id, name: Option<string>, status: Option<Status>, expected: Option<nat>)
    requires UpdateProject(s, projectId, name, status, expected).Ok? && status != Some(Archived)
    ensures SameCurrent(s, UpdateProject(s, projectId, name, status, expected).value)
  {
    if status == Some(Idea) && s.projects[projectId].status == Archived {
      RestoredCurrent(s, projectId, expected);
      hide RestoreProject, SameCurrent;
    }
  }

  lemma OnProjectsCurrent(s: State, step: Step)
    requires GraphOk(s) && Perform(s, step).Ok?
    requires step.AddProject? || step.RestoreIt? || (step.ChangeProject? && step.next != Some(Archived))
    ensures SameCurrent(s, Apply(s, step))
  {
    hide GraphOk, SameCurrent, CreateProject, RestoreProject, UpdateProject;
    if step.AddProject? {
      NewProjectCurrent(s, step.projectId, step.name, step.slug, step.status);
    } else if step.RestoreIt? {
      RestoredCurrent(s, step.projectId, step.expected);
    } else {
      UpdatedCurrent(s, step.projectId, step.rename, step.next, step.expected);
    }
  }

  lemma ArchiveCurrent(s: State, projectId: Id, expected: Option<nat>)
    requires ArchiveProject(s, projectId, expected).Ok?
    ensures SameCurrent(s, ArchiveProject(s, projectId, expected).value)
  {
    ReleaseAllWritesOnly(s, ActiveOf(s, s.order, projectId));
    hide ReleaseAll, ActiveOf, AnyItemMissing, ChangedWithin;
  }

  lemma RemovalCurrent(s: State, projectId: Id, expected: Option<nat>, confirmation: string)
    requires RemoveProject(s, projectId, expected, confirmation).Ok?
    ensures SameCurrent(s, RemoveProject(s, projectId, expected, confirmation).value)
  {
    ReleaseAllWritesOnly(s, ActiveOf(s, s.order, projectId));
    hide ReleaseAll, ActiveOf, AnyItemMissing, ChangedWithin;
  }

  lemma AddRevisionNumbered(s: State, projectId: Id, revisionId: Id, draft: RevisionDraft)
    requires Numbered(s) && CreateRevision(s, projectId, revisionId, draft).Ok?
    ensures Numbered(CreateRevision(s, projectId, revisionId, draft).value)
  {
    RevisionAdded(s.revisions, projectId, revisionId, draft);
    var t := CreateRevision(s, projectId, revisionId, draft).value;
    hide NumbersDistinct, PrintersOk, NoGaps, Latest;
    OthersLatest(s, t, projectId, revisionId);
  }

  lemma OthersLatest(s: State, t: State, projectId: Id, revisionId: Id)
    requires CurrentIsLatest(s.projects, s.revisions) && revisionId !in s.revisions && revisionId in t.revisions
    requires t.revisions == s.revisions[revisionId := t.revisions[revisionId]]
          && t.revisions[revisionId].projectId == projectId
    requires IsLatest(t.revisions, projectId, revisionId) && projectId in t.projects
    requires t.projects[projectId].current == Some(revisionId)
    requires forall p :: p in t.projects && p != projectId ==>
               p in s.projects && t.projects[p].current == s.projects[p].current
    ensures CurrentIsLatest(t.projects, t.revisions)
  {
  }

  lemma ChangeRevisionNumbered(s: State, revisionId: Id, draft: RevisionDraft, expected: Option<nat>)
    requires Numbered(s) && UpdateRevision(s, revisionId, draft, expected).Ok?
    ensures Numbered(UpdateRevision(s, revisionId, draft, expected).value)
  {
    ChangeShape(s, revisionId, draft, expected);
    var t := UpdateRevision(s, revisionId, draft, expected).value;
    hide UpdateRevision, NumbersDistinct, NoGaps, CurrentIsLatest;
    StaysDistinct(s.revisions, revisionId, t.revisions[revisionId]);
    StaysGapless(s.revisions, revisionId, t.revisions[revisionId]);
    StaysCurrent(s.projects, s.revisions, revisionId, t.revisions[revisionId]);
  }

  lemma ChangeShape(s: State, revisionId: Id, draft: RevisionDraft, expected: Option<nat>)
    requires UpdateRevision(s, revisionId, draft, expected).Ok?
    ensures var t := UpdateRevision(s, revisionId, draft, expected).value;
            && revisionId in s.revisions && revisionId in t.revisions && t.projects == s.projects
            && t.revisions == s.revisions[revisionId := t.revisions[revisionId]]
            && t.revisions[revisionId].projectId == s.revisions[revisionId].projectId
            && t.revisions[revisionId].number == s.revisions[revisionId].number
            && (t.revisions[revisionId].printer.Some? ==> t.revisions[revisionId].route == RoutePrinted)
  {
  }

  lemma StaysDistinct(revisions: map<Id, Revision>, revisionId: Id, after: Revision)
    requires revisionId in revisions && NumbersDistinct(revisions)
    requires after.projectId == revisions[revisionId].projectId && after.number == revisions[revisionId].number
    ensures NumbersDistinct(revisions[revisionId := after])
  {
  }

  lemma StaysGapless(revisions: map<Id, Revision>, revisionId: Id, after: Revision)
    requires revisionId in revisions && NoGaps(revisions)
    requires after.projectId == revisions[revisionId].projectId && after.number == revisions[revisionId].number
    ensures NoGaps(revisions[revisionId := after])
  {
    var next := revisions[revisionId := after];
    forall v | v in next && next[v].number > 1
      ensures exists w :: w in next && next[w].projectId == next[v].projectId && next[w].number == next[v].number - 1
    {
      var w :| w in revisions && revisions[w].projectId == revisions[v].projectId
               && revisions[w].number == revisions[v].number - 1;
      assert w in next && next[w].projectId == next[v].projectId && next[w].number == next[v].number - 1;
    }
  }

  lemma StaysCurrent(projects: map<Id, Project>, revisions: map<Id, Revision>, revisionId: Id, after: Revision)
    requires revisionId in revisions && CurrentIsLatest(projects, revisions)
    requires after.projectId == revisions[revisionId].projectId && after.number == revisions[revisionId].number
    ensures CurrentIsLatest(projects, revisions[revisionId := after])
  {
    var next := revisions[revisionId := after];
    forall p | p in projects && projects[p].current.Some? ensures IsLatest(next, p, projects[p].current.value) {
      assert IsLatest(revisions, p, projects[p].current.value);
    }
  }

  /** A project that does not exist has no revision, so its first one is number 1. */
  lemma FirstRevision(s: State, projectId: Id)
    requires GraphOk(s) && projectId !in s.projects
    ensures Latest(s.revisions, projectId) == None
  {
  }

  lemma SetupNumbered(s: State, p: Proposal)
    requires Inv(s) && Numbered(s) && IdsDistinct(p) && SetUp(s, p).Ok?
    ensures Numbered(SetUp(s, p).value)
  {
    var t := SetUp(s, p).value;
    SetupProof.CommitExact(s, p);
    SetupProof.PreflightClash(s, p);
    FreshIdentity(s, p);
    RevisionAdded(s.revisions, p.projectId, p.revisionId, p.draft);
    hide Inv, Preflight, Commit, IdsDistinct, SetupProof.StockPlaced, SetupProof.RowsPlaced, NumbersDistinct,
         PrintersOk, NoGaps, Latest, WithLines, WithWork;
    OthersLatest(s, t, p.projectId, p.revisionId);
  }

  lemma FreshIdentity(s: State, p: Proposal)
    requires !IdentityClash(s, p)
    ensures p.revisionId !in s.revisions && p.projectId !in s.projects
  {
  }

  lemma StepNumbered(s: State, step: Step)
    requires Inv(s) && Numbered(s) && Owed(s, step)
    ensures Numbered(Apply(s, step))
  {
    hide Inv, Numbered, SameCurrent, IdsDistinct, CreateRevision, UpdateRevision, ArchiveProject, RemoveProject, SetUp;
    if Perform(s, step).Ok? {
      var t := Apply(s, step);
      if step.AddRevision? {
        AddRevisionNumbered(s, step.projectId, step.revisionId, step.draft);
      } else if step.ChangeRevision? {
        ChangeRevisionNumbered(s, step.revisionId, step.draft, step.expected);
      } else if step.CommitSetup? {
        SetupNumbered(s, step.proposal);
      } else {
        StepCurrent(s, step);
        SameNumbered(s, t);
      }
    }
  }

  lemma StepCurrent(s: State, step: Step)
    requires Inv(s) && Perform(s, step).Ok? && !step.AddRevision? && !step.ChangeRevision? && !step.CommitSetup?
    ensures SameCurrent(s, Apply(s, step))
  {
    assert GraphOk(s);
    hide Inv, GraphOk, SameCurrent, Perform, Apply;
    if step.RemoveIt? {
      RemovalCurrent(s, step.projectId, step.expected, step.confirmation);
    } else if step.ArchiveIt? || (step.ChangeProject? && step.next == Some(Archived)) {
      ArchiveCurrent(s, step.projectId, step.expected);
    } else if step.AddLine? || step.ChangeLine? || step.CloseLine? || step.ReopenLine? {
      OnLinesCurrent(s, step);
    } else if step.AddProject? || step.RestoreIt? || step.ChangeProject? {
      OnProjectsCurrent(s, step);
    } else {
      ElsewhereCurrent(s, step);
    }
  }

  /** In every reachable state revisions are numbered without repetition or gap, and current ones are the latest. */
  lemma {:induction false} RunNumbered(s: State, steps: seq<Step>)
    requires Inv(s) && Numbered(s) && OwedThroughout(s, steps)
    ensures Numbered(Run(s, steps))
  {
    hide Inv, Numbered, Apply;
    if steps != [] {
      var rest := steps[..|steps| - 1];
      assert forall n :: 0 <= n <= |rest| ==> rest[..n] == steps[..n];
      RunNumbered(s, rest);
      RunKeeps(s, rest);
      StepNumbered(Run(s, rest), steps[|steps| - 1]);
    }
  }

  /** So a project whose current revision has number n has revisions 1 to n, once each, and no others. */
  lemma NumbersAreInitial(s: State, projectId: Id, n: nat)
    requires Numbered(s) && projectId in s.projects && s.projects[projectId].current.Some?
    requires var current := s.revisions[s.projects[projectId].current.value]; 1 <= n <= current.number
    ensures exists v :: v in s.revisions && s.revisions[v].projectId == projectId && s.revisions[v].number == n
    ensures forall v :: v in s.revisions && s.revisions[v].projectId == projectId ==>
              1 <= s.revisions[v].number <= s.revisions[s.projects[projectId].current.value].number
    decreases s.revisions[s.projects[projectId].current.value].number - n
  {
    var v := s.projects[projectId].current.value;
    assert IsLatest(s.revisions, projectId, v);
    if n < s.revisions[v].number {
      NumbersAreInitial(s, projectId, n + 1);
      var w :| w in s.revisions && s.revisions[w].projectId == projectId && s.revisions[w].number == n + 1;
      var u :| u in s.revisions && s.revisions[u].projectId == projectId
      && s.revisions[u].number == s.revisions[w].number - 1;
    }
  }
}
