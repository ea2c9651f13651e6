/** What the calls on projects, revisions and bill-of-materials lines answer, and what they then do. */
module GraphAnswers {
  import opened Outcomes
  import opened Tables
  import opened LedgerModel
  import opened StockAnswers

  predicate IsOpen(s: State, projectId: Id) {
    projectId in s.projects && s.projects[projectId].removed == None && s.projects[projectId].status != Archived
  }

  /** What stands in the way of work on the project: it is unknown, removed or, at last, archived. */
  lemma InactiveAnswers(s: State, projectId: Id)
    ensures var answer := Inactive(s, projectId);
            && (answer == None <==> IsOpen(s, projectId))
            && (answer == Some(NotFound) <==> projectId !in s.projects)
            && (answer == Some(ProjectRemoved) <==> projectId in s.projects && s.projects[projectId].removed != None)
            && (answer.Some? ==> answer.value in {NotFound, ProjectRemoved, Conflict})
  {
  }

  // ---------- projects ----------

  lemma CreateProjectAnswers(s: State, projectId: Id, name: string, slug: string, status: Status)
    ensures var answer := CreateProject(s, projectId, name, slug, status);
            && (answer.Ok? <==> projectId !in s.projects)
            && (answer.Err? ==> answer == Err(Conflict))
            && (answer.Ok? ==>
                  && answer.value == s.(projects := answer.value.projects, slugs := answer.value.slugs)
                  && OnlyAt(s.projects, answer.value.projects, projectId)
                  && OnlyAt(s.slugs, answer.value.slugs, projectId)
                  && answer.value.projects[projectId] == Project(name, status, None, None, 1)
                  && answer.value.slugs[projectId] == slug)
  {
  }

  /** One project moved on by one version, and nothing else changed. */
  ghost predicate ProjectMovesOn(s: State, t: State, projectId: Id) {
    && t == s.(projects := t.projects) && projectId in s.projects && OnlyAt(s.projects, t.projects, projectId)
    && t.projects[projectId].version == s.projects[projectId].version + 1
    && t.projects[projectId].removed == s.projects[projectId].removed
    && t.projects[projectId].current == s.projects[projectId].current
  }

  /** An archived project comes back as an idea; one that is not archived is left alone. */
  lemma RestoreAnswers(s: State, projectId: Id, expected: Option<nat>)
    ensures var answer := RestoreProject(s, projectId, expected);
            && (answer == Err(NotFound) <==> projectId !in s.projects)
            && (answer.Err? ==> answer.error in {NotFound, Conflict, ProjectRemoved})
            && (projectId in s.projects ==>
                  var project := s.projects[projectId];
                  && (answer == Err(Conflict) <==> !UpToDate(project.version, expected))
                  && (answer.Ok? <==> UpToDate(project.version, expected) && project.removed == None)
                  && (answer.Ok? && project.status != Archived ==> answer.value == s)
                  && (answer.Ok? && project.status == Archived ==>
                        && ProjectMovesOn(s, answer.value, projectId)
                        && answer.value.projects[projectId].status == Idea
                        && answer.value.projects[projectId].name == project.name))
  {
  }

  /** A change to or from the archive is an archive or a restoration; any other takes what is given. */
  lemma UpdateProjectAnswers(
    s: State, projectId: Id, name: Option<string>, status: Option<Status>, expected: Option<nat>)
    ensures var answer := UpdateProject(s, projectId, name, status, expected);
            && (answer == Err(NotFound) <==> projectId !in s.projects)
            && (projectId in s.projects ==>
                  var project := s.projects[projectId];
                  var archives := status == Some(Archived);
                  var restores := status == Some(Idea) && project.status == Archived;
                  && (project.removed != None ==> answer == Err(ProjectRemoved))
                  && (project.removed == None && archives ==> answer == ArchiveProject(s, projectId, expected))
                  && (project.removed == None && restores ==> answer == RestoreProject(s, projectId, expected))
                  && (project.removed == None && !archives && !restores ==>
                        && (answer.Ok? <==> UpToDate(project.version, expected))
                        && (answer.Err? ==> answer == Err(Conflict))
                        && (answer.Ok? ==>
                              var after := answer.value.projects[projectId];
                              && ProjectMovesOn(s, answer.value, projectId)
                              && (name == Some(after.name) || (name == None && after.name == project.name))
                              && (status == Some(after.status) || (status == None && after.status == project.status)))))
  {
    ArchiveAnswers(s, projectId, expected);
    RestoreAnswers(s, projectId, expected);
    hide ArchiveProject, RestoreProject;
  }

  /** Whether an archive is accepted, and what becomes of the project; a repeated one changes nothing. */
  lemma ArchiveAnswers(s: State, projectId: Id, expected: Option<nat>)
    ensures var answer := ArchiveProject(s, projectId, expected);
            && (answer == Err(NotFound) <==> projectId !in s.projects)
            && (projectId in s.projects ==>
                  var project := s.projects[projectId];
                  && (answer == Err(Conflict) <==> !UpToDate(project.version, expected))
                  && (answer == Err(ProjectRemoved) <==> UpToDate(project.version, expected) && project.removed != None)
                  && (answer.Ok? && project.status == Archived ==> answer.value == s)
                  && (answer.Ok? && project.status != Archived ==>
                        && answer.value == s.(stock := answer.value.stock, order := answer.value.order,
                             reservations := answer.value.reservations, projects := answer.value.projects)
                        && OnlyAt(s.projects, answer.value.projects, projectId)
                        && answer.value.projects[projectId] ==
                           project.(status := Archived, version := project.version + 1)))
  {
    hide ActiveOf, AnyItemMissing;
    LoopFrame(s, ActiveOf(s, s.order, projectId));
  }

  /** The two loops write stock and reservations only. */
  lemma {:induction false} LoopFrame(s: State, ids: seq<Id>)
    ensures var t := ReleaseAll(s, ids);
            t == s.(stock := t.stock, order := t.order, reservations := t.reservations)
  {
    if ids != [] {
      LoopFrame(s, ids[..|ids| - 1]);
    }
  }

  /** A removal must name the project and its version; it is for good, and leaves the project's last status. */
  lemma RemoveAnswers(s: State, projectId: Id, expected: Option<nat>, confirmation: string)
    ensures var answer := RemoveProject(s, projectId, expected, confirmation);
            && (answer == Err(NotFound) <==> projectId !in s.projects)
            && (projectId in s.projects ==>
                  var project := s.projects[projectId];
                  && (project.removed != None ==> answer == Ok(s))
                  && (answer == Err(Conflict) <==>
                        project.removed == None
                        && (confirmation != project.name || !UpToDate(project.version, expected)))
                  && (answer.Ok? && project.removed == None ==>
                        && answer.value == s.(stock := answer.value.stock, order := answer.value.order,
                             reservations := answer.value.reservations, projects := answer.value.projects)
                        && OnlyAt(s.projects, answer.value.projects, projectId)
                        && var after := answer.value.projects[projectId];
                           && after.removed != None && after.removed.value.lastStatus == project.status
                           && project == after.(removed := None, version := project.version)
                           && after.version == project.version + 1))
  {
    hide ActiveOf, AnyItemMissing;
    LoopFrame(s, ActiveOf(s, s.order, projectId));
  }

  // ---------- revisions ----------

  /** What is left out is as in the revision before, and undecided in the first. */
  predicate TakesRoute(draft: RevisionDraft, before: Option<Revision>, route: Route) {
    || draft.route == Some(route)
    || (draft.route == None && before.Some? && route == before.value.route)
    || (draft.route == None && before == None && route == RouteUndecided)
  }

  /** A printer belongs to the printed route: named, or none by name, or taken over. */
  predicate TakesPrinter(draft: RevisionDraft, before: Option<Revision>, route: Route, printer: Option<Id>) {
    if route != RoutePrinted then printer == None
    else
      || draft.printer == Some(printer)
      || (draft.printer == None && before.Some? && printer == before.value.printer)
      || (draft.printer == None && before == None && printer == None)
  }

  predicate NamesPrinter(draft: RevisionDraft) {
    draft.printer.Some? && draft.printer.value != None
  }

  lemma DraftTaken(projectId: Id, draft: RevisionDraft, before: Option<Revision>)
    ensures var revision := Drafted(projectId, draft, before);
            && revision.projectId == projectId && revision.version == 1
            && revision.number == (if before.Some? then before.value.number + 1 else 1)
            && TakesRoute(draft, before, revision.route)
            && TakesPrinter(draft, before, revision.route, revision.printer)
            && (PrinterRefused(draft, before) <==> NamesPrinter(draft) && revision.route != RoutePrinted)
  {
  }

  /** A revision of an open project, under a new id; it becomes the current one. */
  lemma CreateRevisionAnswers(s: State, projectId: Id, revisionId: Id, draft: RevisionDraft)
    ensures var answer, before := CreateRevision(s, projectId, revisionId, draft), Latest(s.revisions, projectId);
            && (answer.Ok? <==> IsOpen(s, projectId) && revisionId !in s.revisions && !PrinterRefused(draft, before))
            && (IsOpen(s, projectId) ==>
                  && (answer == Err(Validation) <==> PrinterRefused(draft, before))
                  && (answer.Err? ==> answer.error in {Validation, Conflict}))
            && (!IsOpen(s, projectId) ==> answer == Err(Inactive(s, projectId).value))
            && (answer.Ok? ==>
                  && answer.value == s.(projects := answer.value.projects, revisions := answer.value.revisions)
                  && OnlyAt(s.projects, answer.value.projects, projectId)
                  && OnlyAt(s.revisions, answer.value.revisions, revisionId)
                  && answer.value.revisions[revisionId] == Drafted(projectId, draft, before)
                  && answer.value.projects[projectId] == s.projects[projectId].(current := Some(revisionId)))
  {
    hide Latest, Drafted, PrinterRefused;
  }

  lemma UpdateRevisionAnswers(s: State, revisionId: Id, draft: RevisionDraft, expected: Option<nat>)
    ensures var answer := UpdateRevision(s, revisionId, draft, expected);
            && (answer == Err(NotFound) <==>
                  revisionId !in s.revisions || s.revisions[revisionId].projectId !in s.projects)
            && (revisionId in s.revisions ==>
                  var before := s.revisions[revisionId];
                  var refused := NamesPrinter(draft)
                    && !TakesRoute(draft, Some(before), RoutePrinted);
                  && (answer.Ok? <==>
                        IsOpen(s, before.projectId) && UpToDate(before.version, expected) && !refused)
                  && (IsOpen(s, before.projectId) && answer.Err? ==>
                        answer.error == if UpToDate(before.version, expected) then Validation else Conflict)
                  && (answer.Ok? ==>
                        && answer.value == s.(revisions := answer.value.revisions)
                        && OnlyAt(s.revisions, answer.value.revisions, revisionId)
                        && var after := answer.value.revisions[revisionId];
                           && after.version == before.version + 1
                           && TakesRoute(draft, Some(before), after.route)
                           && TakesPrinter(draft, Some(before), after.route, after.printer)
                           && before == after.(route := before.route, printer := before.printer,
                             version := before.version)))
  {
  }

  /** A new project comes with its first revision, under a name that gives a new slug, or not at all. */
  lemma CreateBothAnswers(
    s: State, projectId: Id, name: string, slug: string, status: Status, revisionId: Id, draft: RevisionDraft)
    requires forall v :: v in s.revisions ==> s.revisions[v].projectId in s.projects
    ensures var answer := CreateProjectWithRevision(s, projectId, name, slug, status, revisionId, draft);
            var refused := NamesPrinter(draft) && draft.route != Some(RoutePrinted);
            && (answer == Err(Validation) <==> refused)
            && (answer.Err? ==> answer.error in {Validation, Conflict})
            && (answer.Ok? <==>
                  && !refused && projectId !in s.projects && revisionId !in s.revisions && status != Archived
                  && (forall p :: p in s.slugs ==> s.slugs[p] != slug))
            && (answer.Ok? ==>
                  && answer.value == s.(projects := answer.value.projects, slugs := answer.value.slugs,
                                        revisions := answer.value.revisions)
                  && OnlyAt(s.projects, answer.value.projects, projectId)
                  && answer.value.projects[projectId] == Project(name, status, None, Some(revisionId), 1)
                  && OnlyAt(s.slugs, answer.value.slugs, projectId) && answer.value.slugs[projectId] == slug
                  && OnlyAt(s.revisions, answer.value.revisions, revisionId)
                  && answer.value.revisions[revisionId].projectId == projectId
                  && answer.value.revisions[revisionId].number == 1)
  {
    DraftTaken(projectId, draft, None);
    hide Latest, CreateProject, CreateRevision, PrinterRefused, Drafted;
    CreateProjectAnswers(s, projectId, name, slug, status);
    if projectId !in s.projects {
      var created := CreateProject(s, projectId, name, slug, status).value;
      FirstRevision(s, created, projectId);
      CreateRevisionAnswers(created, projectId, revisionId, draft);
    }
  }

  lemma FirstRevision(s: State, created: State, projectId: Id)
    requires projectId !in s.projects && created.revisions == s.revisions
    requires forall v :: v in s.revisions ==> s.revisions[v].projectId in s.projects
    ensures Latest(created.revisions, projectId) == None
  {
  }

  lemma WorkItemAnswers(s: State, projectId: Id, workItemId: Id)
    ensures var answer := CreateWorkItem(s, projectId, workItemId);
            && (answer.Ok? <==> IsOpen(s, projectId))
            && (answer.Err? ==> Inactive(s, projectId) == Some(answer.error))
            && (answer.Ok? ==>
                  && answer.value == s.(workItems := answer.value.workItems)
                  && OnlyAt(s.workItems, answer.value.workItems, workItemId)
                  && answer.value.workItems[workItemId] == projectId)
  {
  }
}
