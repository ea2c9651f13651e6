/**
 What the service does when a mutation fails after its operation: the unit of work puts the registered stores back, and
 then the operation's own compensation replays its receipt, which no snapshot covers.
 */
module Compensations {
  import opened Outcomes
  import opened LedgerModel
  import opened MemoryStore
  import Late = LedgerRollbacks

  /** An archive whose audit fails leaves the ledger as it was, and no receipt behind. */
  method ArchiveThenFailedAudit(projects: MemoryProjects, projectId: Id, expected: Option<nat>)
    returns (failure: Option<Error>)
    requires projects.Valid()
    modifies projects, projects.inventory
    ensures projects.Valid() && projects.Contents() == old(projects.Contents())
    ensures failure.None? ==> projectId !in projects.archiveReceipts
  {
    hide Archives.RollbackArchive, Archives.ReceiptsAfter;
    var snapshot := projects.SnapshotState();
    projects.ValidIsTableOk();
    failure := projects.ArchiveProject(projectId, expected);
    if failure.None? {
      Late.RestoredThenRolledBack(snapshot, old(projects.archiveReceipts), projectId, expected);
      projects.RestoreState(snapshot);
      projects.RollbackProjectArchive(projectId);
    }
  }

  /**
   A removal whose audit fails leaves the ledger as it was, and no receipt behind, unless the project had been removed
   already and its receipt was never closed. The service asks about the first and sees to the second.
   */
  method RemovalThenFailedAudit(projects: MemoryProjects, projectId: Id, expected: Option<nat>, confirmation: string)
    returns (failure: Option<Error>)
    requires projects.Valid()
    modifies projects, projects.inventory
    ensures projects.Valid()
    ensures var open := projectId in old(projects.projects) && old(projects.projects)[projectId].removed.Some?
                        && projectId in old(projects.removalReceipts);
            projects.Contents() ==
            if failure.None? && open
            then Archives.RollbackRemoval(old(projects.Contents()), old(projects.removalReceipts)[projectId])
            else old(projects.Contents())
    ensures failure.None? ==> projectId !in projects.removalReceipts
  {
    var snapshot := projects.SnapshotState();
    projects.ValidIsTableOk();
    failure := projects.RemoveProject(projectId, expected, confirmation);
    if failure.None? {
      projects.RestoreState(snapshot);
      projects.RollbackProjectRemoval(projectId);
    }
  }
}
