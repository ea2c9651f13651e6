# Verification of the BenchLedger stores

A Dafny model of the state machines behind BenchLedger's in-memory runtime and its MCP paging, with proofs of the
properties that span their operations. `dafny verify dfyconfig.toml` checks everything.

## What is modelled

| files | part of the system |
|---|---|
| `LedgerModel`, `LedgerInvariant`, `LedgerOperations`, `LedgerArchive`, `LedgerRuns`, `LedgerHistory`, `LedgerStays`, `RevisionNumbers`, `LedgerWitnesses`, `Tables`, `Outcomes` | the stock and reservation ledger as values: every operation, the invariant it keeps, whole runs, the event log, revision numbers |
| `StockAnswers`, `GraphAnswers`, `ReservationAnswers`, `Conversions`, `Closings` | when each ledger call is accepted, with which error if not, and what it leaves: units and conversions, the events and ended reservations of an archive or removal |
| `LedgerRollbacks`, `RemovalRollbacks`, `Compensations` | what a failed mutation does with the receipts of an archive or removal, and rollbacks that come late |
| `MemoryStore` | `MemoryInventory` and `MemoryProjects` as classes over their maps, each method proved against the value functions |
| `SetupModel`, `SetupProof`, `PreflightExact`, `SetupAnswers`, `SetupLogs`, `MemorySetup` | project setup: preflight, commit, what one says about the other in both directions, the logged allocations, and undoing everything on failure |
| `FilteredSource`, `FilteredRows`, `FilteredChecks`, `FilteredTrace`, `FilteredAnswers`, `FilteredPagination`, `StoreBackedSource` | re-paging a filtered view over opaque cursors: which rows it gives, in which order, and which pages and cursors it accepts |
| `InventorySummary`, `SummaryBuckets`, `LedgerView` | the inventory summary, what its numbers mean, and how it sees the ledger |
| `WorkPrograms`, `UnitOfWork`, `SerialUnitOfWork`, `SerialReading`, `Submissions`, `Orphans` | the transaction boundary: programs over named stores, tasks on the promise chain with its async-local marker, and the calls that clients submitted |
| `TransferModel`, `TransferHistory`, `ArtifactTransfer` | one-shot transfer capabilities, and each token as a machine of its own |
| `UploadModel`, `UploadHistory`, `ArtifactUploads` | resumable uploads and artifact reads, whole uploads and their rollback |
| `CategoryForest`, `CategoryAnswers`, `CategoryListing`, `CategoryCursor`, `InventoryCategories`, `Texts` | the category tree and what its calls answer, its keyset pages and its cursor text |
| `MakerWorkflows`, `WorkflowHistory` | versioned workflow records, and the store read off its saves |

Where the source updates fields in place there is a class whose methods are proved equal to functions on values; the
properties are lemmas about those functions and about runs of them. What those functions are is fixed a second time and
without them: by the history of the calls (`TokensAreIndependent`, `StoreIsHistory`, `WholeUpload`), by positions in the
data (`FilterSelects`, `ArchiveLogs`, `CommitLogs`, `RunTracks`), by an equivalence with another operation
(`SetUpIff`, `CreateThenRollback`, `FinalizeThenRollback`, `ReleasedClaimsAgain`), or by the exact condition under which a
call is accepted and the exact change it makes (the modules named `...Answers`).

## The ledger invariant

`LedgerInvariant.Inv` says, for every state: an item has 0 <= available <= quantity; the gap between the two covers
the sum of the item's active reservations; what is left of the gap is the item's *manual allocation*; unconfirmed items
have nothing available; active reservations point at live, confirmed items, at consumed lines that approve them, and at
open projects; the coverage of a line stays below its requirement plus one package. What callers owe the store because
the store does not check it is `LedgerRuns.Owed`: non-negative creation quantities, new ids for reservations and lines,
distinct ids within one setup proposal, and hand-written releases within `HandReleaseSafe`. The guard that forbids
changing a reserved line's basis is modelled from `packages/api-contract/src/bom-edit.ts`, so that part is proved and not
assumed. A seeded store satisfies the invariant (`SeededSound`).

## The transaction boundary

A run is any interleaving of arriving clients and of tasks that go on. A task is a client outside any scope, a job on the
chain or a nested call, and each is a program of writes, checks that may throw, and calls that are awaited, awaited and
caught, or left alone. A call reads the marker of the task that makes it: with the marker it starts at once as a task of
that scope; without, it becomes a job that waits for the job at the tail. Exclusion, order and progress
(`OneAtATime`, `FirstInFirstOut`, `ScopesNeverWait`, `SomethingGoesOn`, `EverythingSettles`) hold of all programs.
What the chain gives the *stores* needs more: that no nested call outlives its parent, for which awaiting them is enough
(`AwaitedSettleFirst`), and that clients write to the stores themselves only while no operation is started (`Apart`). Then
each operation has the stores to itself (`JobsFollowEachOther`), and the chain gives the serial reading of operations
and client writes (`RunsSerially`, `SettlesSerially`, and, where clients only submit, `JobsInOrder`, over the calls that
they submitted). Whatever the interleaving, the operations are those calls in the order they were made (`RunTracks`).

The clients that do write themselves are the service's compensations: after an operation has failed and the
participants are restored, it rolls back an archive, a removal, a setup or an artifact outside the unit of work. Such a
write is safe between operations, and `OutsideWriteIsLost` shows that beside one it is not. For the memory stores, the
compensation is the first reaction to the failed operation, before the next one starts (and then it is apart,
`SettledLeavesNone`), so the state it meets is the restored one; on that state the receipts of archive and removal
change nothing (`RestoredThenRolledBack`, `ArchiveThenFailedAudit`, `RemovalThenFailedAudit`). Nothing in the port's
contract demands that order, which is why the rollbacks are also characterised for every later state.

## Properties the code does not have, and when it does

- A hand-written `release` event can free stock that reservations rely on. `HandReleaseKeepsIff` gives the exact
  condition, `HandReleaseFreesReserved` an input.
- `createReservation` accepts the id of an existing reservation. `ReserveConservesIff`: stock is conserved if and only
  if the overwritten reservation is not active; `ReusedIdLosesStock` is an input.
- A setup preflight that passes does not make the commit succeed. `CommitSucceedsIff` gives the five missing questions.
  Three of them are asked elsewhere first: the commit checks the printer before its preflight, the proposal schema refuses
  quantities that are not positive, and a preview turns a reservation on a line that is not consumed into a field error.
  The other two remain: a name whose slug is taken
  (`TakenNameFailsCommit`) and a project that starts archived (`ArchivedStartFailsCommit`). The other way round there is
  no such gap: besides new ids, stated units and open specifications, preflight refuses only what the commit would
  (`SetUpIff`).
- `validateFilteredSourcePage` (line 946) compares one page's length with the total of the whole list
  (`StorePageValidIff`). Requests over a memory store's list reach an end if and only if one source page holds all of it
  (`StoreReadsToEndIff`); over a longer one every answer promises more (`LongListNeverEnds`), and as there are no more
  answers than fit into the matches, the requests come to an error (`LongListFails`). `TwoItemsNeverEnd` is such a list.
- The summary's buckets are said to sum to the total. They do for everything that the two stores list
  (`ListedBucketsSum`, `LedgerBucketsSum`); `BucketsSumIff` and `CountedTwiceIff` give the exact condition, and
  `SchemaAdmitsOverlap` shows that the item schema alone does not ensure it.
- A failed nested call that its caller catches keeps its writes (`CaughtKeepsWrites`), and stores that registered no
  rollback, such as artifacts, categories and catalog, keep what a failed operation wrote (`FailedIsIdentityIff`, for
  whole runs `FailedJobLeaves`; `FailureKeepsCategory` is such an operation).
- A nested call that nobody awaits can outlive its parent and run beside the next operation, whose rollback then takes
  the nested call's writes to registered stores away, whatever the call is (`AnyOrphanIsLost`).
- A rollback of an archive that comes late can leave more reserved than is set aside (`LateRollbackOverbooks`), and one
  of a removal takes away projects created since (`LateRemovalRollbackLosesProject`). `LateArchiveRollbackIff` and
  `LateRemovalRollbackIff` give the exact conditions, over any run.
- A look-up of a claimed capability after its expiry deletes it under its holder, whose commit is then refused:
  `ClaimSurvivesIff` and `CommitAfterClaimIff`, with the run `LateLookLosesClaim`.

## Model

| member | source | states |
|---|---|---|
| `LedgerRuns.RunKeeps` | apps/server/src/memory-store.ts:221-1071 | Over any run of the store's operations in which callers keep to what the store does not check, every state satisfies the ledger invariant, and the part of each item's gap that active reservations do not explain is exactly what creation and hand-written events put there |
| `LedgerRuns.StepKeeps` | apps/server/src/memory-store.ts:221-1071 | Each of the 22 kinds of operation keeps the invariant and moves an item's manual allocation by its hand-made share only |
| `LedgerRuns.GapExplained` | apps/server/src/memory-store.ts:983-1023 | In every reachable state a confirmed item has 0 <= available <= quantity and quantity - available = manual allocation + its active reservations; an unconfirmed item has nothing available and nothing reserved |
| `LedgerRuns.CoverageBounded` | apps/server/src/memory-store.ts:999-1011 | In every reachable state the coverage of a line stays below the requirement plus the largest conversion factor on the line |
| `LedgerRuns.NothingDangles` | apps/server/src/memory-store.ts:720-729 | In every reachable state an active reservation points at an unretired, confirmed item and a consumed line that approves it, and no archived or removed project owns one |
| `LedgerRuns.SeededSound` | apps/server/src/memory-store.ts:1559-1562 | A store seeded with sound items and nothing else is sound, so the statements about runs hold from there; what the seed holds back counts as manual |
| `RevisionNumbers.RunNumbered` | apps/server/src/memory-store.ts:869-897 | In every reachable state the revisions of a project are numbered without repetition or gap, its current revision is the one with the highest number, and only the printed route has a printer |
| `RevisionNumbers.NumbersAreInitial` | apps/server/src/memory-store.ts:884 | A project whose current revision has number n has revisions 1 to n and no others |
| `RevisionNumbers.CurrentIsPredecessor` | packages/application/src/service.ts:1894-1900 | The predecessor that the service reads off the project is the one that the store finds by number |
| `RevisionNumbers.SeededNumbered` | apps/server/src/memory-store.ts:1559-1562 | A store seeded without projects starts that way |
| `LedgerRuns.LineWritten` | apps/server/src/memory-store.ts:955-971 | Writing a line keeps the invariant if its planning basis is unchanged or nothing is reserved on it |
| `LedgerRuns.ReservedBasisFixed` | packages/api-contract/src/bom-edit.ts:10-17 | The one change the guard lets through on a reserved line, settling an undecided role, cannot occur there: the basis stays what it was |
| `LedgerOperations.CreateItemKeeps` | apps/server/src/memory-store.ts:270-304 | A new item keeps the invariant, and starts with the stock it was created without as its manual allocation |
| `LedgerOperations.RecordCountKeeps` | apps/server/src/memory-store.ts:402-456 | A count, first or repeated, moves on-hand and available stock together and opens no gap |
| `LedgerOperations.StockEventKeeps` | apps/server/src/memory-store.ts:458-493 | A hand-written event keeps the invariant and changes the manual allocation by exactly what it allocates or releases |
| `LedgerOperations.HandReleaseKeepsIff` | apps/server/src/memory-store.ts:474-475 | A hand-written release keeps the invariant if and only if it returns no more than was set aside by hand, or nothing is reserved; nothing in the code asks this |
| `LedgerOperations.RetireItemKeeps` | apps/server/src/memory-store.ts:315-324 | Retirement keeps the invariant: it is refused while anything is held, so no active reservation loses its item |
| `LedgerOperations.ReserveKeeps` | apps/server/src/memory-store.ts:983-1017 | A reservation under a new id keeps the invariant, coverage bound included, and moves nothing into or out of manual allocation |
| `LedgerOperations.ReserveConservesIff` | apps/server/src/memory-store.ts:1013-1014 | A reservation conserves stock if and only if its id does not overwrite an active reservation; the id is never checked |
| `LedgerOperations.OvershootBelowOneUnit` | apps/server/src/memory-store.ts:1009-1011 | Rounding up lets coverage pass the requirement by less than one unit of the reserved item |
| `LedgerOperations.ReserveCoverageOk` | apps/server/src/memory-store.ts:998-1011 | Mixed converted and unconverted reservations keep the coverage bound of every line |
| `LedgerOperations.ReleaseKeeps` | apps/server/src/memory-store.ts:1018-1023 | A release keeps the invariant and leaves the manual allocation of every item as it was |
| `LedgerOperations.UsageKeeps` | apps/server/src/memory-store.ts:1037-1061 | Usage keeps the invariant and leaves the manual allocation of every item as it was |
| `LedgerOperations.UsageTakesReservedStock` | apps/server/src/memory-store.ts:1037-1061 | Usage takes the reserved quantity off what is on hand, leaves what is available as it was, and appends one consumption event |
| `LedgerOperations.UsageSucceeds` | apps/server/src/memory-store.ts:1037-1061 | Under the invariant, using an active reservation in full and in the item's unit is never refused |
| `LedgerOperations.ReleaseLoggedIsRelease` | apps/server/src/memory-store.ts:741-752 | One turn of the archive loop is a plain release plus its event: the clamp is never active |
| `StockAnswers.CreateAnswers` | apps/server/src/memory-store.ts:270-304 | Only the id must be new; confirmed stock is logged as counted and, where less is offered than is there, as partly set aside |
| `StockAnswers.CreateThenRollback` | apps/server/src/memory-store.ts:270-313 | Taking a just created item back leaves the stock exactly as it was |
| `StockAnswers.RollbackAnswers` | apps/server/src/memory-store.ts:306-313 | A creation can be taken back while nothing happened to the item, and only while |
| `StockAnswers.RetireAnswers` | apps/server/src/memory-store.ts:315-324 | When an item can be retired, with which error if not, and that nothing but its mark and version changes |
| `StockAnswers.RetiredWhenFree` | apps/server/src/memory-store.ts:315-324 | In a sound ledger an item can be retired if and only if none of it is reserved or set aside by hand |
| `StockAnswers.DescribeAnswers` | apps/server/src/memory-store.ts:326-343 | A description needs a live item and its version, and moves facts and version only |
| `StockAnswers.CountAnswers` | apps/server/src/memory-store.ts:402-456 | A count is accepted down to what is set aside, which stays set aside; commissioning is for items never confirmed, in their own unit |
| `StockAnswers.EventAnswers` | apps/server/src/memory-store.ts:458-493 | For each kind of event: when it is accepted, by how much it moves what is on hand and what is available, and the one entry it logs |
| `StockAnswers.CountEventIsCount` | apps/server/src/memory-store.ts:458-463 | A count event in the item's unit is an ordinary count |
| `ReservationAnswers.Reserves` | apps/server/src/memory-store.ts:1013-1016 | An accepted reservation is active with what was asked for, comes last if its id is new, and takes its quantity off what is available |
| `ReservationAnswers.RefusalReasons` | apps/server/src/memory-store.ts:984-1008 | Each reason to refuse a reservation, apart from the conflicts over stock and requirement, has its own error |
| `ReservationAnswers.ReleaseAnswers` | apps/server/src/memory-store.ts:1018-1023 | Only an active reservation can be released; it ends as released and its item gets all of it back |
| `ReservationAnswers.UsageAnswers` | apps/server/src/memory-store.ts:1037-1061 | A usage is accepted for an active reservation of the project, in full and in the item's unit; the reservation ends as used and the item loses exactly that stock |
| `ReservationAnswers.UsageRefusals` | apps/server/src/memory-store.ts:1037-1052 | Each reason to refuse a usage has its own error |
| `ReservationAnswers.CreateLineAnswers` | apps/server/src/memory-store.ts:934-954 | A line can be written on a revision of an open project only |
| `ReservationAnswers.UpdateLineAnswers` | apps/server/src/memory-store.ts:955-971 | A line takes any change that names its version, unless it is reserved and the change touches what the reservation was planned on; what is not given stays |
| `ReservationAnswers.ChangesIff` | packages/api-contract/src/bom-edit.ts:10-17 | A change is safe on a reserved line if and only if nothing differs but an undecided role that settles as consumed |
| `ReservationAnswers.RetireLineAnswers` | apps/server/src/memory-store.ts:972-977 | A line is retired while nothing is reserved on it, once |
| `ReservationAnswers.RestoreLineAnswers` | apps/server/src/memory-store.ts:978-982 | A retired line comes back with its basis, once |
| `Conversions.ConversionIs` | apps/server/src/memory-store.ts:175-187 | If an alternative of the item converts between exactly these two units and all that do agree on f, one inventory unit covers f; with equal units it covers 1; converted quantities must be whole |
| `Conversions.NoConversion` | apps/server/src/memory-store.ts:175-187 | With no such alternative, or with two factors, no quantity can be read |
| `Conversions.RoomIsLeast` | apps/server/src/memory-store.ts:1009-1011 | The largest quantity a requirement lets through is the least whole number of units that covers what is left of it |
| `Conversions.CoverageIsTotal` | apps/server/src/memory-store.ts:999-1008 | The coverage of a line is the total of its active reservations, each times what one unit of its item covers |
| `Conversions.ReservedIff` | apps/server/src/memory-store.ts:983-1017 | A reservation is accepted if and only if its line and item allow it, what is reserved on the line can be read, and the quantity is at most every whole number of units that covers what the line still needs |
| `Conversions.ReservedCovers` | apps/server/src/memory-store.ts:983-1017 | An accepted reservation covers f more of its line for each unit, and changes no other line |
| `LedgerInvariant.Settle` | apps/server/src/memory-store.ts:1018-1061 | Ending an active reservation, by release or use, keeps the invariant and moves nothing into or out of manual allocation |
| `LedgerInvariant.HeldWithinGap` | apps/server/src/memory-store.ts:745 | An active reservation never exceeds the gap of its item, so giving it back in full stays within what is on hand |
| `LedgerArchive.ReleaseAllKeeps` | apps/server/src/memory-store.ts:741-752 | The release loop, touching one item many times, keeps the invariant, ends exactly the given reservations and conserves both sums of every item |
| `LedgerArchive.ReleaseOrderIrrelevant` | apps/server/src/memory-store.ts:741-752 | Releasing the same reservations in any two orders gives the same items and the same reservations |
| `LedgerArchive.ArchiveIsIteratedRelease` | apps/server/src/memory-store.ts:711-767 | Archiving an open project gives the items and reservations that releasing its active reservations one by one gives, in any order, and the preflight for missing items never fails |
| `LedgerArchive.ArchiveKeeps` | apps/server/src/memory-store.ts:711-767 | Archiving keeps the invariant and every manual allocation |
| `LedgerArchive.RemoveKeeps` | apps/server/src/memory-store.ts:794-847 | Removal keeps the invariant and every manual allocation |
| `LedgerArchive.TombstoneExact` | apps/server/src/memory-store.ts:817-842 | The tombstone lists, once each, exactly the reservations that the removal turned from active to released |
| `Closings.ArchiveLogs` | apps/server/src/memory-store.ts:741-752 | Archiving appends to each item's log exactly one release for each of the project's active reservations on it, in insertion order, with the reservation's quantity and id as they stood before and consecutive item versions |
| `Closings.RemovalLogs` | apps/server/src/memory-store.ts:824-835 | So does removal |
| `Closings.ArchiveEnds` | apps/server/src/memory-store.ts:741-757 | Archiving ends exactly the project's active reservations, as released under their next version, and each item gets back the total of its own |
| `Closings.RemovalEnds` | apps/server/src/memory-store.ts:824-842 | So does removal |
| `GraphAnswers.InactiveAnswers` | apps/server/src/memory-store.ts:1062-1067 | What stands in the way of work on a project: it is unknown, removed or archived |
| `GraphAnswers.CreateProjectAnswers` | apps/server/src/memory-store.ts:653-661 | A project under a new id starts with what is given, and its slug is kept |
| `GraphAnswers.ArchiveAnswers` | apps/server/src/memory-store.ts:711-767 | When an archive is refused and with which error; a repeated one changes nothing, and any other archives the project under its next version |
| `GraphAnswers.RestoreAnswers` | apps/server/src/memory-store.ts:768-776 | An archived project comes back as an idea; one that is not archived is left alone |
| `GraphAnswers.UpdateProjectAnswers` | apps/server/src/memory-store.ts:703-710 | A change to or from the archive is an archive or a restoration; any other takes what is given under the next version |
| `GraphAnswers.RemoveAnswers` | apps/server/src/memory-store.ts:794-847 | A removal must name the project and its version, keeps the status it had, and once done changes nothing when repeated |
| `GraphAnswers.DraftTaken` | apps/server/src/memory-store.ts:871-884 | What a new revision leaves out is as in the one before; the printed route alone has a printer, and none may be named for another |
| `GraphAnswers.CreateRevisionAnswers` | apps/server/src/memory-store.ts:869-897 | A revision of an open project, under a new id, that becomes the current one |
| `GraphAnswers.UpdateRevisionAnswers` | apps/server/src/memory-store.ts:898-918 | A revision changes under its next version where its project is open and its version current |
| `GraphAnswers.CreateBothAnswers` | apps/server/src/memory-store.ts:667-702 | A project comes with its first revision, under a name that gives a new slug, or not at all |
| `GraphAnswers.WorkItemAnswers` | apps/server/src/memory-store.ts:862-866 | A work item needs an open project, and is kept under it |
| `LedgerArchive.ArchiveThenRollback` | apps/server/src/memory-store.ts:711-789 | Rollback straight after a successful archive restores the state exactly, from any state; after a no-op it changes nothing even if an older receipt existed |
| `LedgerHistory.EndedForGood` | apps/server/src/memory-store.ts:1018-1061 | Over any run a reservation that was released or used never changes again: its stock is given back or used up at most once |
| `LedgerHistory.StepContinues` | apps/server/src/memory-store.ts:983-1061 | One step only ever ends active reservations or adds new ones |
| `LedgerHistory.LogReplays` | apps/server/src/memory-store.ts:290-493 | In every reachable state an item's quantity is its opening quantity replayed through its events, and event versions never decrease nor pass the item's version |
| `LedgerHistory.SeededLogged` | apps/server/src/memory-store.ts:1559-1562 | A seeded store starts with a replayable log |
| `LedgerHistory.LogStep` | apps/server/src/memory-store.ts:458-493 | One operation keeps the log replayable, with nothing owed by callers |
| `LedgerHistory.LogUsage` | apps/server/src/memory-store.ts:1037-1061 | The log sees only the consumption of a usage, although the stock is first given back |
| `LedgerHistory.LogReleaseAll` | apps/server/src/memory-store.ts:746-751 | The release events of the archive loop leave the replayed quantity alone and carry rising versions |
| `LedgerRollbacks.RestoredThenRolledBack` | packages/application/src/service.ts:3067-3070 | What a failed mutation does to its archive: the unit of work puts the stores back, and the receipt, put back on top of them, changes nothing, whatever the state was |
| `LedgerRollbacks.BackSoundIff` | apps/server/src/memory-store.ts:777-789 | Put back in any sound state that still reaches its lines and items, the receipt of an archive leaves a sound ledger if and only if what comes back fits the lines as they are now, and per item and line the other active reservations and those put back fit the saved gap and the coverage limit |
| `LedgerRollbacks.LateArchiveRollbackIff` | apps/server/src/memory-store.ts:777-789 | The same over runs: however late the rollback comes, after the archive or after the stores were put back, and whatever other operations ran in between |
| `LedgerRollbacks.LateArchiveRollbackKeeps` | apps/server/src/memory-store.ts:777-789 | In particular it is sound, and leaves every manual allocation as it was, if the project is still archived and what the receipt covers is as the archive left it |
| `RemovalRollbacks.LateRemovalRollbackIff` | apps/server/src/memory-store.ts:848-857 | However late the rollback of a removal comes, and whatever other operations ran in between: the ledger is sound afterwards if and only if every revision names a project that comes back and every line that comes back into use can hold what it held |
| `RemovalRollbacks.UndoneSoundIff` | apps/server/src/memory-store.ts:848-857 | The same for any state that still has the lines of the receipt; the manual allocations are in either case those of before the removal |
| `RemovalRollbacks.LateRemovalRollbackKeeps` | apps/server/src/memory-store.ts:848-857 | In particular it is sound if no revision went to a new project and no line in use at the removal changed |
| `RemovalRollbacks.LateRemovalRollbackLosesProject` | apps/server/src/memory-store.ts:848-857 | A project created between a removal and its rollback is lost while its revision stays behind, and the ledger is no longer sound |
| `Compensations.ArchiveThenFailedAudit` | packages/application/src/service.ts:1830-1849 | An archive whose audit fails: stores put back, receipt put back, and the ledger is as it was, with no receipt left |
| `Compensations.RemovalThenFailedAudit` | packages/application/src/service.ts:1780-1808 | A removal whose audit fails leaves the ledger as it was, unless the project had been removed before and its receipt never closed |
| `LedgerWitnesses.HandReleaseFreesReserved` | apps/server/src/memory-store.ts:474-475 | In a workshop with four of ten washers reserved, a hand-written release of four is accepted, makes all ten available and breaks the invariant |
| `LedgerWitnesses.ReusedIdLosesStock` | apps/server/src/memory-store.ts:1013-1014 | There, reserving four more under the id in use is accepted and leaves four washers that belong to nobody |
| `LedgerWitnesses.TakenNameFailsCommit` | apps/server/src/memory-store.ts:1149-1217 | There, a plan whose name gives a slug in use passes the preflight and its commit fails; under a new name it succeeds |
| `LedgerWitnesses.ArchivedStartFailsCommit` | apps/server/src/memory-store.ts:1149-1217 | There, a plan for a project that starts archived passes the preflight and its commit fails |
| `LedgerWitnesses.LateRollbackOverbooks` | apps/server/src/memory-store.ts:777-789 | There, an archive that failed is rolled back after four more washers were reserved: eight are then reserved and four set aside |
| `LedgerWitnesses.TwoBoxesAreTheLimit` | apps/server/src/memory-store.ts:1009-1011 | A line that needs 150 each of an item in boxes of one hundred: two boxes can be reserved, three cannot, and one and a half cannot be read |
| `LedgerWitnesses.PlanReservesAllItNeeds` | apps/server/src/memory-store.ts:1174-1175 | In the workshop, a plan that needs four of the six washers left can reserve all four, and not five |
| `MemoryStore.MemoryInventory.CreateItem` | apps/server/src/memory-store.ts:270-304 | Leaves exactly the specified stock, with the opening events, or the conflict and no change |
| `MemoryStore.MemoryInventory.RollbackCreatedItem` | apps/server/src/memory-store.ts:306-313 | Takes back an untouched item with its events; a changed item is an integrity error and stays |
| `MemoryStore.MemoryInventory.RetireItem` | apps/server/src/memory-store.ts:315-324 | Specified stock, or the specified refusal and no change |
| `MemoryStore.MemoryInventory.UpdateItem` | apps/server/src/memory-store.ts:326-343 | Moves only descriptive facts and the version, or refuses without a change |
| `MemoryStore.MemoryInventory.RecordCount` | apps/server/src/memory-store.ts:402-456 | The count keeps the held quantity and appends its event, or refuses in the source's order without a change |
| `MemoryStore.MemoryInventory.RecordStockEvent` | apps/server/src/memory-store.ts:458-493 | Every kind of event does what the specification says, or refuses without a change |
| `MemoryStore.MemoryProjects.CheckProjectActive` | apps/server/src/memory-store.ts:1062-1067 | Which error an unknown, removed or archived project gives |
| `MemoryStore.MemoryProjects.ReservedCoverage` | apps/server/src/memory-store.ts:999-1008 | The reduction over active reservations computes the coverage sum, or the integrity error exactly when one of them cannot be read |
| `MemoryStore.MemoryProjects.RefusalOf` | apps/server/src/memory-store.ts:984-1012 | All checks of a reservation, in order, report exactly the specified refusal |
| `MemoryStore.MemoryProjects.CreateReservation` | apps/server/src/memory-store.ts:983-1017 | Adds the reservation and takes its quantity from the item, or refuses without a change |
| `MemoryStore.MemoryProjects.ReleaseReservation` | apps/server/src/memory-store.ts:1018-1023 | Gives the quantity back and ends the reservation, or refuses without a change |
| `MemoryStore.MemoryProjects.RecordUsage` | apps/server/src/memory-store.ts:1037-1061 | Ends the reservation and consumes its stock, or refuses without a change, although the stock is touched twice |
| `MemoryStore.MemoryProjects.ActiveReservations` | apps/server/src/memory-store.ts:720-722 | The active reservations on the project's lines, in insertion order |
| `MemoryStore.MemoryProjects.ArchiveProject` | apps/server/src/memory-store.ts:711-767 | Reaches the specified state and keeps the specified receipt; a no-op drops the receipt |
| `MemoryStore.MemoryProjects.RollbackProjectArchive` | apps/server/src/memory-store.ts:777-789 | Puts back every entry of the receipt, reservations that have left the map included, and forgets it |
| `MemoryStore.MemoryProjects.RemoveProject` | apps/server/src/memory-store.ts:794-847 | Reaches the specified state and keeps a receipt of the four maps, or restores them |
| `MemoryStore.MemoryProjects.ReleaseOrRestore` | apps/server/src/memory-store.ts:816-847 | The loop of the removal: a missing item in the middle puts everything back as it was |
| `MemoryStore.MemoryProjects.RollbackProjectRemoval` | apps/server/src/memory-store.ts:848-857 | Restores the four saved maps whatever happened since |
| `MemoryStore.MemoryProjects.RestoreProject` | apps/server/src/memory-store.ts:768-776 | Reopens an archived project as an idea and forgets its archive receipt |
| `MemoryStore.MemoryProjects.UpdateProject` | apps/server/src/memory-store.ts:703-710 | Hands the two archive transitions to their methods and otherwise writes what is given of name and status |
| `MemoryStore.MemoryProjects.CreateProjectWithInitialRevision` | apps/server/src/memory-store.ts:667-702 | Project and first revision together, or neither: refused where a printer is named without the printed route, where an id is in use, and where the slug is not unique among all projects ever created |
| `MemoryStore.MemoryProjects.CreateProjectRevision` | apps/server/src/memory-store.ts:869-897 | Adds the next revision to an open project and makes it current, with route and printer taken over where left out, or refuses in the source's order without a change |
| `MemoryStore.MemoryProjects.PredecessorOf` | apps/server/src/memory-store.ts:871-872 | The search finds the project's revision with the highest number |
| `MemoryStore.MemoryProjects.UpdateProjectRevision` | apps/server/src/memory-store.ts:898-918 | Rewrites route and printer of a revision, or refuses in the source's order without a change |
| `MemoryStore.MemoryProjects.CreateBomLine` | apps/server/src/memory-store.ts:934-954 | Adds or overwrites a line of an open project's revision |
| `MemoryStore.MemoryProjects.UpdateBomLine` | apps/server/src/memory-store.ts:955-971 | A partial update rewrites a line unless it changes the basis under an active reservation |
| `MemoryStore.MemoryProjects.RetireBomLine` | apps/server/src/memory-store.ts:972-977 | Retires a line without active reservations, once |
| `MemoryStore.MemoryProjects.RestoreBomLine` | apps/server/src/memory-store.ts:978-982 | Brings a retired line back, once |
| `MemoryStore.MemoryProjects.RestoreState` | apps/server/src/memory-store.ts:629-638 | Every map is what the snapshot held |
| `SetupProof.CommitSucceedsIff` | apps/server/src/memory-store.ts:1149-1217 | When the preflight passes, the commit succeeds if and only if the project name is new, the project does not start archived, no printer is named without the printed route, every planned quantity is positive and every planned line is consumed |
| `SetupProof.CommitExact` | apps/server/src/memory-store.ts:1184-1215 | A successful commit adds exactly the proposed project, work items, lines and reservations, and lowers each item's availability by exactly what was planned on it |
| `SetupProof.PlacedAll` | apps/server/src/memory-store.ts:1200-1211 | After k turns of the commit loop the state is exactly the first k planned reservations placed, and each of them was accepted |
| `SetupProof.PlanAccepted` | apps/server/src/memory-store.ts:1159-1182 | What the two preflight loops established on the old state still lets the next planned reservation through in the moved state |
| `PreflightExact.SetUpIff` | apps/server/src/memory-store.ts:1149-1217 | Preflight and commit go through if and only if everything the plan creates is new, its stated units are the items' own, its reserved lines have no open specification decision, and the build would go through without any preflight |
| `PreflightExact.PreflightIff` | apps/server/src/memory-store.ts:1149-1182 | So for a plan that setup could build at all, the preflight refuses exactly what the build would refuse, besides these three questions |
| `PreflightExact.LastWins` | apps/server/src/memory-store.ts:1158 | Of planned lines with the same reference the last one counts |
| `SetupLogs.CommitLogs` | apps/server/src/memory-store.ts:1200-1211 | A commit appends to each item's log exactly one allocation for each planned reservation on it, in the plan's order, with its quantity and id and consecutive item versions |
| `SetupAnswers.CommandAnswers` | apps/server/src/memory-store.ts:1131-1217 | A preview without field errors commits if and only if its printer fits, every item it was based on is as it was, what it creates is new, and the build would go through |
| `SetupAnswers.BasisCurrentIff` | apps/server/src/memory-store.ts:1139-1144 | An item is as it was previewed if and only if a preview would record the same of it now |
| `SetupAnswers.PrinterAnswers` | packages/application/src/service.ts:960-972 | What counts as an owned printer |
| `SetupAnswers.RefusalKinds` | apps/server/src/memory-store.ts:1159-1178 | A plan that names no line or item, or has an open specification, is not valid; anything else is a conflict |
| `SetupModel.GraphBuiltIff` | apps/server/src/memory-store.ts:1187-1198 | After the preflight, the graph is built exactly when its name is new, the project starts open, and a printer is named for the printed route only |
| `SetupModel.LinesExact` | apps/server/src/memory-store.ts:1195-1198 | The lines afterwards are the proposed ones under their ids and every old one, unchanged |
| `MemorySetup.MemoryProjectSetup.CheckPlan` | apps/server/src/memory-store.ts:1159-1178 | The first preflight loop with its running sums accepts exactly the plans whose every reservation fits its line |
| `MemorySetup.MemoryProjectSetup.CheckTotals` | apps/server/src/memory-store.ts:1179-1182 | The second loop accepts exactly the plans whose total per item is available |
| `MemorySetup.MemoryProjectSetup.Build` | apps/server/src/memory-store.ts:1186-1211 | The build reaches the committed ledger or fails as specified, possibly part way |
| `MemorySetup.MemoryProjectSetup.CommitPreview` | apps/server/src/memory-store.ts:1121-1219 | Field errors, the printer of the first revision, stale items, the preflight and the build, in this order: any refusal or failure leaves ledger, previews, audit and idempotency as before and no receipt; a success reaches the specified ledger, marks the preview and keeps the receipt |
| `MemorySetup.MemoryProjectSetup.RollbackLastCommit` | apps/server/src/memory-store.ts:1221-1224 | Restores everything the last successful commit found, whatever was audited or remembered since |
| `MemorySetup.CommitThenFailedAudit` | apps/server/src/memory-store.ts:1121-1224 | A mutation around a commit that fails after it leaves everything as before |
| `FilteredPagination.ReadAll` | apps/mcp/src/application-backend.ts:806-886 | Following every continuation from the start over a well-formed source ends, with every page but the last full; item by item the answers are the projections of the matching rows, each row once, none left out, by rising page and row |
| `FilteredPagination.FilteredPage` | apps/mcp/src/application-backend.ts:806-886 | One request, over any source: it is answered if and only if some reading of at most 1000 valid pages, without a repeated cursor or id, justifies an answer, and then with that answer; otherwise it fails with a backend error, or with an invalid argument exactly when the limit or the cursor is invalid |
| `FilteredAnswers.WellFormedAnswers` | apps/mcp/src/application-backend.ts:806-886 | Over a well-formed source every cursor that points somewhere gets an answer: the next `limit` of what is left to read, and a cursor that points at the remainder; decimal cursors drop that many matches across page boundaries |
| `FilteredAnswers.WellFormedReadsToEnd` | apps/mcp/src/application-backend.ts:806-886 | From any cursor of a well-formed source the requests reach an end and give exactly what was left to read |
| `FilteredTrace.AnswerUnique` | apps/mcp/src/application-backend.ts:806-886 | Any source, well-formed or not, and a cursor have at most one justified answer: items, order and continuation |
| `FilteredTrace.ReadingsAgree` | apps/mcp/src/application-backend.ts:820-838 | Two readings from the same cursor agree as far as the shorter one goes |
| `FilteredPagination.NoteIds` | apps/mcp/src/application-backend.ts:830-838 | The duplicate check passes exactly when no id of the page was seen before or repeats |
| `FilteredAnswers.PointsUnique` | apps/mcp/src/application-backend.ts:892-927 | A cursor leaves exactly one thing to read |
| `FilteredAnswers.CompactIsOpaque` | apps/mcp/src/application-backend.ts:971-975 | On a one-page source the compact decimal cursor leaves the same to read as the opaque one |
| `FilteredAnswers.ContinuesInside` | apps/mcp/src/application-backend.ts:863-870 | The cursor emitted in the middle of a page points at the rest of the page |
| `FilteredTrace.Fills` | apps/mcp/src/application-backend.ts:855-861 | Taking from a page extends the answer to the matches read so far, after the skipped ones and cut at the limit |
| `FilteredRows.FilterSelects` | apps/mcp/src/application-backend.ts:840 | What a page keeps: rows at strictly rising places, all of them matching, and every matching one |
| `FilteredRows.FromSelects` | apps/mcp/src/application-backend.ts:840 | The filtered view of a source is its matching rows, all of them, by rising page and row |
| `FilteredChecks.CursorAnswers` | apps/mcp/src/application-backend.ts:892-927 | Which cursors a client may bring: none, a safe decimal offset, or a first-version record of a usable source cursor and a place up to two hundred |
| `FilteredChecks.ContinuationComesBack` | apps/mcp/src/application-backend.ts:959-975 | A continuation is refused only where its record is too long, and comes back as the place it was made for |
| `FilteredChecks.PageAnswers` | apps/mcp/src/application-backend.ts:933-952 | Which source pages are accepted, as one condition on length, limit, cursor and total |
| `FilteredChecks.FreshIdsIff` | apps/mcp/src/application-backend.ts:830-838 | A page may carry no id seen before and none twice |
| `StoreBackedSource.StorePageCuts` | apps/server/src/memory-store.ts:65-71 | A page of a memory store is the next items of the list, up to the limit, with a cursor where items are left and the length of the whole list |
| `StoreBackedSource.StorePageValidIff` | apps/mcp/src/application-backend.ts:933-952 | A page of a memory store's list passes validation if and only if it is the first or not the last: line 946 compares one page with the total of the whole list |
| `StoreBackedSource.StoreReadsToEndIff` | apps/mcp/src/application-backend.ts:946 | Requests for the filtered view of a memory store's list reach an end if and only if one source page holds all of the list, and then they give its filtered view |
| `StoreBackedSource.LongListNeverEnds` | apps/mcp/src/application-backend.ts:933-952 | Over a longer list every answer promises another page, and the answers together hold no more than the matches of the list |
| `StoreBackedSource.LongListFails` | apps/mcp/src/application-backend.ts:933-952 | So following the continuations of a longer list comes, after finitely many answers, to a request that has none |
| `StoreBackedSource.TwoItemsNeverEnd` | apps/mcp/src/application-backend.ts:946 | A list of two with one to a page: the first request is answered, and no chain of requests reads to the end |
| `InventorySummary.ReadItems` | apps/mcp/src/application-backend.ts:329-345 | Reading succeeds if and only if the source ends within 1000 pages, and then returns every item of every page |
| `InventorySummary.NeverRepeats` | apps/mcp/src/application-backend.ts:338-341 | A reading that ends never meets a cursor twice, so the progress check refuses only sources that never end |
| `InventorySummary.BucketsCover` | apps/mcp/src/application-backend.ts:1015-1030 | The primary buckets exceed the total by exactly the items counted twice |
| `InventorySummary.BucketsSumIff` | apps/mcp/src/application-backend.ts:1015-1017 | The buckets sum to the total, as promised, if and only if no item has an allocation while its availability puts it in another bucket |
| `InventorySummary.ListedBucketsSum` | packages/runtime/src/mappers.ts:290-297 | The promise of the summary holds: over items that the durable runtime or the memory stores list, the primary buckets sum to the total |
| `InventorySummary.SchemaAdmitsOverlap` | apps/mcp/src/application-backend.ts:1015-1017 | The promise rests on the stores: the item schema alone lets through an uncounted delivery with an allocation, which fills two buckets |
| `InventorySummary.CountedTwiceIff` | apps/mcp/src/application-backend.ts:1207-1242 | Only a recorded allocation, on evidence that is no count or on a count of nothing, is counted twice |
| `InventorySummary.CountCategories` | apps/mcp/src/application-backend.ts:1002-1003 | Each category maps to the number of its items, and no category is empty |
| `InventorySummary.HeldQuantities` | apps/mcp/src/application-backend.ts:1007-1013 | Each unit maps to the sum of positive allocations of unretired items in it |
| `LedgerView.AllocationIsGap` | apps/mcp/src/application-backend.ts:1231-1235 | The allocation shown for a ledger item is its manual allocation plus its active reservations: the clamps never bite |
| `LedgerView.LedgerBucketsSum` | apps/mcp/src/application-backend.ts:1001-1034 | After any run of the ledger, a summary of its items puts each in exactly one bucket |
| `SummaryBuckets.CountsExact` | apps/mcp/src/application-backend.ts:1001-1034 | Every number of the summary is the number of listed items with a property stated on the listing itself |
| `SummaryBuckets.ItemShown` | apps/mcp/src/application-backend.ts:1207-1242 | What is shown as set aside: the recorded allocation, or what a counted item has on hand beyond what is available |
| `SummaryBuckets.HeldInUnit` | apps/mcp/src/application-backend.ts:1007-1013 | The quantity set aside in a unit is the total over the unretired items in that unit |
| `LedgerView.StatesShown` | apps/mcp/src/application-backend.ts:1207-1230 | Which ledger items the summary sees as counted, and which evidence states it knows by name |
| `UnitOfWork.OneAtATime` | apps/server/src/memory-store.ts:1526-1532 | Under any interleaving of any programs, awaited or not, at most one top-level operation is started and unsettled |
| `UnitOfWork.FirstInFirstOut` | apps/server/src/memory-store.ts:1526-1532 | A top-level operation that has started finds every one enqueued before it settled, fulfilled or rejected |
| `UnitOfWork.ScopesNeverWait` | apps/server/src/memory-store.ts:1527 | Inside a scope nothing waits on the chain: what a task of a scope awaits is its own nested call, already started |
| `UnitOfWork.SomethingGoesOn` | apps/server/src/memory-store.ts:1526-1537 | No deadlock: in every reachable state with an unsettled promise some task can go on |
| `UnitOfWork.EverythingSettles` | apps/server/src/memory-store.ts:1526-1532 | After any interleaving, failures and calls that nobody awaits included, there are turns that settle every promise |
| `SerialUnitOfWork.JobsFollowEachOther` | apps/server/src/memory-store.ts:1526-1537 | While no nested call outlives its parent, and clients write between operations only, the stores are between operations, and at the start of each, what the last one to settle left and clients wrote since |
| `SerialUnitOfWork.SettledLeavesNone` | packages/application/src/service.ts:3067-3070 | Right after an operation settles none is started, so a compensation that comes first is apart from every operation |
| `SerialReading.RunsSerially` | apps/server/src/memory-store.ts:1526-1537 | When nested calls are awaited and clients write between operations only, the stores between operations, and at the start of each, are the serial reading of what has settled and been written so far, and each operation ends, with the same outcome, where running it alone ends |
| `SerialReading.AwaitedSettleFirst` | apps/server/src/memory-store.ts:1527-1537 | Awaiting every nested call is enough for none to outlive its parent |
| `SerialReading.SettlesSerially` | apps/server/src/memory-store.ts:1526-1537 | Everything submitted can settle without a client writing beside an operation, and then the stores hold exactly the serial reading |
| `SerialReading.FailedJobLeaves` | apps/server/src/memory-store.ts:1534-1537 | In any such run a failed operation leaves the stores it began with if and only if it rolls back and every write it reached names a registered store, or it reached none |
| `Submissions.RunTracks` | apps/server/src/memory-store.ts:1526-1537 | In any run the operations on the chain are the calls that clients made, in the order they made them, each with the program and the rollback kind of its call, whether the client awaits it, catches it or goes on |
| `Submissions.AllCallsMade` | apps/server/src/memory-store.ts:1526-1532 | A client that settled well has every call of its program among them |
| `Submissions.JobsInOrder` | apps/server/src/memory-store.ts:1526-1537 | Where clients only submit, the stores between operations are those of the first submitted calls run one after another in that order, each failed one undone as it was called |
| `Submissions.FailedRunRestores` | apps/server/src/memory-store.ts:1534-1536 | A call through `run` or `transactional` whose operation fails, in whatever run and however awaited, leaves every registered store as the operation found it |
| `Submissions.FailedCallLeaves` | apps/server/src/memory-store.ts:1534-1537 | What a failed call leaves, in terms of the call that the client submitted |
| `Submissions.AwaitedRunRestores` | apps/server/src/memory-store.ts:1534-1536 | A client awaits an operation that writes to the inventory and fails: all stores are as they were |
| `Orphans.RunsInline` | apps/server/src/memory-store.ts:1527 | A nested call that is left alone runs, with all it calls, to its serial reading |
| `Orphans.AnyOrphanIsLost` | apps/server/src/memory-store.ts:1527 | For every nested call that reaches a write to a registered store: if nobody awaits it, there is a run in which it settles after its parent succeeded, the next operation fails, and the write is gone, which the serial reading keeps |
| `Orphans.OrphanIsLost` | apps/server/src/memory-store.ts:1527 | So one nested audit entry is lost |
| `Orphans.OutsideWriteIsLost` | packages/application/src/service.ts:3067-3070 | Whatever a client writes to a registered store itself while an operation is started, there is a run in which the write is gone |
| `WorkPrograms.ReachedGrows` | apps/server/src/memory-store.ts:1535-1536 | A store changes in an operation exactly when a write to it is reached, nested calls included |
| `WorkPrograms.FailedIsIdentityIff` | apps/server/src/memory-store.ts:1571-1577 | A failed operation with rollback is the identity if and only if no write it reached before the throw names a store that is not registered; without rollback, if and only if it reached no write |
| `WorkPrograms.FailureKeepsCategory` | apps/server/src/memory-store.ts:1571-1577 | A category written by an operation that then fails is still there after its rollback |
| `WorkPrograms.CaughtKeepsWrites` | apps/server/src/memory-store.ts:1535 | A nested call that fails and is caught keeps every write it reached, where the same call at the top restores the registered stores: only the outermost call takes snapshots |
| `WorkPrograms.RestoredStores` | apps/server/src/memory-store.ts:1571-1577 | What a failing operation wrote is gone from seven named stores and stays in the others |
| `TransferModel.CommittedAtMostOnce` | apps/server/src/artifact-transfer.ts:217-380 | Over any run each token is committed at most once, and after that its record is gone for good |
| `TransferModel.CommitMatchesIssue` | apps/server/src/artifact-transfer.ts:228-237 | Over any run, a commit is only accepted for the action and resource that the step which issued its token named |
| `TransferModel.BindingFixed` | apps/server/src/artifact-transfer.ts:388-394 | What a record binds never changes while it is stored; only the claim mark moves |
| `TransferModel.NoSecondClaim` | apps/server/src/artifact-transfer.ts:302-309 | Between a successful claim and its commit or release no second claim of the token succeeds |
| `TransferModel.IssueKeepsClaims` | apps/server/src/artifact-transfer.ts:418-426 | Issuing never drops a claimed record, even past its expiry |
| `TransferModel.NoneUsed` | apps/server/src/artifact-transfer.ts:234-236 | No stored record is marked used in any reachable state |
| `TransferModel.ClaimSurvivesIff` | apps/server/src/artifact-transfer.ts:408-416 | A claimed record survives any steps and any time if and only if nobody looks the token up for its own resource after expiry; such a look deletes it under its holder |
| `TransferModel.CommitAfterClaimIff` | apps/server/src/artifact-transfer.ts:312-320 | The commit that ends a claim is accepted if and only if nobody looked late |
| `TransferModel.LateLookLosesClaim` | apps/server/src/artifact-transfer.ts:408-416 | A run in which a claimed token is looked up after its expiry and the commit of its holder is then refused |
| `TransferHistory.TokensAreIndependent` | apps/server/src/artifact-transfer.ts:217-426 | Over any run the store is a family of independent one-shot machines: where a token stands depends on the calls that concern it and on nothing else |
| `TransferHistory.ClaimAnswers` | apps/server/src/artifact-transfer.ts:217-358 | A claim is granted once, in time, to who names the capability and brings what was stated at issue; every other answer has its own condition |
| `TransferHistory.CheckAnswers` | apps/server/src/artifact-transfer.ts:268-276 | A check answers as a claim would, without details, and lets a claimed download pass |
| `TransferHistory.CommitAnswers` | apps/server/src/artifact-transfer.ts:228-237 | A commit is granted for a claimed token by its own action and resource only |
| `TransferHistory.ReleasedClaimsAgain` | apps/server/src/artifact-transfer.ts:240-247 | A release gives the token back: the store is as before the claim, and the same claim is granted again in time |
| `TransferHistory.IdBoundary` | apps/server/src/artifact-transfer.ts:68 | Which resource ids are accepted, at the boundary of length and letters |
| `ArtifactTransfer.ArtifactTransferManager.FindStored` | apps/server/src/artifact-transfer.ts:408-416 | The look-up, which deletes an expired record of the right action and resource |
| `ArtifactTransfer.ArtifactTransferManager.Preflight` | apps/server/src/artifact-transfer.ts:268-276 | Refuses used or claimed upload capabilities but not downloads |
| `ArtifactTransfer.ArtifactTransferManager.ClaimUploadWrite` | apps/server/src/artifact-transfer.ts:217-225 | Marks the record after length and digest of the body are checked, or refuses |
| `ArtifactTransfer.ArtifactTransferManager.ClaimFinalize` | apps/server/src/artifact-transfer.ts:302-309 | Marks the record after the finalize details are checked, or refuses |
| `ArtifactTransfer.ArtifactTransferManager.ClaimDownload` | apps/server/src/artifact-transfer.ts:350-358 | Marks the record, or refuses a claimed one |
| `ArtifactTransfer.ArtifactTransferManager.Commit` | apps/server/src/artifact-transfer.ts:228-237 | Deletes the claimed record, or refuses without a change |
| `ArtifactTransfer.ArtifactTransferManager.Release` | apps/server/src/artifact-transfer.ts:240-247 | Clears the claim of a matching record and nothing else |
| `ArtifactTransfer.ArtifactTransferManager.RemoveExpired` | apps/server/src/artifact-transfer.ts:418-426 | The sweep removes exactly the used and the expired unclaimed records |
| `ArtifactTransfer.ArtifactTransferManager.IssueCapability` | apps/server/src/artifact-transfer.ts:388-394 | Sweeps, then stores the new record unclaimed |
| `UploadModel.RunKeeps` | apps/server/src/memory-store.ts:1474-1478 | In every run a body never exceeds its declared size and a finalized one has the declared length and digest |
| `UploadModel.BodyIsJoined` | apps/server/src/memory-store.ts:1475 | Under any mix of offset writes the body is what was there followed by the accepted chunks; refused writes leave no trace |
| `UploadModel.ChunkInPlace` | apps/server/src/memory-store.ts:1475 | A chunk accepted at an offset stays at that offset |
| `UploadModel.FinalizedStays` | apps/server/src/memory-store.ts:1477 | A finalized session never changes while it is neither aborted nor rolled back |
| `UploadModel.ReadsForever` | apps/server/src/memory-store.ts:1481 | After finalization, with no abort or rollback, reading the artifact gives the finalized bytes and nothing else |
| `UploadHistory.WholeUpload` | apps/server/src/memory-store.ts:1474-1481 | A client that sends everything within a quarter of an hour is done if and only if what it sent has the size and digest it declared; the artifact then reads as exactly that |
| `UploadHistory.WriteAnswers` | apps/server/src/memory-store.ts:1475 | A chunk is taken if and only if it is in time, continues the body and keeps within the declared size |
| `UploadHistory.TooMuch` | apps/server/src/memory-store.ts:1475-1476 | One chunk too many is refused, and an aborted session takes nothing more |
| `UploadHistory.FinalizeAnswers` | apps/server/src/memory-store.ts:1477 | A finalization is accepted if and only if it is in time and the body is as declared |
| `UploadHistory.FinalizeThenRollback` | apps/server/src/memory-store.ts:1477-1478 | Rolling a finalization back takes the artifact away and opens the session again: all is as before |
| `UploadHistory.RollbackRefusedIff` | apps/server/src/memory-store.ts:1478 | A rollback is refused exactly where the session is unknown or has another artifact |
| `UploadHistory.RetiredOnce` | apps/server/src/memory-store.ts:1482 | Of two retirements that expect the same version the second is refused |
| `ArtifactUploads.MemoryArtifacts.WriteUpload` | apps/server/src/memory-store.ts:1475 | Appends or replaces as specified, or reports expiry, stale offset or excess without a change |
| `ArtifactUploads.MemoryArtifacts.FinalizeUpload` | apps/server/src/memory-store.ts:1477 | Creates the artifact, or reports expiry, short body or wrong digest without a change |
| `ArtifactUploads.MemoryArtifacts.RollbackFinalization` | apps/server/src/memory-store.ts:1478 | Takes the artifact back and reopens the session |
| `ArtifactUploads.MemoryArtifacts.ReadArtifact` | apps/server/src/memory-store.ts:1481 | Returns the body of a session of the artifact |
| `CategoryForest.RunKeeps` | apps/server/src/memory-store.ts:537-589 | In every reachable state parents exist and are top-level, nothing active sits under an archived category, siblings have distinct normalised names, and items in use sit in categories in use |
| `CategoryForest.BuiltInSound` | packages/domain/src/categories.ts:29-51 | The built-in seed is a sound table, so the statements about runs hold from there |
| `CategoryForest.CreateKeeps` | apps/server/src/memory-store.ts:537-553 | Creating a category keeps the forest |
| `CategoryForest.UpdateKeeps` | apps/server/src/memory-store.ts:555-565 | Renaming and reordering keep the forest |
| `CategoryForest.ArchiveKeeps` | apps/server/src/memory-store.ts:567-581 | Archiving keeps the forest |
| `CategoryForest.CategoriesStay` | apps/server/src/memory-store.ts:537-581 | A category never vanishes, never moves, is never reopened, and its version never falls |
| `CategoryForest.ArchivedForGood` | packages/application/src/service.ts:1522-1528 | An archived category gains no child and no item in use, whatever happens later |
| `CategoryForest.OneUpdateWins` | apps/server/src/memory-store.ts:555-581 | Of two updates or archivals with the same expected version only the first can succeed |
| `CategoryForest.CursorStaysGood` | apps/server/src/memory-store.ts:508-518 | A cursor handed out once names its category for ever |
| `CategoryListing.BeforeTotal` | apps/server/src/memory-store.ts:103-107 | The comparison orders any two distinct categories one way |
| `CategoryListing.BeforeTransitive` | apps/server/src/memory-store.ts:103-107 | The comparison is transitive |
| `CategoryListing.OrderedUnique` | apps/server/src/memory-store.ts:509 | A table has one sorted listing |
| `CategoryListing.AfterIsSuffix` | apps/server/src/memory-store.ts:513 | Dropping what is not after the cursor leaves a suffix of what is shown |
| `CategoryListing.PageDetermined` | apps/server/src/memory-store.ts:508-518 | The state and the position leave no choice of page |
| `CategoryAnswers.ListingRises` | apps/server/src/memory-store.ts:103-107 | A listing runs by rising sort order, then rising name, then rising id, and shows archived categories only where asked |
| `CategoryAnswers.PageHolds` | apps/server/src/memory-store.ts:508-518 | A page holds the first `limit` of the shown categories behind the cursor's, states how many are shown in all, and has the cursor of its last category if and only if some are left |
| `CategoryAnswers.BuiltInAt` | packages/domain/src/categories.ts:29-51 | The built-in categories are roots in use, numbered in the order of the list |
| `CategoryAnswers.CreateAnswers` | apps/server/src/memory-store.ts:537-553 | A category is created under nothing or under an unarchived root, with a usable name that no sibling has |
| `CategoryAnswers.UpdateAnswers` | apps/server/src/memory-store.ts:555-565 | A change that names the current version renames, unless a sibling has the name, and reorders; the place stays |
| `CategoryAnswers.ArchiveAnswers` | apps/server/src/memory-store.ts:567-581 | A category is archived once nothing in use is left in it, category or item |
| `CategoryAnswers.PlaceAnswers` | packages/application/src/service.ts:1522-1528 | An item is placed in a category in use, or in none |
| `InventoryCategories.MemoryInventoryCategories.CreateCategory` | apps/server/src/memory-store.ts:537-553 | Adds the category as specified, or refuses in the source's order without a change |
| `InventoryCategories.MemoryInventoryCategories.UpdateCategory` | apps/server/src/memory-store.ts:555-565 | Rewrites name and order as specified, or refuses without a change |
| `InventoryCategories.MemoryInventoryCategories.ArchiveCategory` | apps/server/src/memory-store.ts:567-581 | Archives a category without active children or items, or refuses without a change |
| `InventoryCategories.MemoryInventoryCategories.ListCategories` | apps/server/src/memory-store.ts:508-518 | A page is a cut of the sorted listing of what is shown, starting after the cursor's category; a bad or unknown cursor is a validation error |
| `InventoryCategories.MemoryInventoryCategories.ReadCategories` | apps/server/src/memory-store.ts:508-518 | Following the cursors over an unchanged table lists every shown category exactly once, in order |
| `CategoryCursor.RoundTrip` | apps/server/src/memory-store.ts:73-101 | Every valid id of at most 160 characters survives encoding and decoding, in at most 214 characters |
| `CategoryCursor.AcceptedIff` | apps/server/src/memory-store.ts:77-101 | A compact cursor is accepted if and only if it encodes some valid id |
| `CategoryCursor.AcceptedInjective` | apps/server/src/memory-store.ts:84-86 | No two accepted compact cursors decode to the same id |
| `CategoryCursor.BytesRoundTrip` | apps/server/src/memory-store.ts:85-86 | Base64url digits (section 5 of RFC 4648) decode to the bytes they encode |
| `CategoryCursor.EncodedLength` | apps/server/src/memory-store.ts:84 | Unpadded base64url never has a length that is 1 modulo 4 |
| `CategoryCursor.GroupValue` | apps/server/src/memory-store.ts:73 | Each group of digits is the bits of its bytes, filled up with zeros |
| `CategoryCursor.AlphabetExact` | apps/server/src/memory-store.ts:77-86 | The digits are the letters of the alphabet and nothing else, each one once |
| `MakerWorkflows.RunKeeps` | apps/server/src/memory-maker-workflows.ts:13-18 | For every key the stored versions are 1..n without a gap, with one project and revision, the last being the current record |
| `MakerWorkflows.HistoryGrows` | apps/server/src/memory-maker-workflows.ts:17 | History is append-only over any run |
| `MakerWorkflows.OneWinner` | apps/server/src/memory-maker-workflows.ts:14-15 | Of two saves with the same expected version at most one succeeds, whatever happens between them |
| `WorkflowHistory.StoreIsHistory` | apps/server/src/memory-maker-workflows.ts:13-18 | Over any run, versions and current record under each key are the accepted saves, in order and with everything they were saved with |
| `WorkflowHistory.NextSave` | apps/server/src/memory-maker-workflows.ts:13-18 | A save is accepted if and only if it continues the accepted saves before it; a changed project or revision is an integrity error |
| `MakerWorkflows.MemoryMakerWorkflows.Put` | apps/server/src/memory-maker-workflows.ts:13-18 | Saves the record and its version as specified, or reports a conflict or changed ancestry without a change |
| `MakerWorkflows.MemoryMakerWorkflows.History` | apps/server/src/memory-maker-workflows.ts:19 | A page of the reversed versions and the cursor of the next |
| `MakerWorkflows.MemoryMakerWorkflows.ReadHistory` | apps/server/src/memory-maker-workflows.ts:19 | The pages concatenate to the reversed history |
| `MakerWorkflows.MemoryMakerWorkflows.Restore` | apps/server/src/memory-maker-workflows.ts:7 | Puts both maps back |

## Left out

- Number rounding: quantities are reals, and conversion factors positive integers as the contract's schema demands.
- Timestamps, actors, free text, links and copying of values; generated ids are inputs, and so are clock readings and tokens.
- Constraint matching is set inclusion over an item's facts, so case folding and name fragments are not modelled; `bomSpecification` is a flag of the planned line.
- Alternatives of a line are stored and compared in the order they are given.
- Work-item revisions; names, notes and statuses of revisions; the item's cached `allocatedQuantity` in the stores, which never write it.
- MemoryStore.MemoryProjects.CreateProjectRevision: a printer field that is present but undefined counts as left out.
- MemorySetup.MemoryProjectSetup.CommitPreview: what item records and catalog say of printers is a parameter (`Catalog`).
- Bulk updates, inspections (which may overwrite conversions of a reserved line), catalog, offers, images, team and build configurations.
- LedgerRollbacks.LateArchiveRollbackIff: takes the receipt of the archive in question; that later operations on the project may have dropped or replaced it is part of `MemoryStore`, not of runs. Rollbacks are no steps of `LedgerRuns.Run`.
- The branch of `archiveProject` that catches an exception of its loop: after the preflight nothing in the loop throws.
- SetupProof.CommitSucceedsIff: ids within one proposal are assumed distinct (`IdsDistinct`), as preview validation, which is not part of this model, demands.
- CategoryForest.RunKeeps: starts from a table that satisfies the invariant; the constructor takes any seed. Name normalisation is a pair of unspecified functions.
- CategoryForest.BuiltInSound: assumes that the built-in names have different normalised keys, since normalisation is unspecified.
- InventoryCategories.MemoryInventoryCategories.Sorted: an insertion sort stands for the language's built-in sort; the listing is unique, so the choice cannot show.
- CategoryCursor.AcceptedIff: speaks of compact cursors; the superseded JSON form is an unspecified parser of the decoded bytes.
- FilteredPagination.FilteredPage: the JSON and base64url text of a filtered cursor is a record, the 512-character bound a predicate on it, and the source unchanged between requests.
- FilteredPagination.ReadAll: needs a well-formed source (`Serves`), which includes at most 1000 pages, distinct cursors and ids, and pages that pass validation.
- StoreBackedSource.StoreReadsToEndIff: assumes that the list's ids are distinct and the list unchanged between requests.
- UnitOfWork.OneAtATime: promises are statuses of tasks; microtask order is left open, so every interleaving at single writes is covered and none excluded. A write appends a record, so it always changes its store; a compensation is a client that goes on to write after a call it caught.
- Submissions.FailedRunRestores: speaks of what an operation found and left, not of writes that others made beside it; `FailedCallLeaves` does, where there are none.
- WorkflowHistory.StoreIsHistory: starts from an empty store, as the constructor makes it.
- SerialReading.RunsSerially: nested calls are awaited and clients write between operations only; `AnyOrphanIsLost` and `OutsideWriteIsLost` show what goes wrong otherwise.
- TransferModel.CommittedAtMostOnce: assumes issued tokens are new (`FreshTokens`) and the digest free of collisions; headers, URLs and actor checks are out.
- ArtifactTransfer.ArtifactTransferManager.Commit: stands for the three commit methods, and `Release` for the three release methods, with the action as a parameter; the older `authorize` helpers are out.
- UploadModel.ReadsForever: assumes new session and artifact ids; scope filters and configuration bindings are out.
- ArtifactUploads.MemoryArtifacts.ReadArtifact: which session answers when several belong to one artifact is left open.
- `assignItemCategory` is a step on values, with the service's check of the category in front of it; `MemoryMakerWorkflows.list`, which sorts by locale, and the remaining fields and texts of the MCP mappers.
- HTTP, authentication, the web interface and the import command line.
