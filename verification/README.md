# Kumquat: verified models

Dafny models of the parts of Kumquat that keep state across requests, workers and
clusters, with proofs of what those parts promise. `dafny verify dfyconfig.toml`
checks the whole project.

## What is modelled

**Resource gateway** (`GatewayModel`, `GatewaySteps`, `ResourceGateway` and the other
`Gateway…` files). HTTP handlers commit a record change, an operation and an outbox
event in one transaction; workers claim events under a 30 second lease, project the
record to the Engine and settle event, operation and record under a token and a
revision guard. `ResourceGateway` is the program's form, one method a transaction,
each proved to leave the tables its decision function prescribes. `GatewaySteps`
composes those decisions into a step relation in which handlers, background loops
and any number of workers interleave one transaction or Engine call at a time,
workers crash, time passes, and every row copy a handler or loop has ever read may
still be acted on. The theorems speak about every run from the empty tables;
`GatewayRequests` says in the caller's terms what a request leaves and when it is
accepted, `GatewayEngine` what the worker does to the Engine, and `GatewayScenarios` has
the concrete runs that reach the exceptions.

**Scheduler.** `Spread` and `Apportionment` divide replicas by largest remainders in
exact arithmetic; `WaterFill` fills stateful sets and keeps their ordinals;
`Scoring` supplies scores and capacities; `LabelIndex`, `Affinity` and
`ClusterCache` are the inverted index, the prefilter that uses it and the optimistic
resource cache; `SchedulingQueue` is the active map over a client-go work queue.
`Names` and `Placement` hold the name order and the placement lists they share.

**Module forest.** `ModuleForest` has the table as a value and what it means to stand
below a module; `ModuleTree` has the service's methods and its trees.

**Edge credentials.** `EdgeHandshake` has the agent's merge patches and the manager's
two-object update as steps over the versions of one cluster object.

**Workload selector.** `WorkloadSelector` has the three functions that build the
selector and pod labels of an applied workload.

`Prelude` holds the option and result types, `Quantities` resource quantities, `Descent`
a general argument that a relation which lowers a measure reaches its goal.

## Modelling choices

* Database transactions are serialisable, single steps. Random IDs, claim tokens and
  repair keys are parameters that must be unused; hashes and fingerprints are the
  tuples they digest. Times are whole seconds.
* `loaded` in a gateway world is every row version read so far. An update's earlier
  read and its child count (taken outside the transaction), the repair loop and the
  missing-object loop all act on such copies, however old.
* An Engine call that reports an error may still have taken effect.
* Theorems allow any number of workers, except those about the adoption race
  (`HierarchyKeptIff` and its companions), `ArchivedForGood` and convergence: they assume
  one process, as the mutex around a pass and the sequential loop give.
* Floating point in the scheduler is exact reals, Go maps are iterated in an arbitrary
  order, unstable sorts are only promised to be sorted permutations. Cluster names in
  a placement are distinct and replicas are not negative.
* The manager of the handshake reads versions that may be old, but none older than
  one it read before; the agent reads the current one. The agent publishes CA, token
  and URL, as its own credential reader produces them.

## Where the code does not do what it is meant to

Each of these is a theorem with the exact condition, and a concrete run where it needs one.

* Adopting an imported workspace does not look at its sync state. If its deletion is
  past the worker's check, the adoption revives it for a moment, applications can be
  created under it, and the finishing transaction archives it all the same
  (`RaceOrphansApplication`, `OrphanIsReachable`). Two statements are exact here.
  `TreeKeptIff` and `TreeUntilOrphaned` say which steps break the tree itself, with any
  number of workers; with one process each of them comes from such an adoption
  (`OrphanComesFromRace`). `HierarchyKeptIff` is about the invariant of one process, the
  tree and every deletion in flight still being one: an adoption that meets a deletion
  breaks it even where the Engine call fails and the tree survives.
* An event that fails three times before the Engine is reached is settled without its
  row (`ServedKeptIff`, `StrandingIsReachable`). If it was the last delete event of a
  row, requests are refused (`DeletionRefusesRequests`), and the row stays in deletion
  until it is adopted, marked missing from a copy read before the deletion, or an
  adoption event claimed before it finishes (`LeavesDeletionIff`, `AbandonedUntilFreed`);
  none of these completes the deletion.
* With several workers archiving can be undone: the finishing transaction of an adoption
  or of a failed deletion writes back the archive mark of a copy read before the
  archiving, unless another row has taken its key by then (`ArchiveKeptIff`,
  `UnarchivingIsReachable`, `RefusalIsReachable`); an application brought back that way can
  end up under a workspace in deletion (`RevivalOrphans`). For adoptions that takes a
  cluster that was archived, which the service's Delete accepts and no HTTP route offers.
* An update checks the row before it looks up the key, so its replay can be refused
  (`UpdateReplaysNowIff`).
* The unique key of a workspace is its namespace, its Engine object goes by its name. Two
  workspaces of one name overwrite each other's object, and the loop never converges while
  both are live (`ClashNeverConverges`, `ClashOverRuns`, `ClashIsReachable`).
* The label index is left with stale or double entries when a labelled name is added
  twice (`AddKeepsAgreementIff`); the cache always removes first.
* A queue entry without an application strands its key (`StrandedIff`,
  `EmptyEntryStrands`) and makes an update of it panic (`StrandedStays`, `NeverPanics`).
  Only `AddUnschedulableIfNotPresent` can hand one in, and nothing but tests calls it.
* A request that arrives while its key is being worked on is lost with the success of
  that round (`RequestKeptIff`, `SuccessLosesRequest`).
* The agent's merge patch leaves out what the copy already had. If the manager erases
  the old set in between, the new set is published without the parts they share
  (`PublishesIntactIff`, `RotationCanLoseTheCa`). While the agent offers no other set it
  sees its hash in place and the manager refuses the rest (`IncompleteStays`), exactly when
  the manager has no complete version of the set left to read and is not past its check of
  it (`PublicationLocksIff`, `CompletesUnlessLocked`).
* An explicit selector whose labels and expressions are absent or empty is filled in by
  the first reconcile and refused as a change by the second (`SecondRoundIsStableIff`).

## Model

| member | source | states |
|---|---|---|
| `ResourceGatewayService.ResourceGateway.constructor` | apiserver/pkg/service/resource_gateway.go:128-130 | an empty database and an empty Engine |
| `ResourceGatewayService.ResourceGateway.Create` | apiserver/pkg/service/resource_gateway.go:138-225 | the transaction writes the record, its operation and its event together, or only answers; refusals, replay and the unique active key included |
| `ResourceGatewayService.ResourceGateway.CommitUpdate` | apiserver/pkg/service/resource_gateway.go:249-347 | the update's checks on the row read before, its guarded row write, operation and event; the specification asked for is stored at the next revision, and a workspace moves to the namespace it asks for and that namespace's key; nothing is written when the guard on revision, deletion or archive fails |
| `ResourceGatewayService.ResourceGateway.Delete` | apiserver/pkg/service/resource_gateway.go:349-391 | a row enters deletion with its delete event unless it has unarchived children or is already being deleted |
| `ResourceGatewayService.ResourceGateway.AdoptCluster` | apiserver/pkg/service/resource_gateway.go:466-509 | only a discovered cluster is adopted, with its event |
| `ResourceGatewayService.ResourceGateway.AdoptExisting` | apiserver/pkg/service/resource_gateway.go:511-608 | an imported row is filed under a project or an active workspace of the same namespace, with its event |
| `ResourceGatewayService.ResourceGateway.LookUp` | apiserver/pkg/service/resource_gateway.go:227-239 | a key seen before answers with its operation, or with a conflict when the request differs |
| `ResourceGatewayService.ResourceGateway.IsKeyTaken` | apiserver/pkg/service/resource_gateway.go:102-126 | the unique index on active keys over unarchived rows |
| `ResourceGatewayService.ResourceGateway.CountChildren` | apiserver/pkg/service/resource_gateway.go:361-367 | counts unarchived rows filed under a row: positive iff there is one |
| `ResourceGatewayService.ResourceGateway.OldestClaimable` | apiserver/pkg/service/resource_gateway.go:933-947 | the chosen event is due, unclaimed or past its lease, and no claimable one is older; none is returned only when there is none |
| `ResourceGatewayService.ResourceGateway.DiscardEvent` | apiserver/pkg/service/resource_gateway.go:1037-1055 | under the token: processed and failed; without it nothing changes |
| `ResourceGatewayService.ResourceGateway.CountFailure` | apiserver/pkg/service/resource_gateway.go:1056-1086 | one attempt more: back-off before the third, failed at the third |
| `ResourceGatewayService.ResourceGateway.FailEvent` | apiserver/pkg/service/resource_gateway.go:1056-1086 | the failure is counted only under the claim token |
| `ResourceGatewayService.ResourceGateway.FinishCopy` | apiserver/pkg/service/resource_gateway.go:989-1013 | the columns a finished projection leaves, whichever row they are written to |
| `ResourceGatewayService.ResourceGateway.FinishEvent` | apiserver/pkg/service/resource_gateway.go:979-1032 | event, operation and row are settled under the token, the row also under the revision guard; where the unique index refuses the row's key everything is rolled back |
| `ResourceGatewayService.ResourceGateway.UpdateFinishedRow` | apiserver/pkg/service/resource_gateway.go:1023-1031 | five columns and the applied revision, only while the guard holds; an error, and nothing written, iff another row has the key |
| `ResourceGatewayService.ResourceGateway.ProjectRow` | apiserver/pkg/service/resource_gateway.go:1087-1162 | no object but the row's is touched; after a call that succeeded or landed it is gone when deleted, and otherwise shows desired state and business labels; what cannot be expressed is never applied |
| `ResourceGatewayService.ResourceGateway.ReconcileOne` | apiserver/pkg/service/resource_gateway.go:927-1033 | one uninterrupted pass: the oldest claimable event; where its row is not as the action asks, neither rows nor Engine change, otherwise the Engine is as the call leaves it and the tables as claim and finish do |
| `ResourceGatewayService.PassIsSteps` | apiserver/pkg/service/resource_gateway.go:927-1033 | every such pass is a sequence of steps of the step relation with the same tables and Engine, whatever the other workers hold |
| `GatewayEngine.CallTakesEffect` | apiserver/pkg/service/resource_gateway.go:1087-1162 | only the worker's call writes the Engine: the row's object is gone after a deletion, shown as desired after an application, and no other object changes |
| `GatewayEngine.CallsAreAuthorised` | apiserver/pkg/service/resource_gateway.go:954-975 | in every run with any number of workers a call is made with the row as it once was, and that row was the event's, unarchived, at its revision, and in deletion or not as the action asks |
| `GatewayEngine.SuccessIsDone` | apiserver/pkg/service/resource_gateway.go:977-1006 | in every run of one process, when an operation is reported as succeeded its object is gone after a deletion, and shown as the worker read the row otherwise |
| `GatewayEngine.ArchivedObjectIsGone` | apiserver/pkg/service/resource_gateway.go:1007-1013 | in every run of one process a row's object is gone the moment the row is archived |
| `GatewayEngine.NextKeepsEngine` | apiserver/pkg/service/resource_gateway.go:927-1033 | one process: every step keeps archived rows without objects, unless a live row goes by the name, and a called worker's object as the call left it |
| `GatewayEngine.FinishReports` | apiserver/pkg/service/resource_gateway.go:979-1031 | a finish that lands reports one outcome in row, event and operation: done, to be retried after as many seconds as attempts, or failed at the third attempt |
| `GatewayEngine.EarlyFailureReports` | apiserver/pkg/service/resource_gateway.go:1056-1086 | a failure before the Engine counts an attempt in event and operation and leaves the row alone |
| `GatewayEngine.DiscardReports` | apiserver/pkg/service/resource_gateway.go:1037-1055 | a discarded event is settled as failed, its row left alone |
| `GatewayEngine.ClaimsTheOldestDue` | apiserver/pkg/service/resource_gateway.go:933-947 | a claim takes the oldest event that is open, due, and unclaimed or past its lease, and leases it for 30 seconds |
| `GatewayEngine.LeaseProtects` | apiserver/pkg/service/resource_gateway.go:933-947 | in every run a claim keeps all others off its event for 30 seconds unless it is settled before |
| `GatewayRequests.CommitLeaves` | apiserver/pkg/service/resource_gateway.go:210-217 | every accepted request leaves one event at the row's revision, due and unheld, the pending operation it answers with, and no other row changed |
| `GatewayRequests.CreatedRow` | apiserver/pkg/service/resource_gateway.go:138-208 | a created row carries what was sent at revision 1, filed under its project or workspace with that scope, in the namespace and under the key that follow |
| `GatewayRequests.CreateCommitsIff` | apiserver/pkg/service/resource_gateway.go:138-208 | under an unused key a create request is accepted iff it is named and well specified, its parent takes it and its identity is free |
| `GatewayRequests.UpdatedRow` | apiserver/pkg/service/resource_gateway.go:303-334 | an accepted update touches specification, revision and sync state, and for a workspace namespace and key; nothing else |
| `GatewayRequests.UpdatedWorkspaceMoves` | apiserver/pkg/service/resource_gateway.go:311-324 | after an accepted update of a workspace's specification the row stands in the namespace it asks for, under its key, alone |
| `GatewayRequests.MovedWorkspaceIsAlone` | apiserver/pkg/service/resource_gateway.go:311-324 | and no other unarchived workspace is in that namespace |
| `GatewayRequests.UpdateCommitsIff` | apiserver/pkg/service/resource_gateway.go:249-326 | under an unused key an update that read the present row is accepted iff the row is live, of its kind and in scope, parent and name are kept, and a workspace that moves has no applications and a free key |
| `GatewayRequests.DeletedRow` | apiserver/pkg/service/resource_gateway.go:368-377 | a deleted row is marked and nothing else about it changes |
| `GatewayRequests.DeleteCommitsIff` | apiserver/pkg/service/resource_gateway.go:349-377 | under an unused key a deletion is accepted iff the row is live, of its kind, in scope, without live children and not being deleted |
| `GatewayRequests.AdoptClusterCommitsIff` | apiserver/pkg/service/resource_gateway.go:466-497 | only an administrator adopts, and only a discovered cluster that is not archived; the row then awaits adoption |
| `GatewayRequests.AdoptExistingCommitsIff` | apiserver/pkg/service/resource_gateway.go:511-590 | only an administrator adopts, and only an imported, expressible row filed nowhere yet, under a project or a live workspace of its namespace |
| `GatewayRequests.AdoptedExistingRow` | apiserver/pkg/service/resource_gateway.go:540-592 | an adopted row becomes the API's, filed where the administrator said and in that scope |
| `GatewayRequests.CommitIsProjectableIff` | apiserver/pkg/service/resource_gateway.go:949-966 | what a request commits passes the row check at once, unless it updated a row the API does not own |
| `GatewayRequests.FingerprintsTellApart` | apiserver/pkg/service/resource_gateway.go:227-239 | two requests have one fingerprint iff they ask the same of the same row for the same user |
| `ResourceGatewayService.ResourceGateway.EnqueueRepair` | apiserver/pkg/service/resource_gateway.go:665-683 | at most one repair: nothing is inserted while an event of the row is unprocessed |
| `ResourceGatewayService.ResourceGateway.EnsureRow` | apiserver/pkg/service/resource_gateway.go:638-663 | a row that lags and is not backing off has an open event afterwards; every other row leaves the tables alone |
| `ResourceGatewayService.ResourceGateway.MarkMissing` | apiserver/pkg/service/resource_gateway.go:869-889 | a row whose object vanished becomes stale under the revision guard, also when it meanwhile entered deletion |
| `GatewaySteps.RequestsAreWellFormed` | apiserver/pkg/service/resource_gateway.go:210-217 | every committing request adds one pending operation and one untouched event about its row |
| `GatewaySteps.CommitsStayInScope` | apiserver/pkg/service/resource_gateway.go:82-87 | without administrative rights a caller adopts nothing, creates and deletes only rows of its own module, and updates only rows it read as such |
| `GatewayRevisions.UpdatesStayInScope` | apiserver/pkg/service/resource_gateway.go:249-265 | a row updated without administrative rights is its caller's module's at the moment of the write, unless it was filed nowhere when read |
| `GatewayOutbox.NextKeepsOutbox` | apiserver/pkg/service/resource_gateway.go:210-217 | every step keeps operations and events paired one to one, in lockstep, and keys unique |
| `GatewayOutbox.NextGrows` | apiserver/pkg/service/resource_gateway.go:979-1086 | no step loses an operation or event, lowers attempts, or changes a processed event or terminal operation |
| `GatewayRuns.RunIsSound` | apiserver/pkg/service/resource_gateway.go:979-1086 | outbox and fence invariants hold in every run with any number of workers |
| `GatewayRuns.OperationFollowsItsEvent` | apiserver/pkg/service/resource_gateway.go:979-1022 | over a run each operation has exactly one event; pending, retrying and terminal mirror it; terminal pairs are frozen; attempts stay within three |
| `GatewayRuns.ProcessedOnce` | apiserver/pkg/service/resource_gateway.go:981-985 | every event is marked processed at most once, by the worker holding it |
| `GatewayRuns.FencedForGood` | apiserver/pkg/service/resource_gateway.go:981-985 | a worker whose event was taken over never changes a table again under that token |
| `GatewayFencing.NextKeepsFence` | apiserver/pkg/service/resource_gateway.go:933-947 | tokens stay distinct and each worker's copy of its event stays faithful |
| `GatewayFencing.OneHolder` | apiserver/pkg/service/resource_gateway.go:933-947 | two workers never hold the same event |
| `GatewayFencing.FencedWritesNothing` | apiserver/pkg/service/resource_gateway.go:981-985 | finish, discard and failure by a worker without its claim change no table |
| `GatewayFencing.LostToExpiryOnly` | apiserver/pkg/service/resource_gateway.go:938-943 | a claim is lost only to another claim after its lease ran out |
| `GatewayFencing.OnlyHoldersProcess` | apiserver/pkg/service/resource_gateway.go:981-985 | an event becomes processed only by a step of the worker that holds it |
| `GatewayIdempotency.RepeatGetsSameOperation` | apiserver/pkg/service/resource_gateway.go:227-239 | repeating an answered create, delete or adopt request returns the same operation and changes no table, whatever happened in between |
| `GatewayIdempotency.ReusedKeyChangesNothing` | apiserver/pkg/service/resource_gateway.go:231-236 | a different request under a used key is refused and changes no table |
| `GatewayIdempotency.OneOperationPerKey` | apiserver/pkg/service/resource_gateway.go:210-215 | over a run at most one operation exists per actor and key |
| `GatewayIdempotency.UpdateReplaysIff` | apiserver/pkg/service/resource_gateway.go:249-301 | a repeated update is answered with its operation iff the checks made before the key lookup pass on the copy and the child count it read |
| `GatewayIdempotency.UpdateReplaysNowIff` | apiserver/pkg/service/resource_gateway.go:249-301 | read now, that is iff the row is live and in scope and a workspace with applications keeps its namespace; otherwise it is refused, for a row in deletion or archived as missing |
| `GatewayRevisions.RevisionsOverRuns` | apiserver/pkg/service/resource_gateway.go:303-334 | over a run revisions never decrease, applied stays within desired, one (row, revision) names one content, a set parent never changes |
| `GatewayRevisions.SecondUpdateLoses` | apiserver/pkg/service/resource_gateway.go:318-326 | of two content updates based on one revision only the first commits |
| `GatewayRevisions.NextKeepsRevisions` | apiserver/pkg/service/resource_gateway.go:1023-1031 | the step form of the revision facts |
| `GatewayHierarchy.TreeKeptIff` | apiserver/pkg/service/resource_gateway.go:1007-1031 | any number of workers: a step breaks the tree iff it is a finishing transaction that lands and archives a workspace with unarchived applications, or brings back an application whose workspace takes none |
| `GatewayHierarchy.TreeUntilOrphaned` | apiserver/pkg/service/resource_gateway.go:1007-1031 | in every run the tree stays whole exactly as long as no such transaction happens |
| `GatewayHierarchy.OrphanComesFromRace` | apiserver/pkg/service/resource_gateway.go:547-570 | one process: before every transaction that breaks the tree an adoption met that very deletion past its check |
| `GatewayHierarchy.HierarchyKeptIff` | apiserver/pkg/service/resource_gateway.go:547-570 | one process: the tree together with 'every deletion in flight is still a deletion', the invariant that is inductive, is kept iff the step is not such an adoption |
| `GatewayHierarchy.HierarchyOverRuns` | apiserver/pkg/service/resource_gateway.go:361-377 | in race-free runs of one process a workspace archived or in deletion has only archived applications |
| `GatewayHierarchy.RaceOrphansApplication` | apiserver/pkg/service/resource_gateway.go:954-975 | from every such race, one application request and the worker's own steps leave an unarchived application under an archived workspace |
| `GatewayHierarchy.RaceIsReachable` | apiserver/pkg/service/resource_gateway.go:547-570 | the race happens in a concrete run from the empty tables |
| `GatewayHierarchy.OrphanIsReachable` | apiserver/pkg/service/resource_gateway.go:954-975 | one process reaches the orphan in eight steps from the empty tables |
| `GatewayHierarchy.AdoptingLiveRowsIsSafe` | apiserver/pkg/service/resource_gateway.go:547-570 | an adoption of a row that is not being deleted is never the race |
| `GatewayHierarchy.ArchivedForGood` | apiserver/pkg/service/resource_gateway.go:1007-1013 | one process, races included: archived is never undone |
| `GatewayArchive.ArchiveKeptIff` | apiserver/pkg/service/resource_gateway.go:1012-1031 | any number of workers: a step un-archives a row iff it finishes, under claim and revision, an adoption or a failed deletion whose copy predates the archiving and whose key no other row has taken |
| `GatewayArchive.ArchivedUntilUndone` | apiserver/pkg/service/resource_gateway.go:1012-1031 | in every run a row stays archived exactly as long as no such finish happens |
| `GatewayScenarios.UnarchivingIsReachable` | apiserver/pkg/service/resource_gateway.go:979-1031 | a run from the empty tables un-archives a row: one failed deletion, a second request, two workers, success then failure |
| `GatewayScenarios.RefusalIsReachable` | apiserver/pkg/service/resource_gateway.go:1023-1031 | the same run with a new workspace in the freed namespace: the unique index refuses the finish, the row stays archived and the event open |
| `GatewayArchive.RevivalOrphans` | apiserver/pkg/service/resource_gateway.go:979-1031 | where an archived application may be brought back, the deletion of its workspace comes through first and the tree breaks with the finish |
| `GatewayHierarchy.TwoWorkersUndoArchive` | apiserver/pkg/service/resource_gateway.go:1023-1031 | two workers with delete events and copies equal to the row, keys distinct: the failure recorded second un-archives the row |
| `GatewayIdentity.NextKeepsIdentity` | apiserver/pkg/service/resource_gateway.go:102-126 | any number of workers: every step keeps active keys distinct, unarchived rows under their own key, copies in place, and events with their rows |
| `GatewayIdentity.EngineIdentityOverRuns` | apiserver/pkg/service/resource_gateway.go:102-126 | in every run with any number of workers no two rows carry one key, unarchived applications never share an Engine object, unarchived workspaces never a namespace |
| `GatewayIdentity.RefusedOnlyWhenArchived` | apiserver/pkg/service/resource_gateway.go:1023-1031 | the unique index refuses a finish only where the row was archived after the worker read it |
| `GatewayServed.ServedKeptIff` | apiserver/pkg/service/resource_gateway.go:1056-1086 | a step keeps a delete event for every row in deletion iff it is not the third early failure of the only one |
| `GatewayServed.DeletionRefusesRequests` | apiserver/pkg/service/resource_gateway.go:361-377 | a row in deletion refuses updates and deletions and is no repair candidate |
| `GatewayServed.LeavesDeletionIff` | apiserver/pkg/service/resource_gateway.go:511-608 | an unserved row leaves deletion iff it is adopted, marked missing from an older copy at its revision, or an adoption event on it finishes under a free key |
| `GatewayServed.AbandonedKeptIff` | apiserver/pkg/service/resource_gateway.go:869-889 | a row in deletion without any open delete event stays so iff the step is none of these |
| `GatewayServed.AbandonedUntilFreed` | apiserver/pkg/service/resource_gateway.go:954-975 | in every run such a row stays in deletion exactly as long as nothing frees it |
| `GatewayServed.StrandingAbandonsIff` | apiserver/pkg/service/resource_gateway.go:1056-1086 | a third early failure leaves no open delete event iff no other one was left, one being discarded included |
| `GatewayServed.StrandedAloneIsAbandoned` | apiserver/pkg/service/resource_gateway.go:1056-1086 | with one worker at a time a stranded row has no event left |
| `GatewayScenarios.StrandingIsReachable` | apiserver/pkg/service/resource_gateway.go:954-967 | one process with the database away at three checks strands a row and leaves it without event |
| `GatewayServed.ServedOverRuns` | apiserver/pkg/service/resource_gateway.go:954-975 | along every run without such a failure each row in deletion has an open delete event at its revision |
| `GatewayConvergence.MovesDecrease` | apiserver/pkg/service/resource_gateway.go:638-683 | each repair and each event taken to its end lowers twice the uncovered lagging rows plus the open events |
| `GatewayConvergence.ProgressOrConverged` | apiserver/pkg/service/resource_gateway.go:610-663 | a quiet world that has not converged has a move |
| `GatewayConvergence.LoopEnds` | apiserver/pkg/service/resource_gateway.go:610-663 | however repairs and reconciles alternate, the loop takes at most the measure's number of moves |
| `GatewayConvergence.Converges` | apiserver/pkg/service/resource_gateway.go:610-663 | it ends with no open event, every deletion done, every API-owned row applied and shown by the Engine, and no object of an archived row left unless a live row has its name |
| `GatewayConvergence.AvailableRunIsSane` | apiserver/pkg/service/resource_gateway.go:927-1033 | every run of one process with an available database satisfies the invariants convergence starts from |
| `GatewayConvergence.ClashNeverConverges` | apiserver/pkg/service/resource_gateway.go:1163-1180 | of two API-owned live workspaces under one Engine name one always lags, so the loop has not converged |
| `GatewayConvergence.ClashOverRuns` | apiserver/pkg/service/resource_gateway.go:610-663 | in every run such a pair keeps the loop from converging while both are API-owned, unarchived and not in deletion |
| `GatewayScenarios.ClashIsReachable` | apiserver/pkg/service/resource_gateway.go:102-126 | two create requests suffice: the active key of a workspace is its namespace, its Engine name is its name |
| `Spread.SelectClustersSpread` | engine/internal/manager/scheduler/scheduler.go:298-637 | the target is met exactly; a scale-up takes nothing from any cluster, a scale-down gives nothing, an unchanged total gives back the same placement; candidates weigh their scores, or all the same when none scores; each changes by the floor or ceiling of its fair share within its ideal, rounded up where the remainders are largest, and from nothing placed gets its part of the total by score; no more clusters get replicas than candidates |
| `Spread.Grow` | engine/internal/manager/scheduler/scheduler.go:463-521 | sums to the target; each growth is the floor or ceiling of the deficit share and stays within the ideal rounded up |
| `Spread.Shrink` | engine/internal/manager/scheduler/scheduler.go:523-619 | sums to the target; no gain, no over-ideal cluster below the floor of its ideal, others unchanged, the clamp never fires |
| `Spread.NeverPlainWeights` | engine/internal/manager/scheduler/scheduler.go:493-502 | the fall-back to plain weights is never taken |
| `Spread.DeficitsCoverGrowth` | engine/internal/manager/scheduler/scheduler.go:480-490 | the deficits add up to at least the growth |
| `Spread.SurplusesCoverReduction` | engine/internal/manager/scheduler/scheduler.go:528-544 | the surpluses add up to at least the reduction |
| `Spread.NoSurplusNothingToReduce` | engine/internal/manager/scheduler/scheduler.go:576-611 | the inverse-weight branch has nothing to reduce |
| `Spread.ClusterLimit` | engine/internal/manager/scheduler/scheduler.go:332-361 | at least one cluster when any is scored, never more than are scored |
| `Spread.LimitIsLargest` | engine/internal/manager/scheduler/scheduler.go:332-361 | a number of clusters is within the limit iff scored clusters, the configured bound, 5 by default, and the minimum each allow it, one being always allowed |
| `Spread.Candidates` | engine/internal/manager/scheduler/scheduler.go:377-406 | every cluster in use is a candidate; the rest are the best ranked, filling the limit and never exceeding it unless the clusters in use do |
| `Spread.Rank` | engine/internal/manager/scheduler/scheduler.go:316-330 | all scored clusters by score, names breaking ties |
| `Spread.WeightsOf` | engine/internal/manager/scheduler/scheduler.go:408-428 | scores as weights, one each when all are zero; the total is positive |
| `Spread.FirstDivision` | engine/internal/manager/scheduler/scheduler.go:463-521 | from nothing placed each candidate gets total times score over the sum of scores, rounded down or up, or an equal part when none scores |
| `Names.LessIsBytewise` | engine/internal/manager/scheduler/scheduler.go:322-330 | names are compared byte by byte: at the first difference, or where one ends |
| `Spread.Collect` | engine/internal/manager/scheduler/scheduler.go:621-637 | the clusters with replicas sorted by name, no count lost |
| `Apportionment.RoundShares` | engine/internal/manager/scheduler/scheduler.go:496-521 | sums exactly to the target; every change is the floor or ceiling of its share, and none beyond the floor has a smaller remainder than one at the floor |
| `Apportionment.LeftoverIsPositive` | engine/internal/manager/scheduler/scheduler.go:511-520 | the leftover count is within range and only meets positive remainders |
| `Apportionment.SortByRemainder` | engine/internal/manager/scheduler/scheduler.go:513-516 | a permutation in descending order of remainders |
| `Placement.Gather` | engine/internal/manager/scheduler/scheduler.go:304-312 | the placement as a map and its total |
| `Placement.CanonicalIsUnique` | engine/internal/manager/scheduler/scheduler.go:632-637 | two placements sorted by name without empty entries that agree on every count are equal |
| `WaterFill.SelectClustersStatefulSetWaterfill` | engine/internal/manager/scheduler/scheduler.go:640-770 | totals are exact and the counts follow the pouring and draining rules over the name-sorted clusters; what was computed for a cluster bounds it unless it is the last, a cluster neither computed nor feasible keeps its count, and a later one grows only when the earlier ones hold what was computed |
| `WaterFill.PouringIsDetermined` | engine/internal/manager/scheduler/scheduler.go:676-731 | the pouring rules leave exactly one outcome per total |
| `WaterFill.DrainingIsDetermined` | engine/internal/manager/scheduler/scheduler.go:733-755 | the draining rules leave exactly one outcome per total |
| `WaterFill.PourIn` | engine/internal/manager/scheduler/scheduler.go:676-731 | a later cluster gets replicas only once every one from the start holds its computed capacity, or 2147483647; only the last may overflow |
| `WaterFill.DrainOut` | engine/internal/manager/scheduler/scheduler.go:733-755 | a cluster loses replicas only when every later one is empty |
| `WaterFill.StartIndex` | engine/internal/manager/scheduler/scheduler.go:680-688 | the last cluster in use, else the first |
| `WaterFill.RescaleKeepsOrdinals` | engine/internal/manager/scheduler/scheduler.go:640-770 | one rescale leaves the owner of every ordinal below both totals unchanged |
| `WaterFill.OrdinalMovesOnlyIfRemoved` | engine/internal/manager/scheduler/scheduler.go:640-770 | over a run of rescales with any capacities an ordinal changes its owner only if it was removed in between |
| `WaterFill.OrdinalStarts` | engine/internal/manager/application/controller.go:130-199 | the first ordinal of a cluster is the sum of the counts before it |
| `WaterFill.OwnerIsRange` | engine/internal/manager/application/controller.go:194-199 | a cluster owns exactly the ordinals from its start up to its count |
| `Scoring.NormalizeFinalScores` | engine/internal/manager/scheduler/framework/runtime.go:105-142 | scores in 0..100 in the order and proportion of the raw ones, rounded down, ends at 0 and 100, 50 when all are equal |
| `Scoring.SelectCluster` | engine/internal/manager/scheduler/scheduler.go:275-294 | the best score, the first name among equals |
| `Scoring.CalculateMaxReplicas` | engine/internal/manager/scheduler/plugins/capacity/capacity.go:80-121 | a number of replicas fits iff it is at most the result, once some requested resource has room for fewer than the largest 64-bit integer; the constant answers of the other branches |
| `LabelIndex.SimpleIndexer.constructor` | engine/internal/manager/scheduler/cache/interface.go:101-106 | an empty index agrees with no clusters |
| `LabelIndex.SimpleIndexer.Add` | engine/internal/manager/scheduler/cache/interface.go:108-119 | the name is appended under each label; agreement survives iff the name had no label before |
| `LabelIndex.AddKeepsAgreementIff` | engine/internal/manager/scheduler/cache/interface.go:108-119 | adding keeps the agreement iff the name is new or carried no label |
| `LabelIndex.SimpleIndexer.Remove` | engine/internal/manager/scheduler/cache/interface.go:121-151 | the name is struck from each bucket of its labels, empty buckets go; agreement is kept |
| `LabelIndex.RemoveKeepsAgreement` | engine/internal/manager/scheduler/cache/interface.go:121-151 | removing an indexed name keeps every listing exact |
| `LabelIndex.RemoveUndoesAdd` | engine/internal/manager/scheduler/cache/interface.go:108-151 | removing what was just added restores every bucket |
| `LabelIndex.TidyIsUnique` | engine/internal/manager/scheduler/cache/interface.go:134-149 | with no empty bucket, the buckets determine the index |
| `LabelIndex.SimpleIndexer.Relabel` | engine/internal/manager/scheduler/cache/cache.go:52-56 | remove and add on an update keep the agreement for any labels |
| `LabelIndex.SimpleIndexer.GetClustersByLabel` | engine/internal/manager/scheduler/cache/interface.go:153-165 | lists each cluster with that label exactly once |
| `LabelIndex.SimpleIndexer.GetClustersByLabelKey` | engine/internal/manager/scheduler/cache/interface.go:169-191 | equals a scan of all label maps for the key |
| `LabelIndex.SimpleIndexer.Clone` | engine/internal/manager/scheduler/cache/interface.go:209-238 | a fresh object with the same contents and agreement |
| `Affinity.CheckExpression` | engine/internal/manager/scheduler/plugins/affinity/affinity.go:66-108 | In, NotIn, Exists, DoesNotExist, Gt and Lt as the program reads them; an unknown operator matches nothing |
| `Affinity.CheckTerm` | engine/internal/manager/scheduler/plugins/affinity/affinity.go:48-64 | a term matches iff all its expressions and all its fields do |
| `Affinity.AffinityFilter` | engine/internal/manager/scheduler/plugins/affinity/affinity.go:29-46 | without a requirement every cluster passes, otherwise iff some term matches |
| `Affinity.Lookup` | engine/internal/manager/scheduler/scheduler.go:970-993 | the index answers an In or Exists expression with exactly the matching clusters |
| `Affinity.PrefilterTerm` | engine/internal/manager/scheduler/scheduler.go:960-1033 | exactly the clusters matching all indexable expressions, or none when there is no such expression |
| `Affinity.PrefilterByAffinity` | engine/internal/manager/scheduler/scheduler.go:893-947 | no cluster the affinity filter admits is dropped |
| `Affinity.RunFilterPlugins` | engine/internal/manager/scheduler/framework/runtime.go:48-56 | admitted iff every filter admits |
| `Affinity.FindFeasible` | engine/internal/manager/scheduler/scheduler.go:166-183 | prefiltering preserves the feasible set for any terms, operators and other filters |
| `ClusterCache.ClusterInfo.constructor` | engine/internal/manager/scheduler/cache/interface.go:33-39 | nothing assumed, nothing requested |
| `ClusterCache.ClusterInfo.Assume` | engine/internal/manager/scheduler/cache/cache.go:124-143 | every resource of the aggregate grows by the request times the replicas, one at least; the application joins the list |
| `ClusterCache.ClusterInfo.Forget` | engine/internal/manager/scheduler/cache/cache.go:160-173 | the total leaves the aggregate and the list, nothing else |
| `ClusterCache.ClusterInfo.Times` | engine/internal/manager/scheduler/cache/cache.go:126-129 | the request of one replica times the replicas, one at least |
| `ClusterCache.AssumeKeepsAggregate` | engine/internal/manager/scheduler/cache/cache.go:105-145 | after assuming, the aggregate is the sum over the assumed applications |
| `ClusterCache.ForgetKeepsAggregate` | engine/internal/manager/scheduler/cache/cache.go:147-194 | dropping entries that are not positive loses nothing: the aggregate is still the sum |
| `ClusterCache.Cache.constructor` | engine/internal/manager/scheduler/cache/cache.go:20-25 | an empty cache |
| `ClusterCache.Cache.AddCluster` | engine/internal/manager/scheduler/cache/cache.go:27-39 | a new cluster with nothing assumed, indexed; a known name is refused |
| `ClusterCache.Cache.UpdateCluster` | engine/internal/manager/scheduler/cache/cache.go:41-58 | the new report replaces the old one, assumed applications stay, the index follows |
| `ClusterCache.Cache.RemoveCluster` | engine/internal/manager/scheduler/cache/cache.go:60-71 | the entry and its listings go, the others stay |
| `ClusterCache.Cache.AssumeApplication` | engine/internal/manager/scheduler/cache/cache.go:105-145 | assumed once per cluster, the aggregate growing by the request times the replicas, one at least; repeated or unreadable changes nothing |
| `ClusterCache.Cache.ForgetApplication` | engine/internal/manager/scheduler/cache/cache.go:147-174 | exactly this application leaves this cluster |
| `ClusterCache.Cache.RemoveAssumedApplication` | engine/internal/manager/scheduler/cache/cache.go:176-194 | the application leaves every cluster |
| `ClusterCache.Cache.Snapshot` | engine/internal/manager/scheduler/cache/cache.go:73-103 | fresh copies with the usage applied and a fresh index: later calls cannot reach them |
| `ClusterCache.SnapshotShowsReportedPlusAssumed` | engine/internal/manager/scheduler/cache/cache.go:79-92 | every resource shows the reported allocation plus the sum over the assumed applications |
| `SchedulingQueue.Queue.Add` | engine/internal/manager/scheduler/queue/queue.go:34-46 | queued once; an active key changes nothing |
| `SchedulingQueue.Queue.AddUnschedulableIfNotPresent` | engine/internal/manager/scheduler/queue/queue.go:48-61 | held back for a retry unless active |
| `SchedulingQueue.Queue.Pop` | engine/internal/manager/scheduler/queue/queue.go:63-86 | the first key with its application, or a key without one handed straight back |
| `SchedulingQueue.Queue.Done` | engine/internal/manager/scheduler/queue/queue.go:89-92 | a key marked in the meantime is queued again |
| `SchedulingQueue.Queue.Forget` | engine/internal/manager/scheduler/queue/queue.go:95-102 | the entry is gone |
| `SchedulingQueue.Queue.Requeue` | engine/internal/manager/scheduler/queue/queue.go:105-108 | held back for a retry |
| `SchedulingQueue.Queue.Update` | engine/internal/manager/scheduler/queue/queue.go:120-142 | the entry moves to the new key, queued if that was not active; an entry without application panics, after the old key is removed |
| `SchedulingQueue.Queue.Delete` | engine/internal/manager/scheduler/queue/queue.go:144-152 | the entry is gone, the work queue untouched |
| `SchedulingQueue.Queue.ScheduleOne` | engine/internal/manager/scheduler/scheduler.go:133-273 | the popped key leaves the active map iff clusters, feasibility, scores, placement and binding all succeed; otherwise it stays and is held back for a retry; in both cases it is done |
| `SchedulingQueue.Queue.Attempt` | engine/internal/manager/scheduler/scheduler.go:157-271 | Forget iff every check passes and the placement is bound, Requeue on every other path |
| `SchedulingQueue.NextKeepsDiscipline` | engine/internal/manager/scheduler/queue/queue.go:34-152 | queue, dirty and processing sets stay consistent; a key is with one scheduler at a time |
| `SchedulingQueue.StrandedIff` | engine/internal/manager/scheduler/queue/queue.go:75-82 | a step strands an active application iff a look-up hands back an entry without application while nothing is pending for it |
| `SchedulingQueue.StrandedStays` | engine/internal/manager/scheduler/queue/queue.go:34-142 | a stranded application stays so through everything but its deletion, and its empty entry stays one whose update panics |
| `SchedulingQueue.NeverStranded` | engine/internal/manager/scheduler/queue/queue.go:34-152 | in every run with proper entries each active key is queued, delayed, or with a scheduler that has yet to decide |
| `SchedulingQueue.NeverPanics` | engine/internal/manager/scheduler/queue/queue.go:120-142 | in such runs no update panics |
| `SchedulingQueue.EmptyEntryStrands` | engine/internal/manager/scheduler/queue/queue.go:48-61 | four steps from the empty queue strand a key handed in without its application |
| `SchedulingQueue.RequestKeptIff` | engine/internal/manager/scheduler/queue/queue.go:34-102 | in every run a request stays on file, with something to bring it to a scheduler, iff no successful round on its key, no deletion and no move follows |
| `SchedulingQueue.SuccessLosesRequest` | engine/internal/manager/scheduler/queue/queue.go:95-102 | the success of the round in which a request arrived loses it, whatever happens in between |
| `SchedulingQueue.AddDuringRound` | engine/internal/manager/scheduler/queue/queue.go:95-102 | with nothing in between: before the Forget a request is lost, after it the key is queued again |
| `ModuleForest.LevelIsDepth` | apiserver/pkg/model/module.go:32-52 | level equals depth, at most 5, and the path spells the names from the root |
| `ModuleForest.StrictlyUnderAChild` | apiserver/pkg/service/module.go:302-317 | what is below a module is below exactly one of its children |
| `ModuleForest.OneDistance` | apiserver/pkg/service/module.go:319-334 | a row meets a root at one distance only: no cycles |
| `ModuleForest.SubtreeRemovalPrunes` | apiserver/pkg/service/module.go:289-299 | removing a whole subtree leaves every other row its parent |
| `ModuleTree.ModuleService.constructor` | apiserver/pkg/service/module.go:23-25 | an empty forest is valid |
| `ModuleTree.ModuleService.Create` | apiserver/pkg/service/module.go:191-217 | a live parent above the level limit is required; the forest stays valid, one row is added |
| `ModuleTree.ModuleService.Update` | apiserver/pkg/service/module.go:220-262 | valid forest of the same shape; a rename moves the paths of exactly the renamed subtree |
| `ModuleTree.ModuleService.RewriteChildPaths` | apiserver/pkg/service/module.go:302-317 | every path strictly below fits afterwards, no other row changes |
| `ModuleTree.ModuleService.Delete` | apiserver/pkg/service/module.go:265-300 | refused iff a project or user refers to the subtree; otherwise exactly the subtree goes and the forest stays valid |
| `ModuleTree.ModuleService.DeleteChildren` | apiserver/pkg/service/module.go:337-352 | exactly what is strictly below goes |
| `ModuleTree.ModuleService.ChildrenOf` | apiserver/pkg/service/module.go:324-326 | the rows whose parent is listed, each once |
| `ModuleTree.ModuleService.DescendantIds` | apiserver/pkg/service/module.go:319-334 | terminates without a visited set and returns every descendant exactly once |
| `ModuleTree.ModuleService.CanAccess` | apiserver/pkg/service/module.go:60-79 | true iff the target is the root or has it among its ancestors |
| `ModuleTree.ModuleService.BuildTree` | apiserver/pkg/service/module.go:82-111 | roots and siblings by sort key, each row under its parent |
| `ModuleTree.ModuleService.SortedChildren` | apiserver/pkg/service/module.go:94-103 | the children of a parent by sort key, equal keys in any order |
| `ModuleTree.ModuleService.List` | apiserver/pkg/service/module.go:28-35 | the trees hold every module exactly once |
| `ModuleTree.ModuleService.ListScoped` | apiserver/pkg/service/module.go:38-58 | one tree rooted at the caller's module that holds exactly its subtree, each module once |
| `ModuleTree.FlattenIsSubtree` | apiserver/pkg/service/module.go:94-103 | a built tree flattens to exactly the rows under its root, each once |
| `ModuleTree.RootsAreEverything` | apiserver/pkg/service/module.go:105-110 | the trees of all roots flatten to the whole table |
| `EdgeHandshake.Hub.constructor` | engine/internal/agent/cluster/agent.go:231-240 | nothing published, nothing stored |
| `EdgeHandshake.Hub.Publish` | engine/internal/agent/cluster/agent.go:319-333 | without interference the whole set and its hash are published, or nothing when the hash is in place |
| `EdgeHandshake.Hub.ReconcileEdge` | engine/internal/manager/cluster/controller.go:144-157 | a complete set is stored and then erased with the applied hash; an incomplete one fails and changes nothing |
| `EdgeHandshake.NextKeepsInv` | engine/internal/manager/cluster/controller.go:208-302 | every step of agent and manager keeps the handshake's invariant |
| `EdgeHandshake.ClearedMeansStored` | engine/internal/manager/cluster/controller.go:240-281 | in every run, cleared credentials are in the Secret and applied equals the published hash |
| `EdgeHandshake.ErasesOnlyWhatIsStored` | engine/internal/manager/cluster/controller.go:266-277 | no published set is erased unless it is the one stored |
| `EdgeHandshake.PublishesIntactIff` | engine/internal/agent/cluster/agent.go:324-335 | a patch publishes the whole set iff nothing it leaves out was erased since its copy was read |
| `EdgeHandshake.AtomicPublicationIsIntact` | engine/internal/agent/cluster/agent.go:324-335 | read and patch without an erasure in between publish the whole set |
| `EdgeHandshake.RotationCanLoseTheCa` | engine/internal/agent/cluster/agent.go:257-280 | a run from the start publishes a new token without the CA it shares with the old set, and locks it |
| `EdgeHandshake.PublicationLocksIff` | engine/internal/agent/cluster/agent.go:324-335 | a publication, first or repeated, is locked iff its CA or token is missing, every older version of the set still readable lacks one too, and the manager is not between its check of the set and its last read |
| `EdgeHandshake.FirstPublicationLocksIff` | engine/internal/agent/cluster/agent.go:324-335 | a set published for the first time is locked iff its CA or token is missing |
| `EdgeHandshake.CompletesUnlessLocked` | engine/internal/manager/cluster/controller.go:208-302 | a published set that is not locked can be stored and erased by manager steps alone |
| `EdgeHandshake.IncompleteStays` | engine/internal/manager/cluster/controller.go:208-281 | over a run, stale reads and crashes included: while the agent offers only a locked set, the annotations stay incomplete and that set is never stored; the Secret may get an older one |
| `EdgeHandshake.HandshakeCompletes` | engine/internal/manager/cluster/controller.go:208-302 | with current reads and no other writer an intact set is stored and erased in five manager steps |
| `WorkloadSelector.Workload.constructor` | engine/internal/manager/application/controller.go:438-442 | a workload without labels or selector |
| `WorkloadSelector.Workload.ConfigureWorkload` | engine/internal/manager/application/controller.go:561-673 | the specification's selector with empty parts left out, else one of the template's stable labels for kinds that need it |
| `WorkloadSelector.Workload.PreserveLiveSelector` | engine/internal/manager/application/controller.go:533-557 | a live selector wins; an explicit different one is refused and nothing changes |
| `WorkloadSelector.Workload.ConfigureImmutablePodIdentity` | engine/internal/manager/application/controller.go:704-766 | identity and selector labels reach the template; mutable labels or failing expressions are refused |
| `WorkloadSelector.SelectorMatchesTemplate` | engine/internal/manager/application/controller.go:533-766 | on success the selector selects the template's labels, equals the live selector if there was one, and no ownership label is in either |
| `WorkloadSelector.SucceedsIff` | engine/internal/manager/application/controller.go:533-766 | the three steps succeed iff both IDs are set, an explicit selector without its empty parts equals the live one, and the selector fits the labels |
| `WorkloadSelector.SecondRoundIsStableIff` | engine/internal/manager/application/controller.go:533-766 | applying again with the resulting selector live changes nothing iff the specification has no explicit selector whose label and expression parts are both absent or empty |

## Left out

- GatewayConvergence.Converges: assumes every desired state can be adapted, as the code
  gives up on a row it cannot adapt, and no two live workspaces under one Engine name, the
  case of `ClashNeverConverges`; a row backing off after a failure counts as due.
- GatewayConvergence.AvailableRunIsSane: the writes of observed state are not modelled; in
  the code they also refresh `updated_at` and so can postpone the back-off of a failed row.
- GatewaySteps.CommitsStayInScope: an update is judged by the copy it read; `UpdatesStayInScope` adds
  the row at the moment of the write.
- GatewayIdempotency.UpdateReplaysIff: for any copy and child count read earlier; `UpdateReplaysNowIff`
  is the case of a present read.
- GatewayHierarchy.HierarchyOverRuns: excludes the adoption race; `TreeUntilOrphaned` is the
  exact statement about the tree.
- GatewayServed.ServedOverRuns: excludes runs in which a third early failure hits the only
  delete event of a row, the exact exception that `ServedKeptIff` names.
- ResourceGatewayService.ResourceGateway.ReconcileOne: one pass without interleaving;
  `PassIsSteps` makes it one of the step relation's runs, which interleave.
- ResourceGatewayService.ResourceGateway.EnsureRow: one round of the repair loop for one row;
  the loop over all rows, which stops at the first error, is a sequence of such rounds.
- Scoring.CalculateMaxReplicas: quantities are whole thousandths.
- Spread.SelectClustersSpread: float64 rounding and 32-bit overflow are not modelled, and at
  least one cluster is scored, as filtering guarantees.
- WaterFill.SelectClustersStatefulSetWaterfill: 32-bit overflow is not modelled beyond the
  default capacity.
- WaterFill.OwnerIsRange: all clusters of the placement are reachable; the controller's
  skipping of unreachable clusters and its pauses are not modelled.
- LabelIndex.SimpleIndexer.Clone: labels and buckets are values here, so sharing a map with the
  cluster object that was added cannot be expressed.
- ClusterCache.Cache.UpdateCluster: updates keep the cluster's name.
- SchedulingQueue.NeverStranded: shutdown, the rate limiter's delays and the fixed delay of
  RequeueAfter are not modelled; entries carry the key they are stored under.
- EdgeHandshake.NextKeepsInv: client certificates, which the agent never publishes, and base64
  are not modelled; nobody but agent and manager writes credential annotations.
- WorkloadSelector.SelectorMatchesTemplate: selectors are well typed; overrides applied later are
  not modelled.
- ModuleTree.ModuleService.Delete: the reference counts and the removal are one step.
- Isolation weaker than serialisable, JSON and error texts of the gateway, and observed state.
- HTTP handlers, authentication, middleware, SQL text, command line tools, metrics, tracing,
  Helm add-ons, tunnels, generated code: plumbing without state of its own.
- Replica calculation modes, topology spread, the other filter and score plugins, sharding and
  the Engine adapter: single functions or field copying.
