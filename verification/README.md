# Unio Gateway: a Dafny model of its commit protocols, ledgers, billing and stream watchdog

This project states and proves what the hard parts of the gateway promise. Each protocol
appears twice: as functions over values, on which runs and invariants are defined, and, where
the Go code changes fields or rows step by step, as a class whose methods are proved against
those functions. `dafny verify dfyconfig.toml` verifies everything.

## What is modelled

**Publication of runtime controls** (`ControlScripts`, `Publication`, `PublicationRuns`,
`Reachability`, `PublisherService`, `Recovery`, `Stranded`). PostgreSQL rows and operations,
Redis controls and operation keys, and any number of publishers, reconcilers and restorers, each
between two of its own statements. Replies may be lost, processes may stop, Redis may lose
a control or let a key expire, and a token may be published again at any time. The Redis steps
are the repository's own Lua scripts and the PostgreSQL steps its own queries.

**The state epoch** (`StateEpoch`, `StateEpochInvariant`, `StateEpochRuns`,
`StateEpochFalls`, `StateEpochCoordinator`, `StateEpochProgress`). One row, one open operation, one integrity marker, any number of
coordinators.

**Provider routing fences** (`ProviderControls`, `ProviderRuns`, `ProviderGuarantees`,
`ProviderPublisher`, `ProviderRecovery`, `ProviderWorker`, `ProviderExamples`,
`ProviderCombinations`, `ProviderStranded`). Origin and status
changes, the six fence scripts, the two restore scripts, archiving, and the reconciler with its
start-up and its periodic mode. A step happens whenever the guards of its own statement allow
it, which covers every order, crash and retry the code can produce, and more.

**The infrastructure fault latch** (`FaultLatch`, `FaultLatchRuns`, `FaultLatchErasures`,
`FaultLatchClears`). A mutex-guarded latch in
every process, publications on their way to Redis, one shared token, and the clear that follows
a reconciliation.

**The customer ledger** (`Ledger`, `LedgerInvariant`, `LedgerRuns`, `LedgerOutcomes`, `LedgerService`,
`PostingRace`, `PostingAlone`) and **the provider ledger** (`ProviderLedger`, `ProviderLedgerRuns`,
`ProviderLedgerOutcomes`, `ProviderLedgerService`). An operation of the ledger is one transaction; `PostingRace` opens the
transactions of credits and debits up into their statements.

**Usage, pricing, charging, margin and routing** (`Money`, `Usage`, `Pricing`, `Charging`,
`ChargingParts`, `Margin`, `Routing`, `RoutingCosts`). Rates are exact; an amount is an integer number of units of 10^-10.

**The stream watchdog** (`Watchdog`). Three timers, a clock, and callbacks that run after their
timer has expired.

Scaling relies on the tables for one thing: a negative rate close to zero would be cut off to zero
and so accepted (`Pricing.ScaledPriceNormalizesIff`, `Pricing.NegativeRateSlipsThrough`). No caller
can supply one, since every base price that is scaled comes from a table that refuses negative rates
(migrations/000028_model_prices.up.sql:52-61).

Abstractions that hold throughout: a SHA-256 hash, a random token, a Redis run id and a JSON text
are values, equal only if what they stand for is equal; the text PostgreSQL returns for a `jsonb`
column is a value of its own, which may differ from the text that was hashed. What no statement
reads is not there: times of rows, reasons, `last_terminal`, breaker windows. Ledger amounts
are finite, with at most ten decimals, and stay below the column's limit, at which the row is
refused as in the source.

## What the proofs found

* Publication keeps its promise in every run: Redis shows only what PostgreSQL has
  committed, no business transaction commits twice, no operation is both durable and aborted.
  But:
  * when the reply to the business transaction's own COMMIT is lost, the publisher aborts the
    Redis side of an operation that is durable. No reconciler can finish it until the Redis
    operation key expires (`Stranded.LostCommitReplyStrands`, and
    `Stranded.StrandedOperationsExist` for a run that gets there);
  * recording an operation does not compare it with the row: an operation left behind on an
    outdated row makes every reconcile pass fail and its target unusable until a publisher aborts
    it (`Stranded.StaleOperationFreezesItsTarget`, `Stranded.StaleOperationsExist`);
  * a retry of a prepared operation whose control was lost while its key stands moves the row
    although no fence is up; the control shows the new version only after a restore
    (`PublisherService.Publisher.Publish`);
  * internal/core/runtimecontrol/publisher.go:166 calls "Redis committed, PostgreSQL not"
    impossible. With two publishers of one token the branch is reached, but by then PostgreSQL is
    durable (`PublicationRuns.PrepareSeesCommittedOnlyAfterPostgres`).
* The row never regresses and the coordinators' reports agree; the marker can regress. One that is at
  a revision, ready for it or fenced on the way there, keeps it all along a stretch of a run if and
  only if it is not lost and no coordinator that found nothing to do installs an older record over
  it (`StateEpochFalls.MarkerStaysIffNeverLowered`). An identity older than one already shown comes
  back in two ways and no other (`StateEpochFalls.ShowsOldIff`): by such an installation, which
  replaces a ready marker, a lost one or a standing fence alike (`MarkerCanFallBack`,
  `OldRecordReplacesLostMarker`, `OldRecordReplacesFence`), or by the commit script of an old
  operation whose fence stands, which it does only where the marker was lost or had fallen back
  (`OldFencesFollowOldMarkers`, `EndedOperationComesBack`). Readiness then stays closed until the marker is put right.
* Without a loss of the marker and without such an installation a start-up can always get through
  (`StateEpochProgress.StartUpCanGetThrough`). A marker lost between its commit and the end of its
  operation stops every start-up until the operation's Redis key has expired
  (`StateEpochProgress.LossStopsStartUpsIff`, `StateEpochProgress.LostMarkerStopsStartUps`).
* Provider routing commits each half (origin, status) correctly, but:
  * the two halves of a gate can show a combination no row version ever had
    (`ProviderCombinations.GateShowsUnheldCombination`). Only a commit script can bring that
    about (a gate that returns after a loss never does, `ProviderCombinations.ReturningGateIsHeld`),
    and it does exactly when the other half of the gate is not the row's, or, for a commit that
    comes late, not one the row had together with the half this operation moved
    (`ProviderCombinations.CommittedIsHeldIff`, `ProviderCombinations.OpenedIsHeldIff`,
    `ProviderCombinations.OnlyCommitsSeparateHalves`);
  * a fence outlives its operation when the operation is found `preparing`, when the text of the
    `jsonb` column differs from the text that was hashed (PostgreSQL prints `jsonb` with its own
    key order and blanks, the publisher hashes Go's compact form:
    migrations/000008_provider_routing_operations.up.sql:15,
    internal/core/runtimecontrol/provider_publisher.go:42-51,
    internal/core/runtimecontrol/provider_reconciler.go:88), or when the reconciler's commit call
    never arrived; from then on periodic passes fail and every new change is turned away
    (`ProviderRecovery.FenceOutlivesItsOperation`, `UnheardCommitOrphansItsFence`,
    `OrphanedFenceBlocks`; `ProviderStranded` has a run for each). The start-up mode takes such a fence down;
  * an origin change whose status half was read too early commits and then cannot be
    reconciled by either mode (`ProviderStranded.StaleHalfGetsStuck`,
    `ProviderStranded.StuckFreezesItsProvider`);
  * a publication that Redis turns away leaves its operation open, because the abort of a fence
    that was never put up is answered `conflict` (`ProviderPublisher.Publisher.Publish`).
* A clear erases only the token it read, but a newer fault can still vanish from the shared key
  when a publication of that token arrives late. A clear about to delete can do this to a fault
  still to come if and only if a replacing publication of its token is on its way and the server
  has not been restarted (`FaultLatchErasures.LosesNewerIff`); once that publication has landed,
  every later fault is safe from it (`FaultLatchErasures.NewerFaultIsSafeOnceLanded`). The process that
  found the fault stays closed.
* `SubtractUserBalance` demands the amount from what is not reserved
  (sql/queries/shared/user_balances.sql:94-104), so 0 <= reserved <= balance holds in every run,
  with direct debits too.
* The replay of a capture answers as the first call did if and only if nobody else has taken the
  derived key `<key>:overage` (`LedgerRuns.OriginalReplay`, `LedgerRuns.ForeignEntryBreaksReplay`).
  With such an entry even a larger bill can be accepted: exactly when the first bill used up the
  reservation to the unit and the larger one asks no more than the foreign amount on top
  (`LedgerRuns.ReplaysAgree`, `LedgerRuns.LargerBillAccepted`). Nothing is written then either.
* Usage whose output is not applicable but whose reasoning is known passes validation and bills a
  negative number of output tokens (`Usage.ReasoningExceedsOutputIff`).
* `SetTargetBalance` reaches its target exactly if the target has at most ten decimals; the keyed
  retry of any other target is a conflict (`ProviderLedgerRuns.TargetIsReachedIff`,
  `ProviderLedgerRuns.TargetRetry`).

## Model

| member | source | states |
|---|---|---|
| PublicationRuns.RedisShowsCommittedVersions | internal/core/runtimecontrol/publisher.go:90-237 | in every state of every run the active version of a control is one PostgreSQL has committed and is not ahead of the row |
| PublicationRuns.CommittedWasTheRow | internal/core/runtimecontrol/publisher.go:207-230 | a version recorded as committed really was the business row at an earlier moment of the run |
| PublicationRuns.BusinessCommitsAtMostOnce | internal/core/runtimecontrol/publisher.go:104-153 | whatever the number of publishers and retries, one token's business transaction is committed at most once |
| PublicationRuns.NeverBothCommittedAndAborted | internal/core/runtimecontrol/reconciler.go:112-140 | an operation that was durable at one moment is never aborted at another |
| PublicationRuns.RowsMoveOnlyByCommits | internal/core/runtimecontrol/publisher.go:208-230 | a business row changes only in a business transaction of a prepared operation, from its current to its next version |
| PublicationRuns.RevisionCountsCommits | internal/core/runtimecontrol/publisher.go:208-230 | a target's revision is its first one plus the number of its operations that became durable |
| PublicationRuns.PrepareSeesCommittedOnlyAfterPostgres | internal/core/runtimecontrol/publisher.go:165-171 | the prepare script answers committed only for an operation PostgreSQL already holds as durable |
| PublicationRuns.ReportedCommittedIsDurable | internal/core/runtimecontrol/publisher.go:200-205 | a publication reported as committed is durable |
| PublicationRuns.ControlFallsIffLowered | internal/platform/breakerstore/runtimecontrol.go:98-266 | a control leaves a revision in one step exactly by being lost or by a start-up restorer that replaces it by an older version |
| PublicationRuns.ActiveRevisionNeverFalls | internal/platform/breakerstore/runtimecontrol.go:98-266 | over any stretch of a run a control keeps a revision if and only if no step lowers it like that |
| PublicationRuns.OneOpenOperation | migrations/000039_runtime_control_operations.up.sql:391-399 | a target has at most one open operation, and a db_committed one still holds the row |
| PublisherService.Publisher.CreateOrLoad | internal/core/runtimecontrol/publisher.go:104-153 | inserts the operation or loads the one of this token, and refuses another immutable request; without faults exactly when |
| PublisherService.Publisher.CommitBusinessRow | internal/core/runtimecontrol/publisher.go:208-230 | row and operation move together or not at all, and may have moved although the reply is lost |
| PublisherService.Publisher.MarkAndCommit | internal/core/runtimecontrol/publisher.go:173-205 | with the fence up the row decides: both stores at the next version, or the operation aborted and the fence taken down |
| PublisherService.Publisher.CommitOrAbort | internal/core/runtimecontrol/publisher.go:187-205 | the business transaction and what follows its answer, from a prepared operation with or without its fence |
| PublisherService.Publisher.FinishCommit | internal/core/runtimecontrol/publisher.go:193-204 | from a durable operation the answer is committed or pending; without faults on a prepared fence, committed with the new version active |
| PublisherService.Publisher.AbortOperation | internal/core/runtimecontrol/publisher.go:232-237 | best effort abort of both stores; a durable operation stays durable |
| PublisherService.Publisher.Publish | internal/core/runtimecontrol/publisher.go:90-205 | from any reachable stores and with any faults the row moves only with the operation, nothing else changes and each answer is true of PostgreSQL; without faults the exact end of every call: a first call or a retry of a preparing or prepared operation, stopped at any point, commits row and control to the next version if its fence is or can be put up and the row is where it starts, and otherwise ends as row and control decide; a db_committed retry with its fence commits; an ended, foreign or invalid call writes nothing |
| Recovery.ReconcilesIffRecoverable | internal/core/runtimecontrol/reconciler.go:51-110 | an open operation is reconciled exactly when a condition on row, control and operation key holds; then row and control agree and the end is the one PostgreSQL had decided |
| Recovery.ReconcileOpIsSteps | internal/core/runtimecontrol/reconciler.go:51-110 | reconciling one operation is a path of the protocol's own steps |
| Recovery.Worker.ReconcileOne | internal/core/runtimecontrol/reconciler.go:60-107 | statement by statement, with faults, what ReconcileOp says, or an error |
| Recovery.Worker.Reconcile | internal/core/runtimecontrol/reconciler.go:51-110 | a pass without error ends every listed operation; without faults it fails only if one was not recoverable |
| Recovery.Worker.RestoreOne | internal/bootstrap/runtime_control_recovery.go:257-295 | restores a missing control, or replaces any at start-up, and succeeds exactly when the control then shows the row |
| Recovery.Worker.Pass | internal/bootstrap/runtime_control_recovery.go:178-295 | without error everything is terminal and every control shows its row with nothing pending; without faults the pass fails exactly when an operation is unrecoverable or, in periodic mode, an unexplained control differs |
| Stranded.LostCommitReplyStrands | internal/core/runtimecontrol/publisher.go:187-191 | a lost COMMIT reply leaves an operation no reconciler can finish until its Redis key expires, and every one can afterwards |
| Stranded.StrandedOperationsExist | internal/core/runtimecontrol/publisher.go:187-191 | a reachable state with such an operation |
| Stranded.StaleOperationsArise | internal/core/runtimecontrol/publisher.go:104-119 | an operation that does not start from the current row can be recorded on every free target |
| Stranded.StaleOperationsExist | internal/core/runtimecontrol/publisher.go:104-119 | a reachable state with such an operation |
| Stranded.StaleOperationFreezesItsTarget | internal/core/runtimecontrol/reconciler.go:60-85 | unless it is aborted, such an operation keeps the row, keeps out every other operation and fails every reconcile pass |
| StateEpoch.TablesAgree | internal/core/runtimecontrol/state_epoch_seeder.go:463-488 | the coordinator's marker table and the script's accept the same markers |
| StateEpochRuns.MarkerFollowsPostgres | internal/core/runtimecontrol/state_epoch_seeder.go:149-245 | the marker is ready for an epoch only after its operation was db_committed, and never ahead of the row |
| StateEpochRuns.RowReadyFollowsMarker | internal/core/runtimecontrol/state_epoch_seeder.go:346-425 | the row turns ready only after the marker was ready for the same identity |
| StateEpochRuns.RowMovesByOne | internal/core/runtimecontrol/state_epoch_seeder.go:269-335 | the row appears at revision 1, turns ready, or goes from ready to the next revision with another epoch; nothing else |
| StateEpochRuns.OneOperationOpen | migrations/000039_runtime_control_operations.up.sql:396-399 | at most one epoch operation is open, and there is one while the row is recovering |
| StateEpochRuns.ReportsAgree | internal/core/runtimecontrol/state_epoch_seeder.go:78-147 | whatever two coordinators report, equal revisions mean equal epochs, and no report is ahead of the row |
| StateEpochRuns.ReadyReportsAreProved | internal/core/runtimecontrol/state_epoch_seeder.go:78-147 | a ready report of a ready row follows a moment at which the marker was ready for it |
| StateEpochFalls.MarkerFallsIffLowered | internal/core/runtimecontrol/state_epoch_seeder.go:120-147 | a marker at a revision, ready or fenced, leaves it in one step exactly by being lost or by the installation of an older record |
| StateEpochFalls.MarkerStaysIffNeverLowered | internal/core/runtimecontrol/state_epoch_seeder.go:78-245 | the same over any stretch of a run |
| StateEpochFalls.FallenMarkerWasLowered | internal/core/runtimecontrol/state_epoch_seeder.go:78-245 | a marker once ready for a revision and later found below it was lowered in between |
| StateEpochFalls.ShowsOldIff | internal/platform/breakerstore/lua/ops/epoch_commit.lua:1-96 | a step that makes the marker ready shows something older than it has shown before if and only if it installs a record that old or commits an operation that old whose fence stands |
| StateEpochFalls.OldFencesFollowOldMarkers | internal/platform/breakerstore/lua/ops/epoch_prepare.lua:1-178 | a fence is put up by its own operation, on a missing marker or on what it starts from; one that leads back stands where the marker was lost or had fallen back |
| StateEpochFalls.MarkerCanFallBack | internal/platform/breakerstore/integrity.go:154-176 | a run in which an old record replaces a newer ready marker |
| StateEpochFalls.OldRecordReplacesLostMarker | internal/platform/breakerstore/lua/ops/epoch_reconcile_ready.lua:10-36 | a run in which it is installed after the marker was lost |
| StateEpochFalls.OldRecordReplacesFence | internal/platform/breakerstore/lua/ops/epoch_reconcile_ready.lua:10-36 | a run in which it replaces the fence of the next epoch |
| StateEpochFalls.EndedOperationComesBack | internal/platform/breakerstore/lua/ops/epoch_prepare.lua:1-178 | a run in which a late prepare and a late commit of an ended operation show its epoch again, with nobody installing a record |
| StateEpochCoordinator.Coordinator.Record | internal/core/runtimecontrol/state_epoch_seeder.go:247-267 | the expectation is a compare-and-set on the operation that was read |
| StateEpochCoordinator.Coordinator.AdvanceRow | internal/core/runtimecontrol/state_epoch_seeder.go:269-335 | row and operation advance in one transaction |
| StateEpochCoordinator.Coordinator.Finalize | internal/core/runtimecontrol/state_epoch_seeder.go:337-425 | the row turns ready and the operation committed together, after the marker |
| StateEpochCoordinator.Coordinator.Reconcile | internal/core/runtimecontrol/state_epoch_seeder.go:149-245 | drives the open operation to a ready epoch, without faults exactly when its fence can be put up |
| StateEpochCoordinator.Coordinator.Ensure | internal/core/runtimecontrol/state_epoch_seeder.go:78-147 | nothing durable is taken back; ready means that row, operations and marker agree on the goal; without faults it is ready exactly from startable stores |
| StateEpochCoordinator.FenceableIff | internal/core/runtimecontrol/state_epoch_seeder.go:463-488 | the markers and operation keys an open operation can go on from, written out |
| StateEpochProgress.StartUpCanGetThrough | internal/core/runtimecontrol/state_epoch_seeder.go:78-147 | in every run, however many coordinators failed, crashed or overlapped and whichever operation keys expired, the next start-up can get through, unless the marker was lost or an installation replaced it |
| StateEpochProgress.LossStopsStartUpsIff | internal/platform/breakerstore/lua/ops/epoch_prepare.lua:83-86 | losing the marker in such a run stops every start-up exactly if an open operation has committed its key |
| StateEpochProgress.LostMarkerStopsStartUps | internal/platform/breakerstore/lua/ops/epoch_prepare.lua:83-86 | a reachable state in which every start-up fails |
| ProviderControls.ValidEnvelopeIffOneChange | internal/core/runtimecontrol/provider_publisher.go:73-93 | an envelope is valid exactly when it is a change of one half of some row, and applying it gives what it announces |
| ProviderControls.FenceRoundTrip | internal/platform/breakerstore/lua/ops/prepare_origin.lua:1-42 | prepare succeeds exactly on a free gate at the right revision; abort restores the gate, commit moves the named half only; each can be repeated, shuts out the other, and ignores another payload |
| ProviderRuns.ReachableHasInv | internal/core/runtimecontrol/provider_publisher.go:142-269 | in every run: logs move one half at a time, durable operations are recorded, gates and keys belong to recorded operations, one open operation per provider |
| ProviderRuns.ApplyKeeps | internal/core/runtimecontrol/provider_publisher.go:142-269 | each step keeps that and rewrites no outcome |
| ProviderRuns.Attempt | internal/platform/breakerstore/originfence.go:110-163 | one call to a store, which may fail before or after it took effect |
| ProviderGuarantees.GateShowsCommittedHalves | internal/platform/breakerstore/originfence.go:110-163 | each half of a gate is one PostgreSQL has committed and is not ahead of the row |
| ProviderGuarantees.FenceMovesByOne | internal/platform/breakerstore/lua/ops/commit_origin.lua:1-24 | a fence belongs to a recorded operation of its provider and moves the half it names by one |
| ProviderGuarantees.BusinessCommitsOnce | internal/core/runtimecontrol/provider_publisher.go:203-235 | an operation is durable exactly when its business transaction is in the log, where it is once |
| ProviderGuarantees.OutcomesAreFinal | sql/queries/shared/provider_routing_operations.sql:19-38 | a durable operation is never aborted later, an ended one never changes, no version is rewritten |
| ProviderGuarantees.RevisionsCountOperations | internal/service/admin/provider/fence.go:84-160 | origin and status revisions are one plus the committed operations of that kind, plus archivings and restorings for the status |
| ProviderCombinations.OpenedIsHeldIff | internal/platform/breakerstore/lua/ops/commit_origin.lua:15-24 | letting a durable operation's fence through, however late, leaves a combination the row has had if and only if the gate's other half lies where the row's was while it had this operation's revision |
| ProviderCombinations.CommittedIsHeldIff | internal/platform/breakerstore/lua/ops/commit_origin_status.lua:15-32 | while the operation is db_committed: if and only if the gate's other half is the row's |
| ProviderCombinations.OnlyCommitsSeparateHalves | internal/platform/breakerstore/originfence.go:110-163 | every other step on a gate keeps it at a combination the row has had |
| ProviderCombinations.ReturningGateIsHeld | internal/platform/breakerstore/originfence.go:12-62 | a gate that comes into being, or returns after a loss, shows such a combination |
| ProviderCombinations.GateShowsUnheldCombination | internal/core/runtimecontrol/provider_reconciler.go:105-122 | a run whose commit script meets a gate with another half and leaves a pair of revisions no row version had |
| ProviderPublisher.Publisher.AbortUncommitted | internal/core/runtimecontrol/provider_publisher.go:249-269 | the operation is aborted only if Redis answers aborted; a durable one stays durable |
| ProviderPublisher.Publisher.FinishRedisCommit | internal/core/runtimecontrol/provider_publisher.go:237-247 | committed exactly when the commit script answers committed, and then the gate is the opened one |
| ProviderPublisher.Publisher.MarkAndCommit | internal/core/runtimecontrol/provider_publisher.go:186-235 | with the fence up and no fault: committed exactly if the row still starts there, otherwise the gate is given back and the operation closed |
| ProviderPublisher.Publisher.PrepareAndCommit | internal/core/runtimecontrol/provider_publisher.go:170-200 | a first call without fault ends as gate and row decide |
| ProviderPublisher.Publisher.Publish | internal/core/runtimecontrol/provider_publisher.go:142-201 | from any reachable stores and with any faults: one new row version at most and only with a durable operation, nothing else changes, answers true of PostgreSQL, and the exact outcome of a first call and of a durable retry |
| ProviderRecovery.ReconcilesIffOtherHalfCurrent | internal/core/runtimecontrol/provider_reconciler.go:76-126 | an open operation fails to reconcile exactly when its transaction went through although the other half of the row had moved |
| ProviderRecovery.QuietAfterReconciling | internal/core/runtimecontrol/provider_reconciler.go:88-124 | exactly which gates agree with their row once their operation has been reconciled |
| ProviderRecovery.FenceOutlivesItsOperation | internal/core/runtimecontrol/provider_reconciler.go:91-104 | a fence stays up under a preparing operation, or under a text that differs from the hashed one |
| ProviderRecovery.WentOnRecovers | internal/core/runtimecontrol/provider_reconciler.go:117-124 | after a failed commit call the reconciler goes on; what it leaves is no better than a heard call would have left it |
| ProviderRecovery.UnheardCommitOrphansItsFence | internal/core/runtimecontrol/provider_reconciler.go:117-124 | a commit call that never arrived leaves its fence under a committed operation |
| ProviderRecovery.OrphanedFenceBlocks | internal/core/runtimecontrol/provider_reconciler.go:152-157 | under a fence without open operation the gate disagrees and every first prepare is turned away |
| ProviderWorker.Worker.ReconcileOne | internal/core/runtimecontrol/provider_reconciler.go:76-126 | one operation, statement by statement and with faults |
| ProviderWorker.Worker.Reconcile | internal/core/runtimecontrol/provider_reconciler.go:55-74 | without error every listed operation has ended as PostgreSQL had decided |
| ProviderWorker.Worker.RestoreOne | internal/core/runtimecontrol/provider_reconciler.go:128-163 | succeeds, without faults, exactly if it may replace the gate or the gate was missing or right |
| ProviderWorker.Worker.Pass | internal/core/runtimecontrol/provider_reconciler.go:55-163 | without error every operation is terminal and every gate shows its row with nothing pending; without faults the exact condition for each mode |
| ProviderStranded.FencedWhilePreparing | internal/core/runtimecontrol/provider_reconciler.go:90-104 | a reachable fence that outlives its preparing operation |
| ProviderStranded.FencedUnderAnotherText | internal/core/runtimecontrol/provider_reconciler.go:88-101 | a reachable fence that outlives its prepared operation because the stored text differs |
| ProviderStranded.FencedAndDurable | internal/core/runtimecontrol/provider_reconciler.go:117-124 | a reachable fence that a commit call which never arrives leaves under a committed operation |
| ProviderStranded.StaleHalfGetsStuck | internal/service/admin/provider/fence.go:64-93 | an origin change that read the status half too early commits and cannot be reconciled |
| ProviderStranded.StuckFreezesItsProvider | internal/core/runtimecontrol/provider_reconciler.go:105-109 | until somebody marks it committed, such an operation keeps the row, keeps out every other one and fails both kinds of pass |
| FaultLatch.LocalLatch.Raise | internal/platform/breakerstore/runtime_fault.go:32-39 | a confirmed fault opens a new generation with a new token |
| FaultLatch.LocalLatch.RaiseIfClear | internal/platform/breakerstore/runtime_fault.go:41-51 | a repeated fault keeps generation and token |
| FaultLatch.LocalLatch.DeleteShared | internal/platform/breakerstore/runtime_fault.go:96-130 | refuses after a newer local fault; without faults opens the local latch exactly if there is none, server and proof are the clear's own and the shared key is empty or holds the token read; a failed call may have erased the token |
| FaultLatchClears.DeleteOpensIff | internal/platform/breakerstore/lua/ops/runtime_fault_latch_delete.lua:1-17 | the same in any state of a run, with what the server and the process are left as |
| FaultLatchClears.UndisturbedClearOpens | internal/platform/breakerstore/runtime_fault.go:164-321 | from any state an undisturbed clear, from Begin to Delete, leaves its process open and the server admitting |
| FaultLatchRuns.StepKeeps | internal/platform/breakerstore/runtime_fault.go:32-130 | every step of latches, publications and clears keeps the invariant over the event log |
| FaultLatchRuns.AdmitsOnlyAfterNewerReconciliation | internal/platform/breakerstore/runtime_fault.go:86-130 | after a latch a process passes its local check only if a clear opened it whose reconciliation began after the latch |
| FaultLatchRuns.TokensNeverRepeat | internal/platform/breakerstore/runtime_fault.go:28-51 | no two faults share a token |
| FaultLatchRuns.ErasesOnlyWhatItRead | internal/platform/breakerstore/runtime_fault.go:164-188 | a clear erases only the token that was shared at its own Begin, and that fault had been latched before |
| FaultLatchRuns.RestartClosesAdmission | internal/platform/breakerstore/lua/ops/runtime_fault_clear_commit.lua:1-107 | after a Redis restart nothing is admitted before a clear begun on the new server has proved it |
| FaultLatchErasures.NewerFaultIsErasedOnlyIfOverwritten | internal/platform/breakerstore/runtime_fault.go:69-84 | a clear erases another token than the latest published one only if that one was removed or overwritten by a late publication |
| FaultLatchErasures.NewerFaultIsSafeOnceLanded | internal/platform/breakerstore/runtime_fault.go:69-84 | from a state, say the clear's read, in which no replacing publication of a found token is on its way, no fault published later is erased by a clear of that token without a removal in between |
| FaultLatchErasures.LosesNewerIff | internal/platform/breakerstore/runtime_fault.go:96-130 | a clear about to delete can still erase a newer fault if and only if a replacing publication of its token is on its way and its server still runs |
| FaultLatchErasures.NewerFaultCanBeErased | internal/platform/breakerstore/runtime_fault.go:75-84 | a run in which that happens |
| LedgerInvariant.ApplyKeeps | internal/core/ledger/reservation.go:74-486 | every ledger operation, whatever it answers, keeps balances, holds, entries, keys and exceptions consistent |
| LedgerRuns.BalancesAddUp | internal/core/ledger/reservation.go:74-486 | after every run balance is credits minus debits, reserved is the sum of open holds, and 0 <= reserved <= balance |
| LedgerRuns.ChainIsUnbroken | internal/core/ledger/entry.go:74-150 | an account's entries form an unbroken chain that ends at its balance |
| LedgerRuns.EndedReservationsNeverChange | internal/core/ledger/reservation.go:438-486 | no later operation changes a captured or released reservation |
| LedgerRuns.PostingIsIdempotent | internal/core/ledger/entry.go:275-325 | a posting repeated at any later time answers the same entry and moves nothing; the same key with other parameters is turned down and moves nothing |
| LedgerRuns.DebitIsIdempotent | internal/core/ledger/entry.go:203-262 | the same for debits |
| LedgerRuns.CaptureConserves | internal/core/ledger/reservation.go:250-362 | a first capture: actual = captured + overage + residual, the whole hold is freed, a write-off exactly for a positive residual and then nothing is available, and no other balance moves |
| LedgerRuns.CapturePosts | internal/core/ledger/reservation.go:250-362 | the one or two entries it posts, with their keys and amounts |
| LedgerRuns.FirstCaptureSucceedsIff | internal/core/ledger/reservation.go:169-363 | it succeeds exactly when the keys it needs are free and the amount can be stored |
| LedgerRuns.OriginalReplay | internal/core/ledger/reservation.go:195-248 | the original call repeated at any time writes nothing, and answers as before if and only if no foreign entry has the derived overage key |
| LedgerRuns.ReplaysAgree | internal/core/ledger/reservation.go:195-248 | a replay of any amount, at any time, writes nothing; exactly which are accepted; an accepted one answers the first captured and collected amounts if and only if no foreign entry has the derived key; without one every larger bill is turned down |
| LedgerRuns.LargerBillAccepted | internal/core/ledger/reservation.go:202-236 | a concrete history in which a larger bill passes as a replay |
| LedgerRuns.ForeignEntryBreaksReplay | internal/core/ledger/reservation.go:555-557 | a concrete history in which the original call is refused |
| LedgerOutcomes.CreditOutcome | internal/core/ledger/entry.go:74-150 | when a first credit succeeds, and the one entry and balance it then changes |
| LedgerOutcomes.DebitOutcome | internal/core/ledger/entry.go:203-262 | when a first debit succeeds, when it is short of balance, and what it changes |
| LedgerOutcomes.OnlyTheSamePostingIsAnswered | internal/core/ledger/entry.go:275-325 | at any later time a key answers the posting that took it and no other, by credit or debit |
| LedgerOutcomes.HoldOutcome | internal/core/ledger/reservation.go:74-133 | when a first hold succeeds; it then reserves exactly the smaller of the estimate and what is not reserved, and a partial one leaves nothing available |
| LedgerOutcomes.HoldIsIdempotent | internal/core/ledger/reservation.go:489-532 | repeated at any later time a hold answers its reservation as it then is and writes nothing; with other parameters it is a conflict |
| LedgerOutcomes.ReleaseOutcome | internal/core/ledger/reservation.go:438-486 | an open reservation is always released: reserved falls by the authorized amount, every balance and every other account and reservation stays; a released one is answered again, a captured, unknown or other one refused |
| LedgerOutcomes.ReleaseIsIdempotent | internal/core/ledger/reservation.go:438-486 | repeated at any later time a release answers the same and writes nothing |
| LedgerOutcomes.ExposureOutcome | internal/core/ledger/reservation.go:393-428 | a release with an exposure frees the hold alike and records the authorized amount as a risk unless there is an exception already |
| LedgerOutcomes.ExposureIsRecordedOnce | internal/core/ledger/reservation.go:393-428 | repeated at any later time it answers the same and writes nothing |
| LedgerOutcomes.CaptureRefusals | internal/core/ledger/reservation.go:137-248 | what a capture refuses, a released hold among it, with nothing written |
| LedgerService.Database.ReserveAvailable | sql/queries/shared/user_balances.sql:216-240 | reserves the smaller of what is asked and what is left, or nothing |
| LedgerService.Database.SubtractBalance | sql/queries/shared/user_balances.sql:94-104 | takes only from what is not reserved |
| LedgerService.Database.CaptureReserved | sql/queries/shared/user_balances.sql:131-149 | takes the captured amount and frees the whole hold |
| LedgerService.Database.CollectBalanceOverage | sql/queries/shared/user_balances.sql:169-214 | collects the excess as far as the balance goes |
| LedgerService.Database.PostCredit | internal/core/ledger/entry.go:74-150 | statement by statement, with rollback, the credit of the specification |
| LedgerService.Database.PostDebit | internal/core/ledger/entry.go:203-262 | the debit |
| LedgerService.Database.PreAuthorize | internal/core/ledger/reservation.go:74-133 | the hold, its conflict and its unavailable case |
| LedgerService.Database.Capture | internal/core/ledger/reservation.go:137-248 | first capture or replay, rolled back on failure |
| LedgerService.Database.FirstCapture | internal/core/ledger/reservation.go:250-362 | debit of the hold, overage, write-off |
| LedgerService.Database.CaptureHold | internal/core/ledger/reservation.go:250-305 | balance, entry and reservation of the hold, with its error cases |
| LedgerService.Database.CollectOverage | internal/core/ledger/reservation.go:305-362 | what is collected beyond the hold, its entry and its write-off |
| LedgerService.Database.Release | internal/core/ledger/reservation.go:438-486 | the release of the specification, statement by statement (LedgerOutcomes.ReleaseOutcome says what it does) |
| LedgerService.Database.ReleaseWithException | internal/core/ledger/reservation.go:393-428 | and records a risk exposure once (LedgerOutcomes.ExposureOutcome) |
| PostingRace.OneEntryPerKey | internal/core/ledger/entry.go:74-262 | however many credits and debits race for a key, one entry is committed, and all that succeed answer it |
| PostingRace.BalancesFollowEntries | internal/core/ledger/entry.go:74-262 | at every moment committed balances are what committed entries add up to, and not negative |
| PostingRace.OnlyCommitsMoveMoney | internal/core/ledger/entry.go:74-262 | only a commit changes anything, by one entry and its amount |
| PostingRace.LaterCallWithOtherParameters | internal/core/ledger/entry.go:275-325 | once a key is committed for other parameters, a call that asks for it, whenever it started and whatever interleaves, is never about to commit, never succeeds, and changes nothing that is committed |
| PostingRace.DebitsTakeTurns | internal/core/ledger/entry.go:264-272 | of two debits with one key only one is ever past its advisory lock and not yet through |
| PostingAlone.UndisturbedCredit | internal/core/ledger/entry.go:74-150 | the statements of a credit nobody disturbs end with the answer and the rows of the operation as a whole |
| PostingAlone.UndisturbedDebit | internal/core/ledger/entry.go:203-262 | those of a debit too |
| ProviderLedgerRuns.BalancesAddUp | internal/core/providerledger/providerledger.go:107-337 | after every run each provider balance is credits minus debits |
| ProviderLedgerRuns.ProbeAccountedOnce | internal/core/providerledger/probe.go:40-115 | a probe has at most one debit, for its cost, or one risk, never both |
| ProviderLedgerRuns.ProbeIsIdempotent | internal/core/providerledger/probe.go:117-125 | a repeated probe writes nothing, and is accepted exactly if it is the same probe |
| ProviderLedgerRuns.TargetIsReachedIff | internal/core/providerledger/providerledger.go:136-200 | the balance lands on the target exactly if the target has at most ten decimals; no other balance moves |
| ProviderLedgerRuns.ExactTargetSucceedsIff | internal/core/providerledger/providerledger.go:136-200 | when setting an exact target succeeds |
| ProviderLedgerRuns.TargetRetry | internal/core/providerledger/providerledger.go:136-200 | the keyed retry at any later time writes nothing, and answers the same entry exactly for an exact target |
| ProviderLedgerRuns.TargetReconcilesRisks | sql/queries/shared/provider_ledger.sql:120-128 | exactly the matching open risks are closed by the adjustment |
| ProviderLedgerOutcomes.PostOutcome | internal/core/providerledger/providerledger.go:202-337 | when a first posting succeeds, and the one entry and balance it then changes |
| ProviderLedgerOutcomes.PostIsIdempotent | internal/core/providerledger/providerledger.go:386-394 | at any later time a key answers its own posting, with the source left out or the same, and nothing else |
| ProviderLedgerOutcomes.TargetOutcome | internal/core/providerledger/providerledger.go:136-200 | for a target of any precision: when setting it succeeds, and by which entry |
| ProviderLedgerOutcomes.ReliableCostIs | internal/core/providerledger/probe.go:40-75 | when the cost of a probe is known, and that it is the sum of seven parts, each rate times tokens rounded on its own |
| ProviderLedgerOutcomes.ProbeOutcome | internal/core/providerledger/probe.go:40-115 | what a first probe records: an unknown cost becomes a risk after a success or a 2xx and nothing otherwise, a known one never does |
| ProviderLedgerOutcomes.KnownCostIsDebited | internal/core/providerledger/probe.go:92-98 | a known cost that is not zero is debited exactly if the entry can be stored; otherwise nothing is written, not even the probe |
| ProviderLedgerOutcomes.FreeProbeIsRecorded | internal/core/providerledger/probe.go:92-98 | a known cost of zero is recorded without a debit |
| ProviderLedgerOutcomes.ProbeKeysDiffer | internal/core/providerledger/probe.go:92-98 | every probe has a debit key of its own |
| ProviderLedgerService.Database.WriteEntry | internal/core/providerledger/providerledger.go:228-337 | balance and entry in one transaction |
| ProviderLedgerService.Database.Post | internal/core/providerledger/providerledger.go:107-298 | credits, debits and usage debits as specified |
| ProviderLedgerService.Database.SetTargetBalance | internal/core/providerledger/providerledger.go:136-200 | the adjustment to the target as specified |
| ProviderLedgerService.Database.AccountProbe | internal/core/providerledger/probe.go:40-125 | the accounting of a probe as specified |
| Money.RoundByDivision | internal/core/billing/numeric.go:101-110 | division with remainder rounds half up |
| Usage.Validate | internal/core/usage/facts.go:204-247 | the loops accept exactly the valid facts |
| Usage.Total | internal/core/usage/facts.go:140-197 | a total is reported exactly for valid, billable facts whose total Lua holds exactly |
| Usage.TotalsAgree | internal/core/usage/facts.go:140-197 | the actual total is observed input plus observed output, and the observed input is what is billed as input |
| Usage.LongContextInputSum | internal/core/billing/long_context.go:32-46 | the sum of the known input counts, wrapped to int64 |
| Usage.KnownSumIsBillableInput | internal/core/billing/service.go:128-174 | for billable usage it is the billable input |
| Usage.ReasoningExceedsOutputIff | internal/core/billing/service.go:128-174 | billable usage has more reasoning than output in exactly one case: an output that is not applicable beside known reasoning |
| Usage.ValidFactsAre | internal/core/usage/facts.go:204-247 | which facts are valid, count by count; there are at most two metered items |
| Pricing.ScaleRates | internal/core/billing/scale.go:88-129 | every rate is scaled and rounded, NULL stays NULL, and only a rate that is not finite fails |
| Pricing.ScaleCustomerPrice | internal/core/billing/scale.go:16-48 | succeeds exactly for a finite non-negative ratio and finite rates, and changes only rates |
| Pricing.ScaleProviderCostByFactors | internal/core/billing/scale.go:75-115 | the same with the product of two factors, rounded once |
| Pricing.ApplyLongContext | internal/core/billing/long_context.go:54-123 | multiplies input and output rates exactly above the threshold of an active policy |
| Pricing.LongContextColumns | internal/core/billing/long_context.go:23-123 | which column is multiplied by which multiplier, and that a policy that is off, at its threshold or incomplete changes nothing |
| Pricing.LongContextPossibleIff | internal/core/billing/long_context.go:125-135 | fails exactly if the policy applies and a multiplier is not positive or a rate not finite |
| Pricing.ScalingCommutes | internal/core/billing/price.go:71-161 | normalizing a scaled price equals rounding each scaled normalized rate |
| Pricing.ScaledPriceNormalizesIff | internal/core/billing/scale.go:118-129 | a scaled price is accepted exactly when every rate is non-negative or is cut off to zero by the scaling |
| Pricing.NegativeRateSlipsThrough | internal/core/billing/scale.go:118-129 | the function alone would make an invalid price valid; it relies on tables without negative rates |
| ChargingParts.NormalizedRates | internal/core/billing/price.go:71-161 | which snapshots are accepted, and that a missing cache rate is the uncached one and a missing reasoning rate the output one |
| ChargingParts.BillableUsage | internal/core/billing/service.go:128-174 | which usage can be billed, and with which tokens |
| Charging.ProviderCost | internal/core/billing/service.go:35-76 | seven parts, each a component's own rate times its own tokens per million, rounded on its own, and the total of the rounded parts |
| Charging.PartIsRateTimesTokens | internal/core/billing/service.go:177-213 | the part of a component is its own rate times its own tokens per million, output meaning output less reasoning; without tokens it is nothing |
| ChargingParts.OneRateMovesOnePart | internal/core/billing/service.go:177-213 | another rate for one component moves its part alone, and the total by what that part moves |
| ChargingParts.ChargeIsSumOfParts | internal/core/billing/service.go:14-32 | the customer pays all components' tokens at their own rates, rounded once; it fails exactly if usage or price cannot be used |
| ChargingParts.OneComponentCharge | internal/core/billing/service.go:14-76 | a request with tokens of one component costs its rate for them and nothing else, charge and recorded cost alike |
| Charging.SumRounded | internal/core/billing/numeric.go:87-98 | the sum of the given amounts |
| Charging.CostWithinThreeUnits | internal/core/billing/service.go:35-76 | the recorded total differs from the exact total rounded once by at most three units |
| Charging.ThreeUnitsAreReached | internal/core/billing/service.go:35-76 | three units are reached by a usage and a cost snapshot |
| Charging.ChargeCoversCost | internal/core/billing/service.go:14-76 | where every sale rate covers its cost rate the charge is at least the recorded cost less three units |
| Charging.EstimateBoundsCharge | internal/core/billing/service.go:79-123 | the estimate bounds every charge within its token counts, for any split over the classes |
| ChargingParts.EstimateIs | internal/core/billing/service.go:79-123 | when an estimate can be priced, and that it is the dearest input and the dearer output rate on its token counts |
| ChargingParts.EstimateIsReached | internal/core/billing/service.go:79-123 | some usage within the estimate is charged exactly that much |
| Charging.EstimateBoundsLongContextCharge | internal/core/billing/long_context.go:54-87 | and still does when usage is priced at any input total up to the estimated one and only the estimate crosses the long-context threshold |
| Charging.CandidateHold | internal/service/gateway/lifecycle/authorization.go:202-216 | the higher estimate of a candidate's two prices; fails exactly if one cannot be estimated |
| Charging.HoldAmount | internal/service/gateway/lifecycle/authorization.go:144-181 | the highest over all candidates; fails exactly without candidates or if one cannot be estimated |
| Charging.HeldAmountBoundsCharge | internal/service/gateway/lifecycle/authorization.go:144-216 | what is held bounds every later charge within the token estimate, whichever candidate serves and at whatever int64 input total settlement prices |
| Margin.ValidateMargin | internal/core/billing/margin.go:22-39 | the loop reports exactly the components sold below cost, in order |
| Margin.PairsAre | internal/core/billing/margin.go:44-65 | which snapshots can be compared, and with which pair per component |
| Margin.ViolationsAre | internal/core/billing/margin.go:22-39 | every component sold below cost and no other is reported, in the order of the components |
| Margin.CostToSaleRatio | internal/core/billing/cost_ratio.go:13-37 | the maximum of cost over sale, when no component is given away at a cost |
| Margin.RatioAtMostOneIffNoViolation | internal/core/billing/cost_ratio.go:13-37 | the maximum exists and is at most one if and only if there is no violation |
| Margin.LongContextKeepsMargin | internal/core/billing/long_context.go:90-123 | one policy on sale and cost creates no violation |
| Margin.OneBaseKeepsMargin | internal/core/billing/scale.go:16-115 | sale and cost scaled from one base keep the margin when the sale factor is not smaller |
| Margin.GuardedCandidateNeverLoses | internal/core/billing/margin.go:22-65 | from the guard to the bill: the customer pays at least the recorded cost less three units, for any usage with reasoning within output, any policy and any input total it is settled at |
| Routing.ResolveCost | internal/core/routing/router.go:600-635 | an absolute channel cost first, otherwise the scaled base price, otherwise none (the following rows say which that is) |
| RoutingCosts.MissingRechargeIsOne | internal/core/routing/router.go:629-635 | a missing recharge factor gives the cost a factor of one gives |
| RoutingCosts.AbsoluteCost | internal/core/routing/router.go:600-614 | an absolute channel price is the cost, whatever the factors |
| RoutingCosts.ScaledCost | internal/core/routing/router.go:616-635 | otherwise every column of the base price times multiplier times recharge factor, rounded once; fails exactly if a factor or a column is unusable |
| RoutingCosts.SaleIsScaledBase | internal/core/routing/router.go:482-506 | a candidate is sold at the base price times the route ratio, column by column |
| Routing.BuildCandidate | internal/core/routing/router.go:471-591 | a candidate is built exactly from rows that can be, and each way to be turned down is named |
| RoutingCosts.BuildableIff | internal/core/routing/router.go:471-591 | with a sale price and a cost a row becomes a candidate exactly if it has a credential, both are valid in one currency and unit, and no cost rate exceeds its sale rate |
| RoutingCosts.NotBuildableWithoutOffer | internal/core/routing/router.go:471-591 | without them it does not, and is not counted as excluded by the guard |
| RoutingCosts.TrimIs | internal/core/routing/router.go:471-480 | the credential loses white space at both ends and nothing else |
| Routing.PlanChat | internal/core/routing/router.go:240-325 | the plan has, in row order, exactly the rows whose candidate builds; otherwise which refusal is given |
| Routing.PlannedFromRow | internal/core/routing/router.go:277-325 | every candidate of a plan comes from a row |
| Routing.PlannedIsGuarded | internal/core/routing/router.go:526-591 | every candidate passes the margin guard and has a ratio of at most one |
| Routing.PlannedCandidateNeverLoses | internal/core/routing/router.go:277-325 | whichever candidate serves the request and at whatever input total it is settled, the charge is at least the recorded cost less three units |
| Watchdog.FirstTokenDeadlineStands | internal/core/adapter/stream_timeout.go:178-185 | with a first-token budget the deadline is the budget after the start, whatever headers and heartbeats arrive, and it is kept |
| Watchdog.HeaderDeadlineStands | internal/core/adapter/stream_timeout.go:166-178 | with a header budget its deadline is the budget after the start, and it is kept |
| Watchdog.HeadersAndHeartbeatsLeaveFirstToken | internal/core/adapter/stream_timeout.go:198-218 | headers and heartbeats leave the first-token timer as it is |
| Watchdog.IdleWaitsForFirstToken | internal/core/adapter/stream_timeout.go:186-192 | with a first-token budget there is no idle timer before the first token |
| Watchdog.ActivityMovesIdle | internal/core/adapter/stream_timeout.go:237-248 | activity moves the deadline of an existing idle timer to now plus the budget, and nothing else |
| Watchdog.IdleMovesOnlyByActivity | internal/core/adapter/stream_timeout.go:166-260 | nothing but activity moves an idle deadline, and only a cancellation or its own expiry ends it |
| Watchdog.IdleStartsInFull | internal/core/adapter/stream_timeout.go:198-235 | an idle timer starts at the full budget from the token, or from the headers without a first-token budget |
| Watchdog.SomeTimerIsArmed | internal/core/adapter/stream_timeout.go:166-235 | with an idle budget and another one a started stream on which nothing has expired is being watched |
| Watchdog.FirstPhaseStays | internal/core/adapter/stream_timeout.go:78-81 | the first recorded phase and the first cause stay |
| Watchdog.PhaseMeansExpiry | internal/core/adapter/stream_timeout.go:171-192 | a recorded phase is that of a timer whose budget is set and has passed since the start, and an idle phase comes after the first token, or without a first-token budget after the headers |
| Watchdog.StartArms | internal/core/adapter/stream_timeout.go:166-193 | which timers the first start arms, with which deadlines; a second one does nothing |
| Watchdog.ArrivalsDisarm | internal/core/adapter/stream_timeout.go:198-260 | what has arrived is not waited for any more, and a cancelled stream waits for nothing |
| Watchdog.DueTimerEndsStream | internal/core/adapter/stream_timeout.go:166-193 | a timer expires exactly when due, and its callback records its own phase and cause, if none were |
| Watchdog.StreamTimeout.Start | internal/core/adapter/stream_timeout.go:166-193 | arms the timers that are due, once |
| Watchdog.StreamTimeout.HeadersReceived | internal/core/adapter/stream_timeout.go:198-218 | stops the header timer, arms idle only without a first-token budget |
| Watchdog.StreamTimeout.FirstToken | internal/core/adapter/stream_timeout.go:220-235 | stops the first-token timer and arms idle |
| Watchdog.StreamTimeout.ResetIdle | internal/core/adapter/stream_timeout.go:237-248 | moves an existing idle timer only |
| Watchdog.StreamTimeout.Cancel | internal/core/adapter/stream_timeout.go:250-260 | stops every timer |

## Left out

- ProviderRecovery.WentOnRecovers: states what a pass with a failed commit call leaves only one way, because such a call may or may not have taken effect; the exact condition is stated for calls that do not fail.
- FaultLatchRuns.AdmitsOnlyAfterNewerReconciliation: the local check and the shared check of an admission are separate steps; the list of control proofs a clear carries is one fact, that everything matched.
- Watchdog.FirstPhaseStays: does not relate the recorded phase to the cancel cause, which the code does not promise; a callback is one step, and nothing is claimed about timers armed after Cancel.
- Margin.CostToSaleRatio: the conversion of the exact maximum to float64 is not modelled.
- NaN and infinite ledger amounts: rates that are not finite are an error case of the model, ledger amounts are taken to be finite.
- StateEpochRuns.ReportsAgree: an answer may carry a row that is recovering again for a later revision, as the code's committed path allows; the agreement covers it.
- Database isolation other than row locks, compare-and-set updates and unique indexes: the ledger's operations are whole transactions, except in PostingRace, where a capture's own two inserts and the holds behind an insufficient balance are not opened up.
- The legacy awaiting_release reservation state: no code path modelled here enters it.
- Deleting a provider and purging its Redis keys: the loss of a gate and of operation keys is a step, the deletion of the rows is not.
- Channel counts behind the confirmation of an origin change, URL normalisation, and the text an archived origin gets: they decide only whether a call is made.
- Finding the route, its protocol check and the candidate query: PlanChat starts from the rows they deliver.
- Breaker windows, half-open probes, rate buckets and admission leases: separate state machines that none of the properties here depend on.
- HTTP handlers, middleware, SSE writing, logging, telemetry, configuration and start-up wiring: input and output only.
- SHA-256, random tokens and JSON encoding: values, as described above.
- Token estimation for images: floating point without a law to state.
- Worker scheduling and retry backoff, admin login, API keys, catalogue sync: they would add only easy members.
