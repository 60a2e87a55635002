# Home platform: deployments, jobs and app compute, verified

A Dafny model of the parts of the platform where several processes share durable state, and
proofs of what they promise each other. Three protocols and two smaller algorithms are modelled.

**Managed deployments.** Core (`app/app_deployments.py`) keeps operations, an append-only
history of accepted generations, a registration row and proposed changes to it. The root
installer (`ops/managed_installer.py`) keeps receipts, a record of the current installation,
switch markers and the one container. They share only files that are written once. `Ledger`
holds core's tables and transactions as functions on values, `Protocol` every transaction,
durable write and host effect of both sides as one step each, with crashes, boots and the
container stopping by itself. `ProtocolInvariant`, `ProtocolSteps` and `ProtocolCoreSteps`
carry one invariant through every interleaving of those steps; `DeploymentSafety`,
`DeploymentRuns` and `DeploymentReplay` draw the theorems from it.
`AppsServices` and `Installers` are the two programs in their own sequential form. The first
is proved to carry out the transactions of `Ledger` and to keep the tables' invariants, the
second to stay within the steps of `Protocol` on every path, whatever call fails, wherever the
process stops and whatever core does meanwhile.

One thing is not a step of `Protocol`: a write of `commit` that raises while the handler of
`execute` is still there to answer it. `RaisedCommits` extends the state machine by it, and the
theorems about it range over every run of the extended one. `RaisedInvariant` has what survives
in all of them, `RaisedDeadEnds` the states nothing leads out of, `RaisedTold` and `RaisedModes`
how far the protocol's own invariant still holds, `RaisedContainer`, `RaisedRetirement` and
`RaisedRecords` what becomes of the container, of a retirement and of the records, and
`RaisedWitness` a run from a fresh registration in which it happens. `DeploymentRecovery` says
over the same runs when a blocked application can be recovered.

**The job scheduler.** `Scheduler` has the job and worker tables and each transaction of
`app/repository.py`; `SchedulerInvariant`, `SchedulerRuns` and `SchedulerPlacement` prove one
running job per worker, fencing by lease tokens, attempt limits, finality and best fit, with no
assumption about clocks. `JobRepositories` and `JobServices` are the classes.

**App compute.** `ComputeInputs` has the quotas on uploads, `ComputeRuns` the submission of
runs under concurrent callers, job transitions, upload releases, crashes and restarts; its caps
rest on the scheduler's finality. `InputStores` and `RunStores` are the classes with their loops.

**Smaller pieces.** `PreviewSlots` is the two-pass choice of previews to evict and
`MaintenanceCalendar` the calendar expression of a maintenance task.

## What the proofs found

- `commit` is stopped and replayed safely anywhere, whatever happens in between
  (`DeploymentReplay.CommitsConvergeThroughAnything`), but a write of it that *raises* is not a stop
  for a retirement or a recovery: those are committed inside the `try` block of `execute`, whose
  handler then commits a second, contrary receipt. Of the four writes, journal receipt, current
  record, spool receipt and marker:
  - journal and spool can come to disagree exactly when the current record's or the spool receipt's
    write raises (`RaisedRecords.AnsweredAgreesExactly`);
  - when core consumes what the spool came to hold, core and root end with different generations
    exactly when the spool receipt's write raised, the commit accepted a generation and the handler's
    receipt was the one that got through (`RaisedRecords.RecordSurvivesExactly`). From then on root
    refuses every operation and every boot, in every later state (`RaisedDeadEnds.DifferencesPersist`);
  - the gate's promise about the container survives every raising write but one
    (`RaisedContainer.GateSurvivesRaises`): when a retirement's write of the current record raises, the
    fallback can restart the application, the process stop, and the next run replay the retirement
    from the journal, so that core accepts it while the application runs
    (`RaisedRetirement.ContainerClauseExactly`);
  - a retirement can leave the application blocked for good, under a managed registration, exactly for
    those same two writes (`RaisedRetirement.RetirementGetsStuckExactly`).

  `RaisedWitness.RaisedWritesDoHarm` gives the run, rehearse, deploy and retire, in which both happen.
  A deploy is committed after the block and is not affected.
- `approved_registration` promises that reverting the host policy and recovering is always a way out
  of a blocked operation. `DeploymentRecovery.WayOutExactly` proves that it is one exactly while core's
  registration row is a managed one, the blocked operation's receipt in root's journal is itself a
  blocked one, and root's record is core's latest row. Only the first can fail while no write of a
  commit raises (`DeploymentRecovery.WayOutWithoutRaises`), and `DeploymentRecovery.FirstSwitchCanGetStuck`
  shows how a first installation loses it: `update_registration` asks for no idle application while
  nothing is installed, and afterwards every registration change is refused.
- A process stopped between the last two writes of `commit` leaves a journal marker that is never
  removed, since a request with a spool receipt is skipped. `DeploymentReplay.MarkerHasNoReader`
  proves that no later run can tell.
- Best fit is best fit among workers whose pointer is clear, and a heartbeat that names no job clears
  the pointer of a worker that still holds one. `SchedulerPlacement.PassedOverExactly` says exactly when
  an idle worker is passed over for such a one, and `SchedulerPlacement.IdleWorkerStarves` gives a run
  from empty tables in which an idle worker that fits a queued job is sent away from every claim until
  the other worker's lease ends.

## Model

| member | source | states |
|---|---|---|
| `LedgerInvariant.RequestKeepsCoreInv` | app/app_deployments.py:635-753 | A request either repeats an earlier one without a change or adds exactly one queued operation while nothing else is active, and every table invariant survives. |
| `LedgerInvariant.AuthorityForm` | app/app_deployments.py:399-480 | An authority core grants was approved against the latest generation and the registration approved now; a recovery's target is still blocked, a deploy's rehearsal still matches, a rollback's target is still the row before the latest. |
| `LedgerInvariant.ConsumeForm` | app/app_deployments.py:969-1057 | An accepted receipt settles the operation, resolves the block it names and appends at most one row; the three writes commute and a success needs an admitted switch. |
| `LedgerInvariant.AcceptedRowIsNext` | app/app_deployments.py:515-559 | A row taken from a receipt is the next generation, carries the approved selection and registration of an operation core knows, and a retirement retires the running row. |
| `LedgerInvariant.ConsumeKeepsCoreInv` | app/app_deployments.py:855-1058 | Consuming any receipt that answers its operation keeps every table invariant. |
| `LedgerRegistrations.ApprovedIsManaged` | app/app_deployments.py:242-284 | Whatever registration an operation of any kind binds is a managed one. |
| `LedgerRegistrations.BootAuthorityNeverContradicts` | app/app_deployments.py:574-616 | With nothing switching or blocked, the registration and operation checks of the boot authority never refuse: only a revoked credential or an ineligible release can. |
| `LedgerRegistrations.ReleaseStillNamed` | app/app_deployments.py:271-284 | The registration that names the release of an operation in flight is found if and only if the registration row is managed. |
| `LedgerRegistrations.UpdateReportsWhatIsPending` | app/app_deployments.py:1074-1125 | What an update reports is what a deploy would carry next: proposed means exactly the merged registration is pending, withdrawn that nothing is, updated only where nothing is installed. |
| `LedgerRegistrations.RejectedChangeIsGone` | app/app_deployments.py:765-817 | After a rejection no settings change is offered, the one rejected is the one that was shown, and nothing installed changed. |
| `LedgerRegistrations.ApprovesOnlyWhatWasShown` | app/app_deployments.py:709-720 | A rehearsal or deploy binds the pending change exactly if that change is the one the administrator was shown, and otherwise the present registration. |
| `LedgerRegistrations.RehearsalsSucceedUnderAuthority` | app/app_deployments.py:977-993 | A rehearsal is recorded as succeeded only if its authority still held when its receipt was consumed. |
| `LedgerRegistrations.RecoveryDecidesTheBlocked` | app/app_deployments.py:1017-1036 | A succeeded recovery ends the operation it names as succeeded exactly if its generation was adopted, recovered exactly if an earlier one runs, else failed. |
| `LedgerRegistrations.AcceptedGenerationStartsClean` | app/app_deployments.py:152-177 | A proposed change never outlives the generation it was made against. |
| `ProtocolSteps.RaiseRunOk` | ops/managed_installer.py:1051-1070 | Whatever raises, the receipt decided on is one core may accept and is true of the host. |
| `ProtocolSteps.AdoptedWasASwitch` | ops/managed_installer.py:1335-1351 | A container a recovery adopts was started by a deploy or rollback approved with the recovery's own selection. |
| `ProtocolSteps.CommitCurrentKeepsInv` | ops/managed_installer.py:1213-1220 | Root's record advances by one generation, once, and only for the admitted switch in flight. |
| `ProtocolCoreSteps.ConsumedHistory` | app/app_deployments.py:969-1016 | Consuming a receipt brings core's history to exactly root's record. |
| `ProtocolCoreSteps.ConsumedContainer` | app/app_deployments.py:1017-1057 | Once its receipt is consumed, only a blocked switch keeps a container that is not the accepted generation. |
| `ProtocolCoreSteps.ApplyKeepsInv` | ops/managed_installer.py:913-1381 | Every step of core, root, a boot or the outside keeps the protocol's invariant. |
| `ProtocolCoreSteps.ReachableInv` | ops/managed_installer.py:913-1652 | The invariant holds after every interleaving of steps, crashes and restarts from a fresh registration. |
| `DeploymentRuns.NothingIsTakenBack` | app/app_spool.py:31-55 | Over any run the history only grows, published receipts, journal receipts, operation documents and settled states never change, and neither side's generation goes back. |
| `DeploymentSafety.GateOpensOnlyOnAccepted` | app/app_registry.py:219-242 | Whenever the gateway reports no pending installation, root's record is core's latest generation and the container is absent or is that generation's; after a retirement it is absent. |
| `DeploymentSafety.GateRefusesExactly` | app/app_registry.py:219-242 | The gateway refuses exactly for a switch or block in flight, a retirement, or a required installation that is missing. |
| `DeploymentSafety.GenerationsInLockstep` | ops/managed_installer.py:1203-1225 | Root's generation is core's or one ahead, and ahead exactly while the one switching operation has a succeeded journal receipt that names root's record. |
| `DeploymentSafety.ConsumingAppendsRootsRecord` | app/app_deployments.py:969-1057 | Consuming the pending receipt appends exactly root's record, and nothing when root is not ahead. |
| `DeploymentSafety.ReceiptsAreTrue` | ops/managed_installer.py:994-1098 | Failed means this operation never changed the container, recovered that it is back at root's record, succeeded that it is the receipt's snapshot or gone with a retirement; a recovery never ends blocked. |
| `DeploymentSafety.ContainerChangesAreRecorded` | ops/managed_installer.py:1024-1031 | Every change an operation makes to the container is recorded as its own, which is what the previous row's meaning of failed rests on. |
| `DeploymentSafety.RehearsalsTouchNothing` | ops/managed_installer.py:967-992 | A rehearsal never changes the container. |
| `DeploymentSafety.OneAtATime` | app/app_deployments.py:104-114 | At most one operation is active and at most one blocked, and while one is blocked the active one is a recovery naming it. |
| `DeploymentSafety.NoContradiction` | ops/managed_installer.py:999-1012 | With no foreign container on the host, no switch ever finds a contradictory one. |
| `DeploymentSafety.SweptMarkersAreSettled` | ops/managed_installer.py:1227-1240 | A sweep takes a switch intent only after core settled its operation. |
| `DeploymentSafety.BootAuthorityHolds` | ops/managed_installer.py:1600-1669 | In every reachable settled state with a running installation, root's record, core's latest row and the registration row agree, so a boot is refused only for credential or release. |
| `DeploymentSafety.HistoryIsContiguous` | app/app_deployments.py:63-97 | Generations run 1..n, each row is backed by its own succeeded operation approved against its predecessor, and a retirement directly follows the install it stores. |
| `DeploymentSafety.GenerationsAreDistinct` | app/app_deployments.py:994-1010 | No operation is accepted as two generations. |
| `DeploymentSafety.RollbackTargetsPredecessor` | app/app_deployments.py:447-454 | A rollback in flight targets the row before the latest, both of them installs, so never across a retirement. |
| `DeploymentSafety.DeployedGenerationsWereRehearsed` | app/app_deployments.py:434-446 | Every generation of a deploy, adopted ones included, was rehearsed with an identical selection against exactly the generation it replaced. |
| `DeploymentSafety.ReceiptsAreConsumable` | app/app_deployments.py:886-1057 | A published receipt of the active operation is consumed if and only if its release is still eligible: no other check can refuse it. |
| `DeploymentSafety.RequestsAreIdempotent` | app/app_deployments.py:649-696 | Asking again under a request id returns the same operation and changes nothing. |
| `DeploymentReplay.UninterruptedCommit` | ops/managed_installer.py:1203-1225 | The four writes of a commit leave journal receipt, record, spool receipt and no marker. |
| `DeploymentReplay.InterruptedCommitsConverge` | ops/managed_installer.py:913-917 | However often a commit is stopped at whatever write and picked up again, it ends where one uninterrupted commit does, up to the journal marker. |
| `DeploymentReplay.CommitsConvergeThroughAnything` | ops/managed_installer.py:913-917 | With any steps of core, boots, stops and containers between the attempts, one attempt that gets through leaves the receipts and the record of one uninterrupted commit; a receipt core consumed before that was this one, and what it accepted is in the history. |
| `DeploymentReplay.LateReplays` | ops/managed_installer.py:1213-1220 | Replaying any journal receipt, however late, changes root's record only for the one committed but unconsumed operation, and then once. |
| `DeploymentReplay.MarkerHasNoReader` | ops/managed_installer.py:1222-1225 | Once the journal receipt exists every later run goes the same with and without the journal marker. |
| `DeploymentRecovery.RecoveryUnblocks` | ops/managed_installer.py:1307-1381 | From every state with nothing in flight, a managed registration, a blocked journal receipt and equal records, a recovery bound to the accepted registration runs to the end and leaves nothing blocked. |
| `DeploymentRecovery.WayOutExactly` | app/app_deployments.py:242-268 | Over every run, raising commit writes included, a blocked application can get unblocked if and only if its registration row is managed, its journal receipt is itself blocked and root's record is core's latest row. |
| `DeploymentRecovery.WayOutWithoutRaises` | app/app_deployments.py:242-268 | Where no write of a commit raised, the last two always hold and only the registration decides. |
| `DeploymentRecovery.StuckForEver` | app/app_deployments.py:1226-1267 | Blocked without a managed registration, no request, update, cutover or rejection ever changes that. |
| `DeploymentRecovery.FirstSwitchCanGetStuck` | app/app_deployments.py:1074-1110 | One update to a legacy source during a first installation that then fails ends in that state. |
| `RaisedInvariant.HistorySound` | ops/managed_installer.py:946-1070 | With raising commit writes and the handler's answers among the steps, core's tables keep their invariants, every receipt answers its own operation and an operation without a spool receipt is still in flight. |
| `RaisedDeadEnds.DeadEndsAreForEver` | ops/managed_installer.py:1307-1327 | A blocked operation whose journal receipt is not blocked, or beside which root's record differs from core's, stays blocked with the same history and the same record however the run goes on. |
| `RaisedDeadEnds.DifferencesPersist` | ops/managed_installer.py:378-437 | Once core consumed the answered receipt, the two records differ in every later state and root refuses every operation and every boot there. |
| `RaisedTold.StepSeesTold` | ops/managed_installer.py:1754-1760 | Where journal and spool differ, every step of the protocol goes by the spool's receipt. |
| `RaisedModes.PublishedAnswerIsTold` | ops/managed_installer.py:1051-1070 | The failed receipt of a recovery is one core can be told, its journal success notwithstanding, as long as root's record is core's. |
| `RaisedContainer.GateSurvivesRaises` | app/app_registry.py:219-242 | The gate's promise holds in every run in which no retirement's write of the current record raises, whatever else raises, is answered, stopped and replayed. |
| `RaisedRetirement.ContainerClauseExactly` | ops/managed_installer.py:1051-1098 | A retirement's commit whose write raises keeps the gate's promise in every continuation exactly unless the write is the current record's; then a continuation ends with the application running although its accepted generation is a retirement. |
| `RaisedRetirement.RetirementGetsStuckExactly` | ops/managed_installer.py:1051-1098 | Such a retirement can end blocked without a way out, under a managed registration, exactly for the writes of the current record and of the spool receipt. |
| `RaisedRetirement.DeadBlockedForEver` | ops/managed_installer.py:1307-1327 | A blocked application whose journal receipt is not blocked or whose records differ stays blocked in every continuation, its managed registration notwithstanding. |
| `RaisedRecords.AnsweredAgreesExactly` | ops/managed_installer.py:946-961 | In every run a raising write of a retirement's or recovery's commit can bring spool and journal to disagree exactly if it is the current record's or the spool receipt's. |
| `RaisedRecords.RecordSurvivesExactly` | ops/managed_installer.py:946-961 | Whatever the handler, stops and replays then do, once core consumed the spool receipt, core and root hold the same generation exactly unless the record had been written, the spool receipt had not and the handler's receipt was the one consumed. |
| `RaisedWitness.RaisedWritesDoHarm` | ops/managed_installer.py:1118-1174 | A run from a fresh registration, rehearse, deploy and retire, in which journal and spool disagree and the application is stuck, and one in which it runs beside its retirement. |
| `AppsServices.AppsService.RequestApproval` | app/app_deployments.py:635-753 | `request` in place, with the rollback when the authority cannot be read back. |
| `AppsServices.AppsService.ObserveSwitch` | app/app_deployments.py:860-877 | The switch intent admits a queued operation and nothing else. |
| `AppsServices.AppsService.AppendRow` | app/app_deployments.py:994-1016 | The accepted row is appended and the registration row follows an install. |
| `AppsServices.AppsService.SettleBlocked` | app/app_deployments.py:1017-1036 | A succeeded recovery settles the blocked operation it names; another target refuses. |
| `AppsServices.AppsService.ConsumeReceipt` | app/app_deployments.py:969-1057 | The consuming transaction in place: all of its writes or none, and the tables' invariants are kept. |
| `AppsServices.AppsService.ReconcileOperation` | app/app_deployments.py:855-1058 | `reconcile_operation`: publish the request of an operation without a receipt, else check the receipt against what the reading transaction saw, consume it in the writing one and remove the request it settled; the tables' invariants are kept. |
| `AppsServices.ReconcileKept` | app/app_deployments.py:855-1058 | Whatever the reading transaction saw, and whatever happened since, consuming keeps every invariant of the tables. |
| `AppsServices.AppsService.Update` | app/app_deployments.py:1074-1125 | `update_registration` in place. |
| `AppsServices.AppsService.ProposeRename` | app/app_deployments.py:1149-1198 | `propose_source_rename` in place. |
| `AppsServices.AppsService.Provision` | app/app_deployments.py:1252-1267 | `provision_legacy` in place. |
| `AppsServices.AppsService.RestoreLegacy` | app/app_deployments.py:1270-1298 | `restore_unaccepted_legacy` in place. |
| `AppsServices.AppsService.RejectOffer` | app/app_deployments.py:765-817 | `reject` in place. |
| `Installers.Installer.AwaitAdmission` | ops/managed_installer.py:1248-1266 | Publishes the switch intent and waits for core; giving up leaves the process idle. |
| `Installers.Installer.Commit` | ops/managed_installer.py:1203-1225 | `commit`, stopped before any of its writes, is a run of the protocol and publishes the spool receipt third. |
| `Installers.Installer.WriteSpool` | app/app_spool.py:31-55 | Publishing accepts an identical rewrite and refuses any other. |
| `Installers.Installer.Switch` | ops/managed_installer.py:962-1050 | Rehearse and switch: every path is a run of the protocol and ends in a receipt, a return, or an exception before any receipt. |
| `Installers.Installer.Retire` | ops/managed_installer.py:1118-1174 | `retire` is a run of the protocol on every path. |
| `Installers.Installer.Recover` | ops/managed_installer.py:1307-1381 | `recover` is a run of the protocol on every path. |
| `Installers.Installer.RestorePrevious` | ops/managed_installer.py:1285-1305 | `restore_previous` ends restored only after its probe passed. |
| `Installers.Installer.Answer` | ops/managed_installer.py:1051-1070 | The exception handler always decides a receipt for the operation. |
| `Installers.Installer.FallBack` | ops/managed_installer.py:1079-1103 | `fell_back` is a run of the protocol and reports success only when the host is restored. |
| `Installers.Installer.Execute` | ops/managed_installer.py:913-1070 | `execute`, which may stop between any two steps, is a run of the protocol; with an outcome the spool has the receipt after three writes, without one no record changed. |
| `Installers.Installer.Boot` | ops/managed_installer.py:1600-1652 | A boot that succeeds leaves the container of root's current record running. |
| `Installers.Installer.SweepMarkers` | ops/managed_installer.py:1227-1240 | Removes exactly the intents whose receipt exists and whose request is gone. |
| `Installers.ValidIsSafe` | ops/managed_installer.py:913-1652 | Whenever a method of the installer returns, the protocol's invariant holds of the files. |
| `SchedulerInvariant.RecoverKeepsInv` | app/repository.py:736-795 | After recovery only live leases still run, and no pointer is left on an expired job. |
| `SchedulerInvariant.ClaimKeepsInv` | app/repository.py:296-404 | A claim hands a job only to a worker that runs nothing. |
| `SchedulerInvariant.FinishKeepsInv` | app/repository.py:533-578 | Ending a job clears the one pointer that can have named it. |
| `SchedulerInvariant.RunInv` | app/repository.py:296-795 | In every run each worker has at most one running job, every running job has worker, token and expiry, pointers are never wrong, queued jobs have attempts left and no cancellation, and results, failures and finishing times belong to exactly the states that have them. |
| `SchedulerRuns.AttemptsCountGrants` | app/repository.py:371-396 | A job's attempt count is the number of claims that started it, never above its maximum, and a running job holds the token of the latest. |
| `SchedulerRuns.OnlyLatestClaimHolds` | app/repository.py:418-440 | Renewing, completing and failing accept only the latest claim's token, unexpired. |
| `SchedulerRuns.TerminalIsFinal` | app/repository.py:546-578 | A completed or failed job never changes again. |
| `SchedulerRuns.CancellationSticks` | app/repository.py:455-494 | A job once asked to cancel is never completed and never queued again. |
| `SchedulerRuns.TokensAreDistinct` | app/service.py:184-194 | With fresh tokens no two jobs ever hold the same one. |
| `SchedulerRuns.SpentStaysSpent` | app/repository.py:736-795 | A token no job holds any more, through an ending or a recovery, is never held again. |
| `SchedulerRuns.TokensFinishOnce` | app/service.py:343-368 | After a token finished one job, no heartbeat, completion, failure or upload is accepted under it. |
| `SchedulerPlacement.PreferredIsBestFit` | app/repository.py:624-670 | The preferred worker is the fitting one that no fitting worker outranks by memory, CPU and id, and there is one whenever anything fits. |
| `SchedulerPlacement.ClaimExactly` | app/repository.py:338-403 | A claim with no live lease returns a job if and only if the worker is the best fit of one it is offered, and then the first by creation, task index and id; only that job starts. |
| `SchedulerPlacement.StartedFits` | app/repository.py:631-654 | A started job fits its worker's types, target and capacity. |
| `SchedulerPlacement.ReclaimReturnsSameLease` | app/repository.py:341-354 | Claiming under a live lease returns the same job with token and attempt unchanged. |
| `SchedulerPlacement.PassedOverExactly` | app/repository.py:631-670 | The best idle worker is passed over exactly when a worker that runs a job without a pointer fits and outranks it. |
| `SchedulerPlacement.HeartbeatCanHideAJob` | app/repository.py:441-453 | A heartbeat without a job clears the pointer of a worker that goes on holding its lease. |
| `SchedulerPlacement.IdleWorkerStarves` | app/repository.py:356-403 | A run from empty tables after which an idle, enabled, fresh worker that fits a queued job gets nothing from any claim until the other worker's lease ends. |
| `SchedulerPlacement.RecoveryPartitions` | app/repository.py:736-795 | Recovery changes exactly the expired jobs: cancelled, exhausted or requeued, with no lease and no pointer left. |
| `SchedulerPlacement.RecoveryClearsOnlyPointers` | app/repository.py:790-795 | Recovery changes nothing of a worker but its pointer, and that only if its job expired. |
| `SchedulerPlacement.AuthorityMatchesCompletion` | app/service.py:343-368 | Publishing output is authorized exactly when completing would be accepted, and for one worker and token at a time. |
| `JobRepositories.LeastKey` | app/repository.py:631-670 | The minimum of a list of keyed rows. |
| `JobRepositories.UpdatedRows` | app/repository.py:744-795 | The three updates' row counts add up to the number of expired jobs. |
| `JobRepositories.JobRepository.AddJob` | app/repository.py:35-77 | Inserts a queued job unless its identity or its owner's key is there already, and returns the row the key names. |
| `JobRepositories.JobRepository.EndLeases` | app/repository.py:744-789 | The three updates in place, returning how many jobs had expired. |
| `JobRepositories.JobRepository.ClearPointers` | app/repository.py:790-795 | Clears exactly the pointers of the workers that lost a lease. |
| `JobRepositories.JobRepository.RecoverExpired` | app/repository.py:736-795 | `_recover_expired` in place. |
| `JobRepositories.JobRepository.UpsertWorker` | app/repository.py:673-701 | Registers an unknown worker disabled, else refreshes it. |
| `JobRepositories.JobRepository.PreferredWorker` | app/repository.py:624-670 | The filter loop and the minimum compute the preferred worker. |
| `JobRepositories.JobRepository.TakeNext` | app/repository.py:356-403 | The loop over the queue takes the first job that prefers the worker. |
| `JobRepositories.JobRepository.ClaimJob` | app/repository.py:296-404 | `claim` in place. |
| `JobRepositories.JobRepository.HeartbeatWorker` | app/repository.py:406-453 | `heartbeat` in place. |
| `JobRepositories.JobRepository.CancelJob` | app/repository.py:455-494 | `cancel` in place. |
| `JobRepositories.JobRepository.FinishJob` | app/repository.py:533-578 | `_finish` in place, accepted exactly for the holder of a live lease that may end so. |
| `JobRepositories.JobRepository.SetWorkerEnabled` | app/repository.py:596-604 | Changes only whether the worker is enabled. |
| `JobRepositories.JobRepository.SetWorkerCapacity` | app/repository.py:606-621 | Changes only the worker's capacity. |
| `JobServices.JobService.ValidateBatchCapacity` | app/service.py:251-282 | Accepts sized work exactly when some registered worker, or the targeted one, is configured large enough. |
| `JobServices.JobService.Create` | app/service.py:70-105 | Stores a job only for a known target and an adequate worker; a used key returns the job of the same request, refuses any other request and stores nothing. |
| `JobServices.JobService.CancelJob` | app/service.py:213-224 | Refuses exactly the jobs that were terminal when read, without a change, and cancels in a transaction of its own. |
| `JobServices.JobService.Complete` | app/service.py:287-318 | Accepted exactly for a result of the job's type while the caller may publish the job's output. |
| `JobServices.JobService.Fail` | app/service.py:320-341 | Accepted exactly for the holder of the lease, with the failure kind its reader chose. |
| `JobServices.CancelAnswersFromTheReading` | app/service.py:213-224 | A refusal made from the earlier reading is still right when the call ends; a job that ended in between is left as it ended. |
| `JobServices.AdequateWorkersFit` | app/service.py:251-282 | An adequate worker fits as soon as it is enabled, fresh, idle and able. |
| `JobServices.FailureKindIsTheReaders` | app/service.py:320-341 | A cancellation requested after the flag was read is not reported as the failure kind. |
| `ComputeInputs.ReserveKeepsQuotas` | app/app_compute.py:203-232 | A reservation of the largest size is admitted only within every quota. |
| `ComputeInputs.SaveHoldsLess` | app/app_compute.py:240-277 | A saved input is never larger than the reservation it consumes. |
| `ComputeInputs.QuotasHold` | app/app_compute.py:203-343 | In every order of uploads, handles, deletions, crashes and restarts: at most 100 uploads and 200 MiB per app and user, 1 GiB overall, 100 handles; every live upload has its file. |
| `ComputeInputs.ReconciliationClears` | app/app_compute.py:40-65 | Startup leaves no reservation and exactly the files of live uploaded inputs. |
| `ComputeInputs.IdleHoldsOnlyInputs` | app/app_api.py:185-216 | With no upload in progress nothing is reserved and no stray file is left. |
| `InputStores.Usage` | app/app_compute.py:208-220 | The counting query returns the number and total size of what an owner, or everyone, holds. |
| `InputStores.InputStore.ReserveInput` | app/app_compute.py:203-232 | `reserve_input` in place, refused exactly when a quota would be exceeded. |
| `InputStores.InputStore.ReceiveInput` | app/app_api.py:185-216 | The upload loop saves exactly the uploads that are neither empty nor above 20 MiB, and leaves no file or reservation of any other. |
| `InputStores.InputStore.SaveFileHandle` | app/app_compute.py:240-277 | Saves a file handle, refused exactly at the handle limit. |
| `InputStores.InputStore.DeleteInput` | app/app_compute.py:324-343 | Writes the tombstone and removes the file of the caller's own input only. |
| `InputStores.InputStore.Reconcile` | app/app_compute.py:40-65 | The startup loop keeps exactly the files of live uploaded inputs. |
| `InputStores.SavedUploadIsSteps` | app/app_api.py:185-216 | A saved upload is a sequence of the quota protocol's steps. |
| `ComputeRunsInvariant.SwapKeepsCaps` | app/repository.py:132-138 | Swapping a reservation for a run of the same owner keeps both caps. |
| `ComputeRunsInvariant.JobEventFinishesRuns` | app/app_compute.py:426-443 | Job transitions never make a finished run count again. |
| `ComputeRunsInvariant.InsertedJobs` | app/repository.py:172-197 | The jobs of a new group are fresh, queued and keep the scheduler's invariant. |
| `ComputeRunsInvariant.LosingOwnFiles` | app/app_compute.py:529-537 | What a cleanup removes is read by no job and staged by no other caller. |
| `ComputeRunsInvariant.ExecutionInv` | app/app_compute.py:396-537 | The submission invariant holds in every interleaving of callers, jobs, releases, crashes and restarts. |
| `ComputeRunsSafety.RunsAreKept` | app/app_compute.py:378-394 | A run recorded under a submission key stays that key's run, and no answer is taken back. |
| `ComputeRunsSafety.CallersAgree` | app/repository.py:97-131 | All callers of one key with the same payload get the one run, every other payload is refused, for ever. |
| `ComputeRunsSafety.OutstandingIsCapped` | app/app_compute.py:426-455 | Reservations and unfinished runs never exceed four, nor two for one app and user. |
| `ComputeRunsSafety.FinishedStaysFinished` | app/app_compute.py:432-439 | A run that finished never counts against the caps again. |
| `ComputeRunsSafety.NeededFilesStay` | app/job_http.py:95-113 | No release, cleanup or startup removes a staged file an unfinished job still reads. |
| `ComputeRunsSafety.LosersLeaveNothing` | app/app_compute.py:529-537 | A submission that retained nothing leaves no reservation and no staged file. |
| `ComputeRunsSafety.IdleHoldsOnlyRuns` | app/app_compute.py:396-537 | With no submission in progress there is no reservation and every staged file is a run's. |
| `ComputeRunsSafety.StartupClears` | app/app_compute.py:40-50 | Startup clears every reservation and its paths and keeps every unfinished run's files. |
| `ComputeRunsSafety.StatusTellsTheCaps` | app/app_compute.py:99-126 | A run is shown queued or running exactly while it counts against the caps, completed exactly when every task is, and failed when any task failed. |
| `RunStores.RunStore.ReserveStaging` | app/app_compute.py:426-455 | The reserving transaction: answer a known key, else check both caps and insert. |
| `RunStores.RunStore.ReplayGroup` | app/repository.py:97-131 | A replay within `add_group` gives up the caller's own reservation and files only. |
| `RunStores.RunStore.InsertGroup` | app/repository.py:132-213 | The reservation is swapped for the group, its jobs and the run. |
| `RunStores.RunStore.AddAppGroup` | app/repository.py:79-214 | `add_group` for an app submission; whatever is returned is the key's one run. |
| `RunStores.RunStore.CleanUp` | app/app_compute.py:529-537 | The finally block removes the caller's own paths and reservation. |
| `RunStores.RunStore.ReleaseJobUploads` | app/job_http.py:73-113 | The loop over other jobs spares exactly the files an unfinished job reads. |
| `RunStores.RunStore.Reconcile` | app/app_compute.py:40-50 | The startup loop removes exactly the reserved paths. |
| `PreviewSlots.PreviewsToEvict` | app/app_deployments.py:183-224 | The two loops compute the stale attempts and the oldest evictable others. |
| `PreviewSlots.EvictOldest` | app/app_deployments.py:216-224 | The second loop evicts the oldest evictable previews and stops when the excess is gone. |
| `PreviewSlots.EvictsOnlyWhatItMay` | app/app_deployments.py:183-224 | Every stale attempt is evicted, and otherwise only another app's idle preview that is not installing. |
| `PreviewSlots.LeavesOneOrOnlyBusy` | app/app_deployments.py:216-224 | At most one other preview is left, or every one left is installing or belongs to a busy app; never more than the excess is evicted. |
| `PreviewSlots.StagingAdmits` | app/app_deployments.py:183-224 | Counting distinct apps, staging then has room for one more preview unless what stays cannot be evicted. |
| `MaintenanceCalendar.EmittedExactly` | ops/installer_policy.py:38-62 | An expression is emitted exactly for an allowed interval and an offset within it. |
| `MaintenanceCalendar.FiresAtTheOffset` | ops/installer_policy.py:52-70 | The expression fires at exactly the minutes congruent to the offset modulo the interval, from midnight or from Monday. |
| `MaintenanceCalendar.FiringsAreOneIntervalApart` | ops/installer_policy.py:34-70 | Consecutive firings are exactly one interval apart, across midnight and the week's end. |

## Left out

- HTTP routing, pages, the command line, credentials' contents, hashing and signatures: fingerprints are taken as injective and identities as fresh.
- Docker, systemd, probes, backups and the contents of a rehearsal: of the host only the container's presence, label, image and whether it runs is kept, and each of those calls may succeed or raise.
- A container of foreign ownership: there is none at the start and nothing modelled creates one, so `recognised` raising is not modelled.
- Power loss that undoes a committed transaction, and SQLite itself: every transaction is atomic and durable, and a process stops only between steps.
- Several applications in one deployment model: each operation, history and container belongs to one application and one configured environment; `PreviewSlots` reads many such tables.
- The tables app_releases and the installed workload files, which a reconciler fills between its reading and its writing transaction; that reading transaction may run at any earlier moment, since it only refuses more.
- `AppsServices.AppsService.RestoreLegacy`: the revocation of credentials is left out, as is the error text of receipts everywhere.
- Image references and image ids: an archive pins its image by digest, so both are determined by the archive.
- `ProtocolCoreSteps.ReachableInv`: a write of `commit` that raises is treated as a stop of the process; the `Raised` modules have the runs in which it is not.
- `DeploymentSafety.ReceiptsAreTrue`: "never changed the container" is read off the set of operations that did, which `DeploymentSafety.ContainerChangesAreRecorded` ties to the container.
- `Installers.Installer.Execute`: sandbox directories, pre-switch backups, timers and units are calls that may raise, their files are not modelled; a raising write of its own commit is not a path of the class, `RaisedCommits` adds it to the state machine.
- Times: integers stand for timestamps whose ISO text sorts as they do; two jobs of one worker never run at once, so ordering live jobs by start time needs no tie-break beyond identity.
- CPU and memory are a real and an integer; floating-point rounding plays no part in comparing them.
- Idempotency keys of ordinary groups, the contents of names, parameters and results, and worker metrics.
- `JobServices.JobService.Fail`: the flag it reads beforehand is a parameter, so that any transition may come between the read and the write.
- Directory confinement, copying and checking input bytes, and failures of the file system other than a stop.
- `RunStores.RunStore.ReleaseJobUploads`: considers the uploads staged for app runs alone.
- `ComputeRunsSafety.NeededFilesStay`: covers files staged for app runs, whose names are fresh; an ordinary upload can still be named by a new job between a release's listing and its unlinking.
- `AccountStore.forget_uploads` rows that follow a release.
- `MaintenanceCalendar.FiresAtTheOffset`: the text of the expression is a record of its fields, and changes of the local clock are not modelled.
- Path browsing, workspaces, power control, health probes, the preview guest, onboarding, release discovery and migrations apart from the uniqueness constraints used above.
