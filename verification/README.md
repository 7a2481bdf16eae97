# A verified model of the drawing machine service

The drawing machine service admits jobs from a local client, drives them through
untrusted worker processes to checked G-code, and hands them to a machine
coordinator. Its difficult part is that every one of these steps can be
interrupted, repeated or raced. This project models that part in Dafny and
proves what the service promises about it, for every input, every interleaving
and every point at which the process may die.

The project is checked as a whole with `dafny verify dfyconfig.toml`.

## How the model is built

| modules | part of the service |
|---|---|
| `StagingRecords`, `StagedAdmission`, `StagedAdmissionRun`, `StagedPass`, `StagedRestart`, `StagedReplay` | staged admission over whole runs: client bundles, request handlers, the coordinator's owner, reconcile passes, crashes, restarts |
| `StagingReconciliation`, `PrepareObservations` | one reconcile pass: what happens to each bundle, and to each observed prepare entry |
| `StagedSubmission` | the chain's side of a staged submit and the startup recovery |
| `JobMailbox`, `MachineMailbox` | the two mailbox coordinators: submitters, one owner, deadlines, stop |
| `MachineObservations` | publication of machine projections and what status reads show |
| `WorkerExecution`, `JobLife`, `JobLifeRun` | running worker tasks, and the whole life of a job |
| `ArtifactTrees`, `TreePromotion`, `PromotionSteps` | manifests, tree visits, promotion and revocation |
| `JsonFreezing`, `NestingScan`, `PayloadSchema`, `PhaseSearch` | the self-contained algorithms |
| `Migrations`, `MigrationStatements` | the migration ledger and the statement splitter |

A protocol is a state machine: a `Step` datatype whose members are single atomic
effects (a lock region, a transaction, a rename), a total function `Next` in
which a step that is not enabled changes nothing, and `Run` over a sequence of
steps. The steps carry everything the code does not decide itself: the clock,
worker answers, I/O faults, whether a transition commits. A theorem about
`Run(INITIAL, steps)` for all `steps` is therefore a statement about every
interleaving with every fault. Objects the code changes in place are classes
proved against a function of their contents.

## What the proofs brought to light

- `acknowledge()` of a job envelope is not stable by itself
  (`JobMailbox.LateAcknowledgeTakesBack`); permanence is a property of the whole
  protocol (`JobMailbox.FinalStatesArePermanent`).
- A timed-out job command whose change was committed is handed to
  `fail_unexpected`, except exactly after a double fault: an error between the
  commit and its callback, and then a job that cannot be read back
  (`JobMailbox.TimedOutCommandNeverAdvances`, with a run in
  `JobMailbox.DoubleFaultIsNotFailedOver`).
- `stop()` of the machine coordinator drains the mailbox under the state lock,
  but the owner's final drain does not take that lock. The owner can have ended
  while stop still holds one queued envelope
  (`MachineMailbox.StopCanOutliveOwner`); exactly such an envelope is left
  unanswered (`MachineMailbox.OwnerEndLeavesNothingWaiting`).
- A prepare entry that stays locked after its deadline makes every second and
  later reconcile pass raise (`PrepareObservations.ExpiredHoldKeepsRaising`). All
  the ways an observation makes a pass raise are in
  `PrepareObservations.RaisesExactly`. Such a pass brings neither this role's nor
  a later role's readiness up to date (`PrepareObservations.Reconciler.Reconcile`).
- A crash between the claim's rename and its row leaves a decoded record whose
  bundle is in admitted. No run ever answers that request again, although its
  bytes are kept (`StagedReplay.CrashInClaimIsNeverServed`); which requests a
  restart can serve is exactly `StagedReplay.RestartServesExactly`.
- An import whose post-publication check raises leaves its tree in the store
  although no job was committed; the submit itself does not discard it
  (`StagedSubmission.Chain.Submit`, `StagedSubmission.ImportCanBeStranded`). The
  next startup does. Conversely, a discard
  can raise although its rename already took the tree away
  (`StagedSubmission.Chain.Discard`).
- Startup recovery treats an unreadable promoted input like an absent one, so it
  can return with a claimed admission that still has one. The exact condition is
  `StagedSubmission.RecoveryRevokesClaimedInputs`.
- A completed execution can remain the default one of a status read: its
  completion raised on a regressed observation, and the equal publication that
  repairs the read does not clear the default. When exactly this happens over a
  run is `MachineObservations.FinishedDefaultExactly`.

## Model

| member | source | states |
|---|---|---|
| `StagedAdmission.ExactlyOnce` | src/drawingmachine/service/runtime.py:347-407 | over every run with replays, stale reads, failures and crashes, one request id has at most one job, and all its successful replies name that job and carried the same envelope, which the job was created from |
| `StagedAdmission.AdmissionIsPermanent` | src/drawingmachine/adapters/filesystem/client_data.py:602-710 | jobs, bound envelopes and replies outlive any further run, and a record keeps its identity, moves its revision only up and never loses its job |
| `StagedAdmission.NoPayloadLost` | src/drawingmachine/application/staging_reconciliation.py:358-466 | from the step that records a request as decoded, at every later step its bytes are in drop out of the client's reach, in admitted or in quarantine, or a committed job holds them as its input |
| `StagedAdmission.ExactReplayAlwaysMatches` | src/drawingmachine/service/runtime.py:497-543 | a durable replay with the bound envelope always agrees with its job in kind, bundle, arguments and input digest |
| `StagedAdmission.NoUnstagedJob` | src/drawingmachine/application/offline_job_chain.py:296-345 | the branch that creates a job without an admission row is never reached, and every job is the one its admission names |
| `StagedAdmission.HandlerStepKeeps` | src/drawingmachine/service/runtime.py:347-407 | every durable effect of a handler (bind, register, rename, claim, confirm, remove, consume, reply) keeps the world's invariant and moves it only onward, although each acts on a row read in an earlier step |
| `StagedAdmission.OwnerMoveKeeps` | src/drawingmachine/application/offline_job_chain.py:271-345 | so does every step of the owner through check, import, commit and discard |
| `StagedAdmission.VisitKeeps` | src/drawingmachine/application/staging_reconciliation.py:358-466 | every visit of a pass that acts on an old snapshot of the admission table keeps the world's invariant and moves it only onward; what a visit moves and owes is in `StagedPass` |
| `StagedAdmission.RecoverKeeps` | src/drawingmachine/application/offline_job_chain.py:514-551 | so does startup recovery |
| `StagedAdmission.RemoveMovesOn` | src/drawingmachine/adapters/filesystem/client_data.py:712-747 | deleting a bundle loses nothing once its request is bound to a job |
| `StagedAdmission.DiscardMovesOn` | src/drawingmachine/adapters/filesystem/client_data.py:432-466 | a client's discard of an unsent bundle never takes a decoded payload |
| `StagedAdmission.UnsentCanBeTakenBack` | src/drawingmachine/adapters/filesystem/client_data.py:432-466 | after a discard a bundle is still in drop exactly if it was there and had been dispatched |
| `StagedAdmission.UncommittedInputIsDiscarded` | src/drawingmachine/application/offline_job_chain.py:315-342 | an import whose commit is refused is out of the store after the discard, with jobs and admissions as before |
| `StagedAdmission.RecoveryRevokes` | src/drawingmachine/application/offline_job_chain.py:514-551 | over every run, startup takes exactly the input of a claimed record out of the store, unless that input cannot be read |
| `StagingRecords.EdgesGoOn` | src/drawingmachine/adapters/persistence/migrations/0004_staging_admissions.sql:63-73 | which states lead to claimed, admitted, consumed and set aside; every allowed change goes up, so no record returns to a state it left |
| `StagedPass.StepByAuthority` | src/drawingmachine/application/staging_reconciliation.py:376-450 | one step of a pass in the running service: the bundle leaves its directory exactly when the snapshot lets it and the move happens, and is then in quarantine unless it was handed over; nothing else moves |
| `StagedPass.StepOwes` | src/drawingmachine/application/staging_reconciliation.py:411-450 | which row update that step then owes, with which revision |
| `StagedPass.SettleByTable` | src/drawingmachine/application/staging_reconciliation.py:411-450 | the update goes through exactly on the revision the snapshot read, in a state the table lets go there, and otherwise ends the pass |
| `StagedPass.StepLeavesAsPass` | src/drawingmachine/application/staging_reconciliation.py:359-450 | the step moves the bundle as the visit of the pass by itself does, for the same bundle, snapshot and faults |
| `StagedPass.StepSettlesAsPass` | src/drawingmachine/application/staging_reconciliation.py:359-450 | with the update it owes, the step leaves the rows as that visit does, and ends the pass exactly when the visit raises |
| `StagedAdmissionRun.EveryOrderCanBeServed` | src/drawingmachine/service/runtime.py:347-407 | for every published bundle there is a run from the start that ends with the job committed, the bundle consumed and the request answered |
| `StagedReplay.RestartServesExactly` | src/drawingmachine/adapters/filesystem/client_data.py:917-950 | whatever happened before, when the service is down some run answers a recorded request exactly when it is decoded with its bundle in drop, claimed with its bundle in admitted, or already bound to a job |
| `StagedReplay.CrashInClaimIsNeverServed` | src/drawingmachine/adapters/filesystem/client_data.py:662-710 | witness: a crash between the claim's rename and its row, after which no run answers the request, although its bytes are kept |
| `StagedRestart.StuckIsNeverServed` | src/drawingmachine/adapters/filesystem/client_data.py:917-950 | from a record without a job whose bundle is not where its replay looks, no run leads to a reply |
| `StagedReplay.RestartServes` | src/drawingmachine/service/runtime.py:347-407 | every other recorded request is answered by some run after the restart |
| `StagedRestart.RunKeepsPlaced` | src/drawingmachine/adapters/filesystem/client_data.py:662-747 | over every run no bundle lies in both drop and admitted, and the bundle of a claimed or later record is not in drop |
| `StagingReconciliation.DecideByAuthority` | src/drawingmachine/application/staging_reconciliation.py:376-450 | a bundle is deleted exactly when its matching record has handed it over, and set aside exactly when it is unshielded, not handed over and expired or from another boot |
| `StagingReconciliation.PassMovesExactlyWhatItMay` | src/drawingmachine/application/staging_reconciliation.py:358-466 | a pass lets a well-formed bundle go only in those cases, and a completed pass without a fault on it in all of them |
| `StagingReconciliation.PassLosesNothing` | src/drawingmachine/application/staging_reconciliation.py:358-466 | an entry that left a directory is whole in quarantine, or its matching record has handed it over |
| `StagingReconciliation.RolePassLosesNothing` | src/drawingmachine/application/staging_reconciliation.py:358-469 | the same over drop and admitted together |
| `StagingReconciliation.VisitExactly` | src/drawingmachine/application/staging_reconciliation.py:359-466 | when one visit raises, blocks and marks, and what it does to the rows, by authority, deadline and fault |
| `StagingReconciliation.PassEndsExactly` | src/drawingmachine/application/staging_reconciliation.py:359-466 | a pass raises exactly when a listed entry ends it: a marker that cannot be written, or a row that is no longer the one the snapshot read; if it completes, it blocks exactly when a listed entry contradicts its record or could not be moved, and marks exactly then or if a marker was there |
| `StagingReconciliation.PassSetsItsRows` | src/drawingmachine/application/staging_reconciliation.py:411-450 | after a completed pass the row of a listed bundle that left without a fault is consumed if its record had handed it over, set aside if it expired, with its revision one up |
| `StagingReconciliation.PassKeepsOtherRows` | src/drawingmachine/application/staging_reconciliation.py:359-466 | every other row is as it was |
| `StagingReconciliation.PassSetsMalformedAside` | src/drawingmachine/application/staging_reconciliation.py:359-374 | a completed pass has set every listed entry aside that is not a well-formed bundle, unless it could not be moved |
| `StagingReconciliation.RolePassBlocksExactly` | src/drawingmachine/application/staging_reconciliation.py:358-469 | a completed role is blocked exactly by a marker that was there or a troubled entry in either directory |
| `StagingReconciliation.RolePassSetsItsRows` | src/drawingmachine/application/staging_reconciliation.py:358-469 | the rows of what left, over drop and admitted together |
| `StagingReconciliation.ActiveRequestKeepsItsBundle` | src/drawingmachine/application/staging_reconciliation.py:374-378 | a pass leaves the bundle of an absent, decoded or claimed admission unchanged if the request is in the set of active requests the pass was started with |
| `StagingReconciliation.ByBundle` | src/drawingmachine/application/staging_reconciliation.py:358-358 | the index holds exactly the role's records by bundle name, each one where names are unique |
| `StagingReconciliation.RoleStaging.VisitPhase` | src/drawingmachine/application/staging_reconciliation.py:359-466 | the loop over one directory, with moves that fail before or after their rename and marker writes that fail, leaves the directories, the rows and the marker as the fold whose ends, moves and rows the lemmas above decide, and stops at the first error |
| `StagingReconciliation.RoleStaging.ReconcileBundles` | src/drawingmachine/application/staging_reconciliation.py:358-469 | drop, then admitted, then the marker that blocks the role |
| `PrepareObservations.RaisesExactly` | src/drawingmachine/application/staging_reconciliation.py:202-356 | exactly when an observation makes the pass raise: an expired hold already recorded, a failing write where the pass writes, any failing deletion of an observation it has just settled, or a bare I/O error deleting one that was terminal before |
| `PrepareObservations.ObservesExactly` | src/drawingmachine/application/staging_reconciliation.py:202-356 | what a pass that does not raise makes of an observation: exactly when it is deleted, reported or kept, and when it blocks the role; a kept one is unchanged, except that an expired hold is recorded once |
| `PrepareObservations.RaisesExactlyOnASecondExpiry` | src/drawingmachine/application/staging_reconciliation.py:286-296 | where all I/O succeeds, that is exactly an observation already held-expired whose request is inactive and whose lock the same client still holds after the deadline |
| `PrepareObservations.RaisedPassLeaves` | src/drawingmachine/application/staging_reconciliation.py:582-629 | a raising pass leaves the observation as it was, or after a failed deletion gone or in the terminal status its sight calls for |
| `PrepareObservations.ExpiredHoldKeepsRaising` | src/drawingmachine/application/staging_reconciliation.py:539-565 | a hold that outlives its deadline is recorded once, and from then on every pass that does not find the request active raises |
| `PrepareObservations.SecondExpiredPassRaises` | src/drawingmachine/application/staging_reconciliation.py:286-296 | witness: a concrete hold whose second pass raises |
| `PrepareObservations.ObserveAll` | src/drawingmachine/application/staging_reconciliation.py:202-356 | the pass raises exactly when some observation does, at the first of them, and otherwise blocks the role exactly when one of them blocks |
| `PrepareObservations.Reconciler.Reconcile` | src/drawingmachine/application/staging_reconciliation.py:106-129 | a role whose pass raises, and every later role, keeps the readiness of the last completed pass |
| `StagedSubmission.Chain.Submit` | src/drawingmachine/application/offline_job_chain.py:261-345 | for both roles (424-505 is the G-code twin): the job is created, together with the claim's new state, exactly when `Commits` holds before the call, also if an error follows the commit; a newly imported tree is kept exactly when its job is, except exactly in the cases `Strands` names before the call |
| `StagedSubmission.ImportCanBeStranded` | src/drawingmachine/adapters/filesystem/artifact_store.py:556-590 | witness: an import that raises after its rename leaves its tree with a claim and no job |
| `StagedSubmission.ClaimedSubmitCommits` | src/drawingmachine/application/offline_job_chain.py:261-345 | witness: a claimed request with a sound import commits |
| `StagedSubmission.Chain.Discard` | src/drawingmachine/adapters/filesystem/artifact_store.py:115-187 | the tree remains exactly when the call failed before its rename; it also fails when what follows the rename raises, with the tree gone; an attempt already gone is no error |
| `StagedSubmission.FailedDiscardMayHaveRevoked` | src/drawingmachine/adapters/filesystem/artifact_store.py:178-183 | witness: a recovery that raises on its discard although the input is gone |
| `StagedSubmission.RecoveryRebuildsTheImport` | src/drawingmachine/application/offline_job_chain.py:514-596 | the reference rebuilt at startup is the one the import used exactly when the source file is named `payload` |
| `StagedSubmission.RecoveryRevokesClaimedInputs` | src/drawingmachine/application/offline_job_chain.py:514-551 | after recovery returns, a claimed admission has a promoted input exactly if one was there whose read failed |
| `StagedSubmission.UnreadableInputSurvives` | src/drawingmachine/adapters/filesystem/artifact_store.py:426-431 | witness: an unreadable input survives a recovery that returns |
| `StagedSubmission.NoClaimedInputAfterRecovery` | src/drawingmachine/application/offline_job_chain.py:514-551 | with staged sources and answered reads, no claimed admission keeps a promoted input |
| `StagedSubmission.RecoveryEndsExactly` | src/drawingmachine/application/offline_job_chain.py:514-551 | recovery gets through exactly when no claimed admission of the listing has a job, a readable input that is not its own, or a readable input whose discard fails; otherwise it ends with the error of the first that does |
| `StagedSubmission.UnimportedClaimRecovers` | src/drawingmachine/application/offline_job_chain.py:547-550 | witness: a claim whose import never happened lets startup through |
| `StagedSubmission.RecoveryOnlyRemoves` | src/drawingmachine/application/offline_job_chain.py:514-551 | recovery adds and alters nothing, and removes only the exact payload of a claimed admission without a job |
| `StagedSubmission.Chain.RecoverUncommitted` | src/drawingmachine/application/offline_job_chain.py:514-551 | the loop over the admissions, up to its first error, is the fold whose end and effect the lemmas above decide |
| `JobMailbox.FinalStatesArePermanent` | src/drawingmachine/service/job_coordinator.py:75-118 | in every interleaving an acknowledged envelope stays acknowledged and an abandoned one abandoned |
| `JobMailbox.LateAcknowledgeTakesBack` | src/drawingmachine/service/job_coordinator.py:105-114 | called again after the deadline, `acknowledge` alone abandons an acknowledged envelope, and only then |
| `JobMailbox.SubmitFindsItsOutcome` | src/drawingmachine/service/job_coordinator.py:184-207 | a submit ends with the timeout on an abandoned envelope, or on an acknowledged one with its error or result; its final assertion never fails |
| `JobMailbox.TimedOutCommandNeverAdvances` | src/drawingmachine/service/job_coordinator.py:393-415 | a command whose submitter saw the timeout is never advanced, before or after; once let go and committed, it was not handed to the failure record exactly when an error followed the commit and the job could then not be read back |
| `JobMailbox.DoubleFaultIsNotFailedOver` | src/drawingmachine/service/job_coordinator.py:441-478 | witness: a run from the start to a timed-out command that is committed and was never handed to the failure record |
| `JobMailbox.LetGoIsAccountedFor` | src/drawingmachine/service/job_coordinator.py:393-415 | over every run, a command out of the owner's hands is settled; committed, it was driven to its end, handed to the failure record or could not be read back, exactly one of the three; a raised drive always means the failure record; acknowledged without a commit, it carries an error or its job was failed over |
| `JobMailbox.AdvancedMeansAcknowledged` | src/drawingmachine/service/job_coordinator.py:586-595 | only acknowledged commands are ever driven; what becomes of a driven one is `JobMailbox.LetGoIsAccountedFor` |
| `JobMailbox.CommitIsReachable` | src/drawingmachine/service/job_coordinator.py:346-391 | witness: a command submitted with time left is committed |
| `JobMailbox.CallbackDecidesByDeadline` | src/drawingmachine/service/job_coordinator.py:417-426 | witness: after a commit, the callback leads to driving in time and to the failure record when late |
| `JobMailbox.AcknowledgedCommandReturns` | src/drawingmachine/service/job_coordinator.py:184-207 | witness: an acknowledged call returns the filled record while the job is driven |
| `JobMailbox.AbandonedCommandIsFailedOver` | src/drawingmachine/service/job_coordinator.py:480-502 | witness: a late call raises the timeout while the job is only failed over |
| `JobMailbox.RefusedCommitStaysRefused` | src/drawingmachine/service/job_coordinator.py:85-92 | once a commit was refused, no later question is answered otherwise, at any time and whatever other regions are entered in between |
| `JobMailbox.FirstOfTheTwoWins` | src/drawingmachine/service/job_coordinator.py:98-114 | of a timeout and an acknowledgement in time exactly the first succeeds, in either order |
| `JobMailbox.SettledStaysSettled` | src/drawingmachine/service/job_coordinator.py:85-114 | no sequence of regions puts an envelope back in the queue or changes an abandoned one |
| `JobMailbox.AskToCommit` | src/drawingmachine/application/offline_job_chain.py:299-331 | the commit checks of a command are all answered yes exactly if its envelope was queued and every one came in time; a refusal leaves nothing to allow later |
| `JobMailbox.FinishSubmit` | src/drawingmachine/service/job_coordinator.py:184-207 | on the envelope itself: the call times out exactly if its envelope is abandoned by it, and otherwise ends with the stored error or result |
| `JobMailbox.AcknowledgeDurable` | src/drawingmachine/service/job_coordinator.py:417-426 | the answer is in place before the envelope can be acknowledged, which it is exactly in time |
| `MachineMailbox.AdmissionIsEnteredOnce` | src/drawingmachine/service/machine_coordinator.py:450-455 | an envelope enters admission at most once, never if it was withdrawn, and exactly once if committed |
| `MachineMailbox.NoAdmissionAfterWithdrawalOrStop` | src/drawingmachine/service/machine_coordinator.py:235-252 | withdrawal is final, no envelope enters admission once stop was called, also after stop has returned, and a committed result never changes |
| `MachineMailbox.OwnerEndLeavesNothingWaiting` | src/drawingmachine/service/machine_coordinator.py:254-297 | when the owner has ended the mailbox holds no envelope and every committed one has its wake-up; an accepted one is neither withdrawn nor answered exactly when stop still holds it and its caller has not timed out, and never once stop has returned |
| `MachineMailbox.StopCanOutliveOwner` | src/drawingmachine/service/machine_coordinator.py:434-441 | witness: a run from the start to an ended owner while stop holds a queued envelope whose caller waits |
| `MachineMailbox.BrokenAdmissionIsFatal` | src/drawingmachine/service/machine_coordinator.py:282-288 | witness: an admission that breaks answers its envelope and ends the loop with the fatal flag set |
| `MachineMailbox.ErrorEndsTheOwner` | src/drawingmachine/service/machine_coordinator.py:254-297 | whatever follows an error that leaves processing, the coordinator is fatal or about to be, and no envelope enters admission any more |
| `MachineMailbox.FatalHasACause` | src/drawingmachine/service/machine_coordinator.py:254-297 | over every run, a fatal end has such an error or a failed closing behind it; refusals, withdrawals and timeouts never cause one |
| `MachineMailbox.StopWakesTheOwner` | src/drawingmachine/service/machine_coordinator.py:235-252 | in no interleaving does stop wait for an owner that waits on a mailbox without the stop item |
| `MachineMailbox.RefusedAdmissionGoesOn` | src/drawingmachine/service/machine_coordinator.py:299-341 | witness: a refused admission is answered with its error and the loop goes on |
| `MachineMailbox.CommittedIsWoken` | src/drawingmachine/service/machine_coordinator.py:299-341 | a committed envelope that is not being published has its projection wake-up set |
| `MachineMailbox.CallerFindsItsOutcome` | src/drawingmachine/service/machine_coordinator.py:191-217 | a caller returns the committed result or raises the stored error and never finds neither; a timed-out one leaves nothing queued |
| `MachineMailbox.QueueIsLeftOnce` | src/drawingmachine/service/machine_coordinator.py:51-77 | of all calls to begin, withdraw or reject one envelope, in any order and between any others, at most one succeeds, and none if it was not queued |
| `MachineMailbox.AnswersStand` | src/drawingmachine/service/machine_coordinator.py:62-94 | no sequence of regions changes a withdrawn envelope, gives a committed one an error or takes an acknowledgement or wake-up back; acknowledged keeps meaning answered |
| `MachineMailbox.NoLongerRequestedStays` | src/drawingmachine/service/machine_coordinator.py:58-60 | once an envelope past the queue is no longer requested, by its state or its deadline, it never is again |
| `MachineMailbox.ClaimAdmission` | src/drawingmachine/service/machine_coordinator.py:450-455 | on the envelope itself: begun exactly if queued and stop is not set; with stop set a queued one is answered |
| `MachineMailbox.RejectQueuedCommands` | src/drawingmachine/service/machine_coordinator.py:434-441 | every drained envelope leaves the queue, the queued ones withdrawn, answered and woken, the others untouched |
| `MachineMailbox.AnswerAdmission` | src/drawingmachine/service/machine_coordinator.py:299-341 | a claimed envelope is committed with its result or failed and woken, never both |
| `MachineMailbox.FinishCall` | src/drawingmachine/service/machine_coordinator.py:191-217 | a call that gave up leaves nothing queued, and a woken one ends with its stored error or result |
| `MachineMailbox.CommittedCommandReturns` | src/drawingmachine/service/machine_coordinator.py:191-217 | witness: a run from the start to a call that returned its committed result |
| `MachineObservations.ReadsAreMonotone` | src/drawingmachine/service/machine_coordinator.py:219-233 | for any publications between two reads of an execution, no revision and no counter is lower and no outcome changed |
| `MachineObservations.PublishNeverRegresses` | src/drawingmachine/service/machine_coordinator.py:353-408 | one publication, accepted, ignored or raising, never makes any read regress |
| `MachineObservations.PublicationAnswers` | src/drawingmachine/service/machine_coordinator.py:381-432 | a publication is accepted exactly when its record is new or newer than the filed one and none of the four counters, the progress or the outcome shown is taken back; exactly when each error is raised |
| `MachineObservations.PublicationShows` | src/drawingmachine/service/machine_coordinator.py:381-408 | what the maps, every read and the default are afterwards: the publication is shown exactly when it is newer or the filed record and takes nothing back, and other executions are untouched |
| `MachineObservations.ReadShowsLastHighest` | src/drawingmachine/service/machine_coordinator.py:219-233 | over every run in which nothing raised, a read of an execution is its last publication of the highest revision, and nothing if it had none |
| `MachineObservations.CheckReports` | src/drawingmachine/service/machine_coordinator.py:418-432 | what the check reports, over the four named counters and the outcome |
| `MachineObservations.OthersChangeNothing` | src/drawingmachine/service/machine_coordinator.py:353-380 | a malformed projection raises and one without an execution is ignored, both without effect |
| `MachineObservations.MapsPartExactlyOnRegression` | src/drawingmachine/service/machine_coordinator.py:401-402 | projection and observation part exactly when a newer revision brings a regressing observation |
| `MachineObservations.EqualRepublicationHeals` | src/drawingmachine/service/machine_coordinator.py:386-400 | an equal publication of the newer revision joins them again |
| `MachineObservations.ActiveIsReadable` | src/drawingmachine/service/machine_coordinator.py:219-233 | the default execution of a status read always has an observation |
| `MachineObservations.AcceptedChoosesDefault` | src/drawingmachine/service/machine_coordinator.py:403-407 | an accepted publication makes its execution the default exactly when it is unfinished |
| `MachineObservations.FinishedDefaultExactly` | src/drawingmachine/service/machine_coordinator.py:386-407 | over every run, the default of a status read is finished exactly when an equal publication refreshed it with a finished execution and none since replaced it |
| `MachineObservations.FinishedDefaultAfter` | src/drawingmachine/service/machine_coordinator.py:386-407 | exactly when one publication leaves a finished default: accepted, refreshing, or neither |
| `MachineObservations.FinishedDefaultNeedsARaise` | src/drawingmachine/service/machine_coordinator.py:401-407 | over every run, a finished default needs an earlier publication of a finished execution that raised on its observation |
| `MachineObservations.CompletedCanStayDefault` | src/drawingmachine/service/machine_coordinator.py:401-407 | witness: such a run |
| `MachineObservations.RequireMonotone` | src/drawingmachine/service/machine_coordinator.py:418-432 | the loop over the counter names reports exactly a progress that was lost or fell in one of the four counters, or an outcome that changed |
| `MachineObservations.PublicationBoard.PublishProjection` | src/drawingmachine/service/machine_coordinator.py:353-408 | accepts exactly what is newer and takes nothing back; whatever it answers, the call keeps the board filed and makes no read of any execution regress; an accepted observation is what its read shows |
| `WorkerExecution.WorkerLog.Execute` | src/drawingmachine/application/offline_job_chain.py:963-1034 | the retry loop submits a worker task once, or twice after a crashed worker, and never twice for the provider |
| `WorkerExecution.SubmissionsAreBounded` | src/drawingmachine/application/offline_job_chain.py:963-1034 | at most two submissions, one for the provider, and a second only after a crash |
| `WorkerExecution.SuccessIsEarned` | src/drawingmachine/application/offline_job_chain.py:1121-1170 | success needs exactly the contract's artifacts, and for a G-code check the service's own verdict that the recorded G-code may stream; a check contributes no G-code |
| `WorkerExecution.ExecutionByDecidingAttempt` | src/drawingmachine/application/offline_job_chain.py:963-1034 | an execution raises exactly if its deciding attempt was undone, has that attempt's own status, code and artifacts exactly if the service believes it, and is otherwise a failure without artifacts |
| `JobLife.AtMostOneProviderTask` | src/drawingmachine/application/offline_job_chain.py:788-895 | over the whole life of a job, with any worker answers, errors, unrecorded failures, crashes and restarts, at most one provider task is submitted |
| `JobLife.ProviderIsAsked` | src/drawingmachine/application/offline_job_chain.py:850-895 | witness: the bound is met |
| `JobLife.AdvanceAsksProviderOnce` | src/drawingmachine/application/offline_job_chain.py:601-678 | one advance asks the provider at most once, and only from image preparation; how an advance ends is in the rows below |
| `JobLife.PreparationEndsThere` | src/drawingmachine/application/offline_job_chain.py:788-895 | image preparation leads to a block or the end, never back |
| `JobLife.ReadyMeansReviewedAndRechecked` | src/drawingmachine/application/offline_job_chain.py:365-402 | a ready job is a workflow with an accepted review; its snapshot holds the last recorded G-code, the very reference the service last rechecked and allowed |
| `JobLife.ReadyIsRechecked` | src/drawingmachine/application/offline_job_chain.py:640-677 | the advance that makes a job ready rechecked exactly the reference it puts in the snapshot |
| `JobLife.ReadyExactlyWhenVindicated` | src/drawingmachine/application/offline_job_chain.py:640-677 | exactly when one advance makes a job ready |
| `JobLife.OneRunEndsExactly` | src/drawingmachine/application/offline_job_chain.py:601-716 | planning, building and validating move on with the attempt's artifacts exactly if the deciding attempt is a believed success, and otherwise the job is failed, cancelled or blocked with that attempt's code, by that attempt's own status |
| `JobLife.CheckCompletesExactlyWhenVindicated` | src/drawingmachine/application/offline_job_chain.py:680-716 | a G-code check job completes exactly when its recorded G-code was checked by an attempt the service itself bears out |
| `JobLife.ValidationNeedsGcode` | src/drawingmachine/application/offline_job_chain.py:680-716 | without recorded G-code a validation raises |
| `JobLife.PreparationSucceedsToReview` | src/drawingmachine/application/offline_job_chain.py:788-895 | if all worker runs on the chosen route succeed, the image goes to review with everything they made, a second route decision renamed; an invalid route decision fails the job |
| `JobLife.PreparationEndsOnFirstStop` | src/drawingmachine/application/offline_job_chain.py:788-932 | otherwise the first run that did not succeed decides the end, and what was made before it is kept only with a block |
| `JobLife.QuietAdvances` | src/drawingmachine/application/offline_job_chain.py:601-639 | where the states without a worker lead |
| `JobLife.CancellationEnds` | src/drawingmachine/application/offline_job_chain.py:601-605 | a requested cancellation ends every job that is not finished |
| `JobLife.CancelWakeCancels` | src/drawingmachine/application/offline_job_chain.py:724-734 | a cancellation between commands does so too, and keeps the record of what was made |
| `JobLife.IdleMeansAtRest` | src/drawingmachine/application/offline_job_chain.py:751-780 | over every run, a coordinator that is idle has left no job in flight, except one whose failure could not be recorded; the next completed startup fails a job in flight |
| `JobLife.RaisedAdvanceIsRecorded` | src/drawingmachine/application/offline_job_chain.py:769-780 | an advance that raises, before or after its commit, is followed by the failure record, which fails a job in flight |
| `JobLifeRun.ReadyIsReachable` | src/drawingmachine/application/offline_job_chain.py:601-678 | witness: a run from the start to a ready job |
| `JobLifeRun.CompletedCheckIsReachable` | src/drawingmachine/application/offline_job_chain.py:680-716 | witness: a run from the start to a completed check job |
| `ArtifactTrees.ValidateManifests` | src/drawingmachine/adapters/filesystem/_artifact_validation.py:119-198 | succeeds exactly for well-formed declarations with distinct roles and paths and equal descriptor sets, and indexes them by path |
| `ArtifactTrees.ParentDirectories` | src/drawingmachine/adapters/filesystem/_artifact_validation.py:109-116 | exactly the proper parents of the declared paths |
| `ArtifactTrees.DeclaredIsExpected` | src/drawingmachine/adapters/filesystem/_artifact_validation.py:185-198 | declared and expected paths, roles and media types are the same |
| `TreePromotion.PrepareTree` | src/drawingmachine/adapters/filesystem/artifact_store.py:489-592 | on success the tree holds exactly the declared files with declared size, digest and JSON values, and there is one reference each; success exactly when the three reads of the source are acceptable and the two snapshots agree |
| `TreePromotion.TreeVisit.Copy` | src/drawingmachine/adapters/filesystem/_artifact_validation.py:259-330 | copies exactly a tree of declared files in allowed directories, and records the files it saw |
| `TreePromotion.TreeVisit.Snapshot` | src/drawingmachine/adapters/filesystem/_artifact_validation.py:333-376 | accepts exactly such a tree by name and records every identity in it |
| `TreePromotion.TreeVisit.Validate` | src/drawingmachine/adapters/filesystem/_artifact_validation.py:379-430 | one reference per file, from the file's own bytes and the expected role |
| `TreePromotion.CopiedAsDeclared` | src/drawingmachine/adapters/filesystem/_artifact_validation.py:259-330 | every file of an accepted tree is declared and has the declared size and digest |
| `PromotionSteps.NeverPartlyVisible` | src/drawingmachine/adapters/filesystem/artifact_store.py:489-592 | at every step of every run of promotions and revocations, crashes included, a tree under an attempt name holds exactly the declared files with their declared bytes and JSON values, and the next step leaves it alone or takes all of it away |
| `PromotionSteps.CheckedIsComplete` | src/drawingmachine/adapters/filesystem/_artifact_validation.py:305-430 | a tree whose files each passed the copy's comparison and which passed the validation of names and JSON is complete, for agreeing manifests |
| `PromotionSteps.VisitsDecideTheChecks` | src/drawingmachine/adapters/filesystem/_artifact_validation.py:259-430 | the tree visits imply the checks the steps make |
| `PromotionSteps.PublishShowsTheWholeTree` | src/drawingmachine/adapters/filesystem/artifact_store.py:542-556 | a validated tree appears whole under its attempt name in one step |
| `PromotionSteps.RevokeTakesTheWholeTree` | src/drawingmachine/adapters/filesystem/artifact_store.py:115-187 | a revocation hides the whole tree in one step, and its removal takes exactly that tree away |
| `PromotionSteps.EveryCompleteTreeCanBeShown` | src/drawingmachine/adapters/filesystem/artifact_store.py:489-592 | conversely, from the start every complete tree of agreeing manifests can become visible |
| `JsonFreezing.FreezeValue` | src/drawingmachine/application/jobs.py:29-79 | a value of any finite object graph is accepted exactly when it unfolds to a JSON tree, and thawing the result gives that tree |
| `JsonFreezing.Freezer.Freeze` | src/drawingmachine/ports/workers.py:293-351 | the walk terminates, restores the active set on every exit and accepts exactly the graphs of valid leaves and keys in which no container reaches itself |
| `JsonFreezing.FreezableUnfolds` | src/drawingmachine/application/jobs.py:29-71 | what one level of the walk decides, with sharing allowed |
| `JsonFreezing.RepresentedIsFreezable` | src/drawingmachine/application/jobs.py:29-79 | a graph that unfolds to a finite tree has no recursion and only valid parts |
| `JsonFreezing.RepresentationIsUnique` | src/drawingmachine/application/jobs.py:74-79 | a graph unfolds to at most one tree |
| `NestingScan.ScanDecidesDepth` | src/drawingmachine/protocol/codec.py:74-97 | over the printed bytes of any value the scan accepts exactly when the tree depth is at most 64, and then ends at depth zero outside a string |
| `NestingScan.EnsureNestingDepth` | src/drawingmachine/protocol/codec.py:74-97 | the loop is the scan, and stops at the first opener beyond the limit |
| `PayloadSchema.AcceptsExactlySchemaPaths` | src/drawingmachine/ports/workers.py:684-698 | a value is accepted exactly when each of its key paths, looking through arrays, belongs to the schema's path set |
| `PayloadSchema.MemberAcceptsExactlySchemaPaths` | src/drawingmachine/ports/workers.py:684-698 | the same for one member |
| `PayloadSchema.LeafAcceptsNoPath` | src/drawingmachine/ports/workers.py:674-681 | a leaf field accepts exactly the values without any key |
| `PhaseSearch.ForwardPhase` | src/drawingmachine/service/machine_protocol.py:613-640 | for every transition relation the search terminates and is true exactly when the phases differ and a path of allowed transitions joins them |
| `PhaseSearch.NothingOpenMeansNotJoined` | src/drawingmachine/service/machine_protocol.py:639-640 | an exhausted frontier means no path |
| `Migrations.StatementsCommitOnceWithTheirRow` | src/drawingmachine/adapters/persistence/migrator.py:90-109 | over interleaved runs with rollbacks and crashes, each migration's statements commit at most once, exactly with a new ledger row |
| `Migrations.ReturnedMeansPackaged` | src/drawingmachine/adapters/persistence/migrator.py:31-37 | a run that returned leaves the ledger equal to the packaged list |
| `Migrations.BadRowStopsEveryRun` | src/drawingmachine/adapters/persistence/migrator.py:131-173 | an unknown or altered row stops every run before any migration SQL |
| `Migrations.UndisturbedRunReturns` | src/drawingmachine/adapters/persistence/migrator.py:31-37 | a run left alone on a good ledger returns with the packaged list |
| `Migrations.VerifyLedger` | src/drawingmachine/adapters/persistence/migrator.py:131-173 | succeeds exactly when every row is packaged and, if asked, every packaged migration has its row; the answer is the highest version |
| `Migrations.VerifyRows` | src/drawingmachine/adapters/persistence/migrator.py:131-173 | the loop over the stored rows, and which fault it reports |
| `Migrations.Connection.ApplyMigration` | src/drawingmachine/adapters/persistence/migrator.py:90-109 | statements and row commit together or neither does |
| `Migrations.Connection.Migrate` | src/drawingmachine/adapters/persistence/migrator.py:31-37 | success means the packaged list; a bad ledger is left untouched with nothing executed; on an appliable list the run succeeds exactly when no row is bad and the statements of every new migration succeed |
| `MigrationStatements.MigrationStatements` | src/drawingmachine/adapters/persistence/migrator.py:176-196 | the pieces spell out the file, each is a shortest complete statement, blank ones are dropped and a rest that is not blank is an error |
| `MigrationStatements.SplitIsUnique` | src/drawingmachine/adapters/persistence/migrator.py:176-196 | there is one such split |
| `MigrationStatements.StripKeepsTheMiddle` | src/drawingmachine/adapters/persistence/migrator.py:176-196 | stripping removes all blanks at the two ends and nothing else, blank as Python's `strip` has it |

## Left out

- SQLite, flock, fsync, ownership, modes and ACLs: a transaction and a rename are single steps, a lock is held or not, and durability is assumed.
- SHA-256, UUIDs, nonces and the derived job id are injective; TOML and JSON library parsing, and the parsing of names and paths, happen before the model.
- The client is assumed to follow its own staging adapter; a client that writes into drop by hand is not modelled, except that any bundle may be found unreadable by a pass.
- The part of a pass that creates observations for new prepare entries and sets aside misnamed ones: it adds no case to the theorems about observations.
- `still_requested`: whether an admission asks it is up to the machine chain, whose answer is an oracle.
- Evidence and marker files are a single flag per role; their contents are not modelled. What a removal detached and then failed to remove is kept apart from the directory listing.
- StagedAdmission.NoPayloadLost: bytes are followed by bundle name, lease and digest, not by file contents; that a rename keeps the contents of a directory is assumed.
- StagedAdmission.ExactlyOnce: the submit path without client data, where job ids are random, is not modelled.
- JobMailbox.SubmitFindsItsOutcome: `_rebuild_projection` is assumed not to raise.
- JobLife.ReadyMeansReviewedAndRechecked: transitions of a job made by machine execution after it became ready are not modelled.
- JobLife.AtMostOneProviderTask: only driving by the coordinator is modelled, not the chain's own `run_to_intervention_or_terminal`.
- TreePromotion.PrepareTree: the references are a map by path, not the tuple sorted by role and path; roles are distinct, so the two determine each other.
- MachineObservations.ReadsAreMonotone: outcomes are compared as values; Python's equality of `1`, `1.0` and `True` inside an outcome is not modelled.
- JsonFreezing.FreezeValue: Python's recursion limit is not modelled.
- `read_frame`, `write_frame` and the command dispatcher: framing is byte counting that reading the functions settles.
- Cancellation tokens and the coordinators' published projection dictionaries, apart from what a submitter is answered.
- The machine execution chain, FluidNC sessions, G-code checking, gates and provider registry: their answers are oracles here.
- A second life of a coordinator after stop: the runtime builds a new one for each start.
