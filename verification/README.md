# Verified model of the cloud submit protocol, the control plane and its stream

This project models, in Dafny, the parts of the system whose correctness is not visible in any one function,
and proves what they promise over whole runs.

**The two-ledger submit protocol.** `CloudTaskRunner` keeps a durable submit ledger (the lower one) around one
provider command that must not be repeated, `cloud exec`. `CloudTaskOrchestrator` keeps a second durable ledger,
the projection (the upper one), written at other times. `SubmitLedger` and `LifecycleLedger` are the two ledgers,
as specifications and as mutable classes; `SubmitProtocol` is the step relation over both disks, memory, the
submit in flight and the log of execs, with a crash after any write, a restart that repairs, possibly under another
configuration, and three outcomes for every write: it takes effect, it does not, or it takes effect and reports an
error. `LedgerValidation` says which ledgers pass validation. `ProtocolInvariant` holds the joint invariant,
`ProtocolTheorems` the results, `ProtocolReads` the statuses behind a projection, `ProtocolAdoption` the lists behind an
adoption, `ProtocolLimits` and `ProtocolSettling` the worlds from which there is no way out and exactly which ones they
are.
`CloudRunner`, `CloudOrchestrator` and `CloudListing` are the operations themselves: every method states that the
worlds it passes through extend a run of the protocol.

**The control plane.** `IdempotencyRegistry`, `AppSessions` and `Shutdown` are the three lock-protected registries
as mutable classes. `ControlPlane` is the system of all requests, workers, waiters and shutdown callers over them,
one step per critical section or drop, in every interleaving; `ControlPlaneInvariant`, `ControlPlaneSteps` and
`ControlPlaneTheorems` prove single flight, logout cleanup across two registries, and the shutdown drain,
`ControlPlaneAnswers` who joins a stored answer and how long it is kept;
`ControlPlaneServer` carries every lock scope out on the three classes and shows it to be one step of such a run.

**The event stream.** `StreamServer` is the replay-then-live sender, `StreamClient` the browser's transitions,
`StreamController` the controller with its fields, `StreamTheorems` their composition and the client's history
over everything it can do, `StreamReconnect` what holds across any number of sockets on one growing log,
`StreamRefusals` what a refused cursor leads to, and `StreamAcceptance` exactly which frames a socket accepts.

**Two recognisers.** `Rfc3339` and `DevicePrompt` (bounded capture, colour stripping, prompt), over `ByteText`;
`PromptText` says what the prompt's text is without byte tables.

`dafny verify dfyconfig.toml` checks everything.

## Assumptions

- One orchestrator owns a state directory, and operation IDs it draws are fresh.
- `may_have_started` is truthful: when it is false nothing was spawned.
- Mutexes are not poisoned and no worker panics. A mutex scope is one step.
- Each persist is atomic: the file is the old ledger or the new one.
- Cached responses are smaller than 2^50 bytes. Fewer than 2^64 waiters, leases, operations and sessions exist at
  once or are ever issued, so the saturating counters other than `total_bytes` and `completion_seq` are plain numbers.
- The members of a `RequestAdmission` drop in declaration order: the operation, then the lease.
- A notification future hears every notification sent after it was created.
- `sessionStorage` has one writer. Whether a payload matches the browser's schema is one bit per event.
- The pinned prompt is ASCII text without control characters other than LF, with one placeholder for the code;
  its wording is a parameter.

## What the model shows about the code

- A submit whose `Authorized` record reaches the disk although its write reported an error, or whose withdrawal
  does not reach the disk, is reported as failed before submit while its ledger still blocks every later submit.
  `StrandedExactly` and `StrandedIfAndOnlyIf` give the condition, `StrandedForever` and `StrandedReachable` the
  consequence.
- An unknown outcome can become impossible to settle: when the 32 history entries are used, and already at 31 when
  no listing has reached the projection on disk. `SettleableExactly` gives the condition for every world,
  `ExhaustedReachable` and `NearlyFullReachable` the two kinds of runs.
- The projection on disk can fail to name the task that was adopted below, when a listing was stored although its
  write reported an error. `AdoptedTaskListedExactly` gives the condition, `AdoptedTaskIsListed` the runs in which it
  cannot happen, `UnlistedAdoptionReachable` a run in which it does.
- Validation accepts a little more than the records can write: candidates without a reconciliation in the submit
  ledger, and a pending status twice in a row in the projection, and nothing else (`SubmitValidatesExactly`,
  `UnlistedPasses`, `LifecycleValidatesExactly`, `StutterPasses`).
- A restart under another environment or branch is refused exactly while a projection is unsettled and a submit
  ledger of another configuration exists (`RepairIsTotalAndIdempotent`; `RefusedRestartReachable` is such a run).
- An error frame that leaves out a bound stops the browser for good instead of making it refresh
  (`ServerErrorsUnderstood`). The repository's own server never sends one: `subscribe` gives a history gap both bounds
  and a future cursor its bound, so only a protocol or version mismatch stops the browser (`TerminalOnlyByMismatch`).
- A prompt cut between CR and LF is rejected, and only then (`ChunkedPrompt`; `CutInsideLineEnd` gives such a cut for
  every prompt of more than one line).
- Provider output of the prompt's length whose multi-byte character lies across the code's edge is sliced off a
  character boundary, which panics (`PanicsExactly`, `OffBoundaryPanics`, `AsciiNeverPanics`).

## Model

| member | source | states |
|---|---|---|
| `SubmitLedger.LatestFixesShape` | crates/codebox-agent-codex/src/cloud_submit_ledger.rs:213-284 | in a valid ledger the latest phase fixes the history before reconciliation and whether a task is present |
| `SubmitLedger.NothingEntersIntent` | crates/codebox-agent-codex/src/cloud_submit_ledger.rs:287-321 | no transition leads back to `Intent`, so it is the first entry and no other |
| `SubmitLedger.AppendKeepsWellFormed` | crates/codebox-agent-codex/src/cloud_submit_ledger.rs:115-125 | appending a permitted phase with the fields that phase demands keeps a ledger valid |
| `SubmitLedger.RecoveredWellFormed` | crates/codebox-agent-codex/src/cloud_runner.rs:492-517 | rewriting an interrupted ledger always succeeds, and the result is valid and no longer interrupted |
| `SubmitLedger.StartedWellFormed` | crates/codebox-agent-codex/src/cloud_submit_ledger.rs:127-138 | recording the process of an authorized submit succeeds and keeps the ledger valid |
| `SubmitLedger.TaskWellFormed` | crates/codebox-agent-codex/src/cloud_submit_ledger.rs:140-148 | recording the task of a started submit succeeds and keeps the ledger valid |
| `SubmitLedger.ReconciliationWellFormed` | crates/codebox-agent-codex/src/cloud_submit_ledger.rs:150-174 | an accepted reconciliation keeps the ledger valid |
| `SubmitLedger.DecisionWellFormed` | crates/codebox-agent-codex/src/cloud_submit_ledger.rs:176-211 | an accepted adoption or abandonment keeps the ledger valid |
| `SubmitLedger.TerminalPhasesAbsorb` | crates/codebox-agent-codex/src/cloud_submit_ledger.rs:287-321 | a terminal ledger accepts no further record of any kind, and a recorded task is never replaced |
| `SubmitLedger.ReconciliationCapacity` | crates/codebox-agent-codex/src/cloud_submit_ledger.rs:115-174 | any sequence of reconciliations is accepted if and only if it fits the 32 entries, operation and task untouched |
| `SubmitLedger.UnknownEntries` | crates/codebox-agent-codex/src/cloud_submit_ledger.rs:213-284 | a fresh unknown outcome has used four entries with a recorded process and three without, so 28 or 29 reconciliations remain |
| `SubmitLedger.DecisionCapacity` | crates/codebox-agent-codex/src/cloud_submit_ledger.rs:176-211 | a reconciled outcome can be adopted or abandoned exactly while fewer than 32 entries are used and, to adopt, the task is listed |
| `SubmitLedger.FullHistoryIsStuck` | crates/codebox-agent-codex/src/cloud_submit_ledger.rs:115-125 | with 32 entries an unknown outcome accepts neither reconciliation nor decision |
| `SubmitLedger.CloudSubmitLedger.AppendPhase` | crates/codebox-agent-codex/src/cloud_submit_ledger.rs:115-125 | in-place append: the new state is the specified one, and a refusal changes nothing |
| `SubmitLedger.CloudSubmitLedger.MarkStarted` | crates/codebox-agent-codex/src/cloud_submit_ledger.rs:127-138 | in-place: process and phase as specified, or refused |
| `SubmitLedger.CloudSubmitLedger.MarkTask` | crates/codebox-agent-codex/src/cloud_submit_ledger.rs:140-148 | in-place: task written once, or refused |
| `SubmitLedger.CloudSubmitLedger.MarkReconciliation` | crates/codebox-agent-codex/src/cloud_submit_ledger.rs:150-174 | in-place: candidates replaced by the new listing, or refused |
| `SubmitLedger.CloudSubmitLedger.MarkAdopted` | crates/codebox-agent-codex/src/cloud_submit_ledger.rs:176-202 | in-place: task taken from the candidates, or refused |
| `SubmitLedger.CloudSubmitLedger.MarkAbandoned` | crates/codebox-agent-codex/src/cloud_submit_ledger.rs:204-211 | in-place: the abandonment, or refused |
| `SubmitLedger.CloudSubmitLedger.Validate` | crates/codebox-agent-codex/src/cloud_submit_ledger.rs:213-284 | the validation loop returns true exactly for the well-formed ledgers |
| `LifecycleLedger.AppendKeepsShape` | crates/codebox-agent-codex/src/cloud_lifecycle_ledger.rs:233-240 | a permitted append keeps the projection valid and its history at four entries or fewer |
| `LifecycleLedger.StatusShaped` | crates/codebox-agent-codex/src/cloud_lifecycle_ledger.rs:136-158 | a recordable provider status is accepted: pending, ready, applied and error each give their own phase and no other does; the task is recorded and the projection stays valid and short |
| `LifecycleLedger.CanceledShaped` | crates/codebox-agent-codex/src/cloud_lifecycle_ledger.rs:160-176 | both cancellations are accepted from their phases and keep the projection valid and short |
| `LifecycleLedger.ReconciliationShaped` | crates/codebox-agent-codex/src/cloud_lifecycle_ledger.rs:182-209 | an accepted reconciliation keeps the projection valid and adds no history |
| `LifecycleLedger.TerminalPhasesAbsorb` | crates/codebox-agent-codex/src/cloud_lifecycle_ledger.rs:311-348 | a terminal projection is never rewritten, and its task never replaced |
| `LifecycleLedger.CloudLifecycleLedger.AppendPhase` | crates/codebox-agent-codex/src/cloud_lifecycle_ledger.rs:233-240 | in-place append: exactly the specified state, or unchanged |
| `LifecycleLedger.CloudLifecycleLedger.MarkStatus` | crates/codebox-agent-codex/src/cloud_lifecycle_ledger.rs:136-158 | in-place: exactly the phase of the status read, with the task, or refused |
| `LifecycleLedger.CloudLifecycleLedger.MarkCanceledWithoutTask` | crates/codebox-agent-codex/src/cloud_lifecycle_ledger.rs:160-167 | in-place: cancellation before any task |
| `LifecycleLedger.CloudLifecycleLedger.MarkCanceledWithTask` | crates/codebox-agent-codex/src/cloud_lifecycle_ledger.rs:169-176 | in-place: cancellation that may leave the task running |
| `LifecycleLedger.CloudLifecycleLedger.MarkReconciliation` | crates/codebox-agent-codex/src/cloud_lifecycle_ledger.rs:182-209 | in-place: candidates, completeness and one more generation, or refused |
| `LifecycleLedger.CloudLifecycleLedger.Validate` | crates/codebox-agent-codex/src/cloud_lifecycle_ledger.rs:242-299 | the validation loop returns true exactly for the well-formed projections |
| `LedgerValidation.SubmitRecordsExactly` | crates/codebox-agent-codex/src/cloud_submit_ledger.rs:115-211 | for every record of the submit ledger, the phases, room and arguments with which it is accepted |
| `LedgerValidation.SubmitValidatesExactly` | crates/codebox-agent-codex/src/cloud_submit_ledger.rs:213-284 | a submit ledger passes validation, and lists no candidates without a reconciliation, if and only if some sequence of records writes it |
| `LedgerValidation.UnlistedPasses` | crates/codebox-agent-codex/src/cloud_submit_ledger.rs:213-284 | a ledger that passes although no sequence of records writes it |
| `LedgerValidation.LifecycleRecordsExactly` | crates/codebox-agent-codex/src/cloud_lifecycle_ledger.rs:128-240 | for every record of the projection, the phases, room and arguments with which it is accepted |
| `LedgerValidation.LifecycleValidatesExactly` | crates/codebox-agent-codex/src/cloud_lifecycle_ledger.rs:242-299 | a projection passes validation, and enters no pending status twice in a row, if and only if some sequence of records writes it |
| `LedgerValidation.StutterPasses` | crates/codebox-agent-codex/src/cloud_lifecycle_ledger.rs:242-299 | a projection that passes although no sequence of records writes it |
| `LedgerValidation.DispatchesExactly` | crates/codebox-agent-codex/src/cloud_runner.rs:586-638 | over a valid ledger: when a submit goes on, and which answer it gets when it does not |
| `LedgerValidation.ClassifiesExactly` | crates/codebox-agent-codex/src/cloud_runner.rs:640-681 | over a valid ledger: exactly when each observation or error is reported |
| `SubmitProtocol.CrashAnywhere` | crates/codebox-agent-codex/src/cloud_lifecycle.rs:186-302 | a crash is a step of every running world, so every run may be cut after any write |
| `ProtocolInvariant.ObservationExplains` | crates/codebox-agent-codex/src/cloud_runner.rs:640-681 | every observation the runner can make of a repaired pair is one that the projection explains; never a conflict |
| `ProtocolInvariant.RepairedSound` | crates/codebox-agent-codex/src/cloud_lifecycle.rs:540-614 | repair meets no conflict; its result is sound and not `Submitting` |
| `ProtocolInvariant.RecheckNeverFails` | crates/codebox-agent-codex/src/cloud_lifecycle.rs:223-236 | when the runner has answered, the recheck of the in-memory record cannot fail |
| `ProtocolInvariant.StepKeepsInv` | crates/codebox-agent-codex/src/cloud_lifecycle.rs:186-529 | every step of runner, orchestrator, crash and restart keeps the joint invariant, whether each write is durable, lost, or durable but reported failed |
| `ProtocolInvariant.InvAlways` | crates/codebox-agent-codex/src/cloud_lifecycle.rs:186-614 | the invariant holds in every world of every run |
| `ProtocolTheorems.JointInvariant` | crates/codebox-agent-codex/src/cloud_lifecycle.rs:186-302 | the durable projection fixes the durable submit ledger, phase by phase; a submit reported failed was never executed even if writes fail |
| `ProtocolTheorems.PersistedLedgersAreValid` | crates/codebox-agent-codex/src/cloud_lifecycle_ledger.rs:242-299 | every ledger on disk in any run passes validation; the upper history never exceeds four entries |
| `ProtocolTheorems.ExecOnlyWhenAuthorized` | crates/codebox-agent-codex/src/cloud_runner.rs:161-192 | an exec is spawned only over a durable `Authorized` of the same operation, which was never executed before |
| `ProtocolTheorems.SettledBeforeOverwritten` | crates/codebox-agent-codex/src/cloud_runner.rs:586-638 | a submit ledger is replaced only by a new intent, and only once its own exec is settled |
| `ProtocolTheorems.ExecsAreSettledAndNeverRepeat` | crates/codebox-agent-codex/src/cloud_runner.rs:124-243 | at every exec of every run, all earlier executed operations differ from it and were settled first; no operation is executed twice |
| `ProtocolTheorems.RepairIsTotalAndIdempotent` | crates/codebox-agent-codex/src/cloud_lifecycle.rs:540-614 | from every crashed world construction completes, executes nothing, leaves no `Submitting`, and a second one changes nothing; it is refused exactly when an unsettled projection meets a submit ledger of another environment or branch |
| `ProtocolTheorems.DecisionSurvivesCrash` | crates/codebox-agent-codex/src/cloud_lifecycle.rs:698-726 | after a crash between the two writes of a resolution, a restart under the same configuration accepts a decision if and only if it is the one on disk, and does not touch the submit ledger |
| `ProtocolAdoption.AdoptedTaskIsListed` | crates/codebox-agent-codex/src/cloud_runner.rs:395-469 | over all runs: if no listing of the operation was stored and reported as failed, an adopted task is in the complete list of the projection on disk and in the list of the submit ledger |
| `ProtocolAdoption.AdoptedTaskListedExactly` | crates/codebox-agent-codex/src/cloud_lifecycle.rs:382-476 | over all runs, without that condition: the projection on disk names the adopted task if and only if it did when the decision was recorded below, or memory was stored since then and before a crash |
| `ProtocolAdoption.AdoptionWasDecided` | crates/codebox-agent-codex/src/cloud_runner.rs:395-469 | every adoption on disk goes back to a recorded decision of the run |
| `ProtocolAdoption.UnlistedAdoptionReachable` | crates/codebox-agent-codex/src/cloud_lifecycle.rs:352-377 | a concrete run whose disk projection does not name the task adopted below |
| `ProtocolAdoption.MemoryListsAdopted` | crates/codebox-agent-codex/src/cloud_lifecycle.rs:382-476 | while the outcome is unknown in memory, memory names the task adopted below |
| `ProtocolAdoption.DecisionIsFinal` | crates/codebox-agent-codex/src/cloud_runner.rs:395-469 | over all runs: once a decision is below no other decision and no listing is possible, and the replay of exactly that decision is |
| `ProtocolTheorems.SubmitWindow` | crates/codebox-agent-codex/src/cloud_lifecycle.rs:211-302 | while a submit is in flight only it, its own finish and a crash can move the system; the recheck after it succeeds and the conflict branch is unreachable |
| `ProtocolTheorems.ProjectionRestsOrIsSuperseded` | crates/codebox-agent-codex/src/cloud_lifecycle.rs:134-160 | a diff-eligible projection stays on disk unchanged until a later start is written, and is never restored afterwards |
| `ProtocolTheorems.AuthorityHoldsUntilNextStart` | crates/codebox-agent-codex/src/cloud_runner.rs:529-584 | a minted diff authority revalidates against both ledgers exactly until the next start persists its record, and exactly under the configuration it was minted for |
| `ProtocolReads.ShowsLastRead` | crates/codebox-agent-codex/src/cloud_lifecycle.rs:307-347 | over all runs: a ready, applied or failed projection on disk shows exactly the last status stored for its operation |
| `ProtocolReads.MemoryShowsLastRead` | crates/codebox-agent-codex/src/cloud_lifecycle.rs:307-347 | so does the one in memory |
| `ProtocolReads.MintedWasRead` | crates/codebox-agent-codex/src/cloud_lifecycle.rs:134-160 | over all runs: a diff authority exists only for a task whose last stored status was ready or applied |
| `ProtocolLimits.StrandedExactly` | crates/codebox-agent-codex/src/cloud_runner.rs:161-192 | a submit reported failed leaves a ledger that blocks every later submit if and only if one of two named write outcomes happened |
| `ProtocolSettling.StrandingWasCaused` | crates/codebox-agent-codex/src/cloud_runner.rs:161-192 | every such world of every run goes back to one of those two writes of the same operation |
| `ProtocolSettling.StrandedIfAndOnlyIf` | crates/codebox-agent-codex/src/cloud_runner.rs:161-192 | over all runs: a submit reported as failed is one its ledger says may have run if and only if one of those two writes went before |
| `ProtocolSettling.StrandingThenFinish` | crates/codebox-agent-codex/src/cloud_lifecycle.rs:255-302 | one of those two writes, then the stored answer of that submit, is stranded in every later world, with no further exec |
| `ProtocolSettling.StrandedForever` | crates/codebox-agent-codex/src/cloud_runner.rs:586-638 | every later world of the run is still stranded, and nothing is executed again |
| `ProtocolSettling.RefusedRestartReachable` | crates/codebox-agent-codex/src/cloud_runner.rs:492-527 | for any two different configurations, a concrete run whose next construction is refused |
| `ProtocolLimits.StrandedReachable` | crates/codebox-agent-codex/src/cloud_runner.rs:161-162 | a concrete run that ends there |
| `ProtocolSettling.SettleableExactly` | crates/codebox-agent-codex/src/cloud_lifecycle.rs:382-476 | over all runs: an unknown outcome can still be adopted or abandoned by some continuation if and only if the history has an entry for the decision, and one more for a listing when the disk projection has none |
| `ProtocolSettling.UnknownIsUndecided` | crates/codebox-agent-codex/src/cloud_lifecycle.rs:387-405 | every unknown outcome an operator sees is one that condition speaks of |
| `ProtocolSettling.ExhaustedForever` | crates/codebox-agent-codex/src/cloud_submit_ledger.rs:115-125 | with a full history the submit side never changes again in the run |
| `ProtocolSettling.NearlyFullReachable` | crates/codebox-agent-codex/src/cloud_runner.rs:309-378 | a concrete run to 31 entries without a listing above, where the ledger would take a decision and the system never does |
| `ProtocolLimits.ExhaustedReachable` | crates/codebox-agent-codex/src/cloud_runner.rs:309-378 | a concrete run that gets there with every write durable |
| `CloudListing.DecodeList` | crates/codebox-agent-codex/src/cloud.rs:744-832 | a page decodes exactly when it has at most the allowed number of rows and no task twice |
| `CloudListing.AddPage` | crates/codebox-agent-codex/src/cloud_runner.rs:340-347 | a page is added whole, in order, exactly when no task repeats |
| `CloudListing.ListCandidates` | crates/codebox-agent-codex/src/cloud_runner.rs:309-378 | against any provider: at most 5 calls and 100 distinct tasks, equal to the concatenated pages; complete iff the last page read had no cursor, and cut short only by the page limit or the deadline; refused iff an answer does not decode or a task or cursor repeats, with the category of the first that did |
| `CloudRunner.Host.PersistSubmit` | crates/codebox-agent-codex/src/cloud_submit_ledger.rs:382-417 | writes the submit ledger and extends the run by the given step |
| `CloudRunner.Host.PersistLifecycle` | crates/codebox-agent-codex/src/cloud_lifecycle_ledger.rs:395-422 | writes the projection and extends the run by the given step |
| `CloudRunner.CloudTaskRunner.RecoverCurrentLedger` | crates/codebox-agent-codex/src/cloud_runner.rs:492-527 | rewrites an interrupted ledger and nothing else; succeeds exactly when the configuration matches and a needed write is durable |
| `CloudRunner.CloudTaskRunner.Authorize` | crates/codebox-agent-codex/src/cloud_runner.rs:136-162 | succeeds exactly when intent and authorization are durable, no cancellation was asked for, and login and sentinel passed; the authorization is then on disk and nothing was spawned; otherwise the error is the one for what the environment did |
| `CloudRunner.CloudTaskRunner.Withdraw` | crates/codebox-agent-codex/src/cloud_runner.rs:141-159 | records that nothing was spawned; the answer is the given category with the operation, or an unavailable ledger when the record is not durable |
| `CloudRunner.CloudTaskRunner.PersistUnknown` | crates/codebox-agent-codex/src/cloud_runner.rs:683-697 | records an unknown outcome; the error says whether the record is durable |
| `CloudRunner.CloudTaskRunner.ExecuteAuthorized` | crates/codebox-agent-codex/src/cloud_runner.rs:163-192 | appends exactly this operation to the exec log if and only if the process was spawned; the answer is the task exactly when start, completion and both records succeeded, else the error for the first that did not |
| `CloudRunner.CloudTaskRunner.Supervise` | crates/codebox-agent-codex/src/cloud_runner.rs:194-243 | from spawn to recorded task or unknown outcome; never a second exec |
| `CloudRunner.CloudTaskRunner.RecordCompletion` | crates/codebox-agent-codex/src/cloud_runner.rs:231-243 | the task is on disk, or the outcome is recorded as unknown |
| `CloudRunner.CloudTaskRunner.SubmitRequest` | crates/codebox-agent-codex/src/cloud_runner.rs:124-243 | one submit extends the run of the protocol; its operation is executed, once, exactly when the ledger lets it proceed, version, intent and authorization hold, neither cancellation nor login stopped it and the command started; the answer is the ledger's own or, in terms of the environment alone, the one for what happened |
| `CloudRunner.CloudTaskRunner.ObserveSubmit` | crates/codebox-agent-codex/src/cloud_runner.rs:383-390 | reports exactly the classification of the recovered ledger, or which of busy, mismatch or failed write prevented it |
| `CloudRunner.CloudTaskRunner.ReconcileUnknown` | crates/codebox-agent-codex/src/cloud_runner.rs:309-378 | succeeds exactly when an unsettled ledger with an entry left meets an accepted version, a listing that decodes and durable writes; the ledger then holds the concatenated pages and whether they are all; every failure has the category of its cause |
| `CloudRunner.CloudTaskRunner.RecordListing` | crates/codebox-agent-codex/src/cloud_runner.rs:370-378 | stores the listing; refused for validity exactly when 32 entries are used |
| `CloudRunner.CloudTaskRunner.ResolveUnknown` | crates/codebox-agent-codex/src/cloud_runner.rs:395-469 | succeeds exactly when the ledger already carries the decision, or is reconciled with an entry left, lists the task and the write is durable; every refusal has the error of its cause |
| `CloudOrchestrator.CloudTaskOrchestrator.FromRunner` | crates/codebox-agent-codex/src/cloud_lifecycle.rs:169-181 | construction executes nothing; an unsettled projection becomes, phase by phase, what the submit ledger found on disk shows, and any other is handed out as it is; a busy lease or a mismatched ledger under an unsettled projection refuses it unchanged, and otherwise only a failed write that was needed does |
| `CloudOrchestrator.CloudTaskOrchestrator.Repairing` | crates/codebox-agent-codex/src/cloud_lifecycle.rs:540-614 | repairs an interrupted projection from what the submit ledger shows |
| `CloudOrchestrator.CloudTaskOrchestrator.Start` | crates/codebox-agent-codex/src/cloud_lifecycle.rs:186-302 | succeeds exactly when no turn runs, no earlier submit stands in the way and its writes are durable; executes the fresh operation exactly when the submit does; stores the projection of the answer, and every refusal has the error of its cause |
| `CloudOrchestrator.CloudTaskOrchestrator.BeginTurn` | crates/codebox-agent-codex/src/cloud_lifecycle.rs:187-217 | the `Submitting` record is on disk before the runner is asked |
| `CloudOrchestrator.CloudTaskOrchestrator.RecordAnswer` | crates/codebox-agent-codex/src/cloud_lifecycle.rs:253-291 | the projection stored is the one for the runner's answer |
| `CloudOrchestrator.CloudTaskOrchestrator.FinishStart` | crates/codebox-agent-codex/src/cloud_lifecycle.rs:292-302 | the answer is stored before it is believed: success if and only if the write is durable |
| `CloudOrchestrator.CloudTaskOrchestrator.InspectTask` | crates/codebox-agent-codex/src/cloud_lifecycle.rs:307-347 | a pending task is shown as exactly the status read, if there is one and its record is durable; any other phase changes nothing, and each refusal has its error |
| `CloudOrchestrator.CloudTaskOrchestrator.CancelTurn` | crates/codebox-agent-codex/src/cloud_lifecycle.rs:481-529 | waits exactly while a submit is in flight; a pending task is cancelled exactly when the write is durable, a settled projection is returned as it is, and nothing else is changed |
| `CloudOrchestrator.CloudTaskOrchestrator.Reconcile` | crates/codebox-agent-codex/src/cloud_lifecycle.rs:352-377 | succeeds exactly when the listing below does and the projection is durable; both ledgers then hold the same candidates and completeness, one generation later; each refusal has its error |
| `CloudOrchestrator.CloudTaskOrchestrator.Resolve` | crates/codebox-agent-codex/src/cloud_lifecycle.rs:382-476 | a settled projection accepts exactly its own decision again; an unknown one is resolved exactly when the decision is allowed above, resolvable below, and the write is durable, and an adopted task is shown as exactly the status read; each refusal has its error |
| `CloudOrchestrator.RepairedShows` | crates/codebox-agent-codex/src/cloud_lifecycle.rs:540-614 | what repair makes of a projection is, phase by phase, what the submit ledger shows; it is left alone exactly when an unknown outcome is still unknown |
| `CloudOrchestrator.VacantIsAbsent` | crates/codebox-agent-codex/src/cloud_runner.rs:640-681 | a fresh operation finds nothing in its way exactly when the submit ledger is closed or never got past its intent |
| `IdempotencyRegistry.AccountedBound` | apps/control-plane/src/idempotency.rs:111-113 | 128 bounded entries never saturate the byte total |
| `IdempotencyRegistry.Idempotency.Remove` | apps/control-plane/src/idempotency.rs:286-293 | removes one entry and exactly its bytes |
| `IdempotencyRegistry.Idempotency.PruneExpired` | apps/control-plane/src/idempotency.rs:234-249 | an entry stays exactly if it is in flight, waited on, or its deadline, if any, is still ahead |
| `IdempotencyRegistry.Idempotency.OldestCompleted` | apps/control-plane/src/idempotency.rs:276-284 | finds a removable entry of least completion number, or there is none |
| `IdempotencyRegistry.Idempotency.MakeCapacity` | apps/control-plane/src/idempotency.rs:251-265 | evicts the shortest completion-order prefix of removable entries that makes room; fails only when nothing removable is left |
| `IdempotencyRegistry.Idempotency.EvictToStorageBound` | apps/control-plane/src/idempotency.rs:267-274 | evicts the shortest such prefix, never the protected entry; any excess left is not removable |
| `IdempotencyRegistry.Idempotency.Admit` | apps/control-plane/src/idempotency.rs:26-83 | a key with an entry that has not lapsed joins it, or conflicts; any other key is inserted with a fresh residency within 128 entries and 8 MiB, or refused when nothing more can go; an entry is lost only to its deadline or to the room needed |
| `IdempotencyRegistry.Idempotency.Complete` | apps/control-plane/src/idempotency.rs:85-114 | only an in-flight entry takes the response, once, with the next completion number, which is above all others; afterwards any excess means every other entry is in flight or waited on |
| `IdempotencyRegistry.Idempotency.ReleaseAuthSession` | apps/control-plane/src/idempotency.rs:116-134 | removes exactly the completed, unwaited entries bound to the session |
| `IdempotencyRegistry.Idempotency.Clear` | apps/control-plane/src/idempotency.rs:136-140 | empties the registry |
| `IdempotencyRegistry.Idempotency.TakeResponse` | apps/control-plane/src/idempotency.rs:182-196 | pending, missing, or the stored response and one waiter fewer |
| `IdempotencyRegistry.Idempotency.DropWaiter` | apps/control-plane/src/idempotency.rs:198-211 | one waiter fewer |
| `IdempotencyRegistry.ResponseSize` | apps/control-plane/src/transport.rs:82-91 | a response counts 64 bytes, its body, and the name and value of every header |
| `IdempotencyRegistry.RoomTrims` | apps/control-plane/src/idempotency.rs:26-83 | what pruning and eviction remove together is what had lapsed and what had to make room |
| `IdempotencyRegistry.ExcessIsStorage` | apps/control-plane/src/idempotency.rs:85-114 | what goes after a completion goes because the storage bound is exceeded |
| `AppSessions.AddKeepsSound` | apps/control-plane/src/state.rs:157-221 | below the limit a session with an unused token keeps numbers, tokens and the limit of four |
| `AppSessions.PruneKeepsSound` | apps/control-plane/src/state.rs:510-519 | pruning keeps them |
| `AppSessions.ReleaseKeepsSound` | apps/control-plane/src/state.rs:421-442 | releasing keeps them |
| `AppSessions.AppSessionRegistry.PruneExpired` | apps/control-plane/src/state.rs:510-519 | what stays are the usable sessions and the ended ones that a request holds, the latter marked; the order is kept, so that the sort changes nothing |
| `AppSessions.AppSessionRegistry.Create` | apps/control-plane/src/state.rs:157-221 | succeeds exactly below four usable sessions, with an unused token drawn and a representable deadline; takes the first such draw |
| `AppSessions.AppSessionRegistry.Authenticate` | apps/control-plane/src/state.rs:223-254 | succeeds exactly for the one retained session with this token that is neither invalidated nor expired; one lease more |
| `AppSessions.AppSessionRegistry.Invalidate` | apps/control-plane/src/state.rs:404-419 | invalidates exactly the session with this number and token |
| `AppSessions.AppSessionRegistry.Release` | apps/control-plane/src/state.rs:421-442 | one lease fewer; removes an invalidated session with its last lease and then, or if it is already gone, asks for cleanup |
| `AppSessions.AppSessionRegistry.IsValid` | apps/control-plane/src/state.rs:444-453 | true exactly for a session that is known, not invalidated and not expired |
| `Shutdown.Lifecycle.BeginShutdown` | apps/control-plane/src/state.rs:744-771 | one pass of the loop: the first caller drains and leads at zero, later ones follow or return the stored result |
| `ControlPlaneInvariant.ReleasingKeepsLogout` | apps/control-plane/src/state.rs:421-442 | when the last lease goes, the logout answers pass to the release that still has to clean up |
| `ControlPlaneInvariant.OtherLeaseKeeps` | apps/control-plane/src/state.rs:421-442 | a release never removes a session that another request still leases |
| `ControlPlaneSteps.CleanedIsUnwaited` | apps/control-plane/src/idempotency.rs:116-134 | nobody waits on a logout entry of a session whose release is cleaning up, so cleanup removes them all |
| `ControlPlaneSteps.QuietOnceDrained` | apps/control-plane/src/state.rs:455-478 | with no active operation no request waits and no worker runs |
| `ControlPlaneSteps.StepKeepsInv` | apps/control-plane/src/routes.rs:325-382 | every critical section and every drop keeps the invariant, in any interleaving |
| `ControlPlaneSteps.InvAlways` | apps/control-plane/src/routes.rs:325-382 | so it holds in every state of every run |
| `ControlPlaneTheorems.OneOwnerOneAnswer` | apps/control-plane/src/idempotency.rs:58-114 | each residency of a key has an owner and at most one completion |
| `ControlPlaneTheorems.OwnerIsUnique` | apps/control-plane/src/idempotency.rs:38-83 | two owners of one residency, at any two moments, are the same request |
| `ControlPlaneTheorems.SameAnswer` | apps/control-plane/src/idempotency.rs:163-196 | everyone answered under one residency, whenever, gets the same response, and never a missing entry |
| `ControlPlaneTheorems.BusyEntryStays` | apps/control-plane/src/idempotency.rs:233-294 | no step removes or replaces an entry in flight or waited on, not even the clear at shutdown |
| `ControlPlaneTheorems.NoLostWakeup` | apps/control-plane/src/idempotency.rs:163-180 | a sleeping waiter can wake now, or the owner of its residency is still at work |
| `ControlPlaneServer.Server.Authenticate` | apps/control-plane/src/state.rs:223-254 | the session registry's authentication is one step of the runs, with the lease it returns |
| `ControlPlaneServer.Server.CreateSession` | apps/control-plane/src/state.rs:157-221 | so is session creation, or the pruning it leaves |
| `ControlPlaneServer.Server.LogOut` | apps/control-plane/src/state.rs:404-419 | so is the invalidation by a logout |
| `ControlPlaneServer.Server.ReleaseLease` | apps/control-plane/src/state.rs:421-442 | so is a lease's first critical section; cleanup follows exactly when the request says so |
| `ControlPlaneServer.Server.Cleanup` | apps/control-plane/src/idempotency.rs:116-134 | so is its second |
| `ControlPlaneServer.Server.AdmitOperation` | apps/control-plane/src/state.rs:723-735 | so is admission at the gate |
| `ControlPlaneServer.Server.ReleaseOperation` | apps/control-plane/src/state.rs:785-792 | so is the drop of an operation |
| `ControlPlaneServer.Server.Admit` | apps/control-plane/src/routes.rs:341-357 | so is the admission of a key, with its owner, residency or refusal |
| `ControlPlaneServer.Server.Complete` | apps/control-plane/src/routes.rs:358-378 | so is the worker's completion |
| `ControlPlaneServer.Server.Check` | apps/control-plane/src/idempotency.rs:182-196 | so is a waiter's look, which never finds its entry missing |
| `ControlPlaneServer.Server.CancelWait` | apps/control-plane/src/idempotency.rs:198-211 | so is the drop of a waiter |
| `ControlPlaneServer.Server.EnterShutdown` | apps/control-plane/src/state.rs:744-771 | so is a caller's entry into shutdown |
| `ControlPlaneServer.Server.Drain` | apps/control-plane/src/state.rs:752-760 | so is the drainer's second look |
| `ControlPlaneServer.Server.FollowUp` | apps/control-plane/src/state.rs:762-768 | so is a follower's |
| `ControlPlaneServer.Server.ForgetSessions` | apps/control-plane/src/state.rs:472-474 | so is the clearing of the sessions |
| `ControlPlaneServer.Server.ForgetEntries` | apps/control-plane/src/state.rs:475-475 | so is the clearing of the entries |
| `ControlPlaneServer.Server.StoreOutcome` | apps/control-plane/src/state.rs:773-778 | so is the storing of the result |
| `ControlPlaneTheorems.AdmissionIsJoin` | apps/control-plane/src/idempotency.rs:26-83 | what the registry's admission promises is exactly the join step of the runs |
| `ControlPlaneAnswers.JoinsExactly` | apps/control-plane/src/idempotency.rs:26-83 | over all runs: an admitted request joins exactly an entry of its key that has not lapsed; otherwise it does the work, under a residency nobody had |
| `ControlPlaneAnswers.AnswerIsKept` | apps/control-plane/src/idempotency.rs:233-294 | over all runs: a stored answer is still there, unchanged, unless a step since then dropped it after its deadline, for room, past the storage bound, with its session, or at shutdown |
| `ControlPlaneTheorems.LogoutAnswerIsTransient` | apps/control-plane/src/state.rs:421-442 | before shutdown a completed logout answer exists only while its invalidated session has a live lease or its release is between its two critical sections |
| `ControlPlaneTheorems.CleanupLeavesNone` | apps/control-plane/src/idempotency.rs:116-134 | after the cleanup no completed answer bound to the session is left |
| `ControlPlaneTheorems.LeaseCountsAreExact` | apps/control-plane/src/state.rs:223-254 | in every state lease counts equal the leases held, leased sessions are retained, and at most four sessions are alive |
| `ControlPlaneTheorems.InvalidatedNeverAuthenticates` | apps/control-plane/src/state.rs:223-254 | no later step of any run authenticates an invalidated or removed session |
| `ControlPlaneTheorems.OneLeader` | apps/control-plane/src/state.rs:744-771 | at most one caller drains or leads, and the lower cleanup has run at most once |
| `ControlPlaneTheorems.LeaderIsAlone` | apps/control-plane/src/state.rs:455-478 | from the moment a caller leads, no operation is active and none ever starts |
| `ControlPlaneTheorems.ReturnsTheCleanup` | apps/control-plane/src/state.rs:455-478 | whoever returns, returns the result of the one cleanup |
| `ControlPlaneTheorems.CleanupWasRun` | apps/control-plane/src/state.rs:455-478 | a recorded result goes back to one cleanup of the run: the session failure if the session cleanup failed, else the login failure if that failed, else success |
| `ControlPlaneTheorems.ReturnsHowItWent` | apps/control-plane/src/state.rs:455-478 | whoever returns, returns how the two lower cleanups of the run went |
| `ControlPlaneTheorems.AllReturnTheSame` | apps/control-plane/src/state.rs:455-478 | any two callers, at any two moments, return the same result |
| `ControlPlaneTheorems.ShutdownProgresses` | apps/control-plane/src/state.rs:744-778 | no caller is stuck: an operation is still active or some caller can move |
| `StreamServer.PrepareReplay` | apps/control-plane/src/websocket.rs:652-711 | accepts exactly the gap-free subscriptions whose frames fit, and emits begin, events, snapshot, end |
| `StreamServer.StreamSubscription` | apps/control-plane/src/websocket.rs:561-650 | what was sent is a prefix of the grammar, then exactly the deliverable live events; close, shutdown, expiry, a stray client frame, lag and a bad envelope each give their own outcome |
| `StreamServer.ConnectionOutcome` | apps/control-plane/src/websocket.rs:794-812 | a closed connection, shutdown, expiry and a stray frame each give their own outcome |
| `StreamRefusals.ErrorFrames` | apps/control-plane/web/p0-client.js:1134-1187 | every error frame ends its socket; a frame not understood or a mismatch stops the client, a refuted cursor is distrusted and removed, an expired authentication signs out, any other refreshes |
| `StreamRefusals.EventArrives` | apps/control-plane/web/p0-client.js:1228-1263 | an event out of place stops the client; in place it moves the cursor, joins the list of at most 256 and is stored, or is old and changes nothing, or leaves a gap and distrusts the cursor |
| `StreamRefusals.TooLong` | apps/control-plane/web/p0-client.js:1189-1196 | a frame of more than 64 KiB stops the client |
| `StreamRefusals.SocketCloses` | apps/control-plane/web/p0-client.js:1363-1378 | a closed socket is heard no more, every other one as before, and the cursor stays |
| `StreamRefusals.SnapshotArrives` | apps/control-plane/web/p0-client.js:1026-1058 | the snapshot resumes the stored cursor exactly if it is of the same session, not ahead and not distrusted; otherwise the client starts at its end with an empty list |
| `StreamRefusals.RefreshStarts` | apps/control-plane/web/p0-client.js:1009-1025 | a refresh drops the socket and takes the stored cursor with it, if storage can be read |
| `StreamRefusals.SocketOpens` | apps/control-plane/web/p0-client.js:1067-1089 | a socket opens exactly for the current refresh of an identified client without one, from its cursor |
| `StreamRefusals.DistrustLasts` | apps/control-plane/web/p0-client.js:1134-1187 | over all runs: after a heard history gap, future cursor or wrong session the cursor stays distrusted until a snapshot answers or the client signs out |
| `StreamRefusals.DistrustedStartsAfresh` | apps/control-plane/web/p0-client.js:1026-1058 | over all runs: the snapshot that answers starts the client at its own end, with an empty list, and is what gets stored |
| `StreamRefusals.NextSocketStartsAtSnapshot` | apps/control-plane/web/p0-client.js:1067-1089 | over all runs: the next socket then subscribes from that snapshot's end, whatever storage did in between |
| `StreamAcceptance.AcceptsExactly` | apps/control-plane/web/p0-client.js:1189-1301 | for frames from any sender: a new socket is still heard after them if and only if they are a beginning of the protocol, and its cursor is then the highest number received |
| `StreamTheorems.ClientFollowsServer` | apps/control-plane/web/p0-client.js:1189-1301 | for anything the server has sent the client has no protocol failure, its cursor is the last event sent, and it applied each number once, in order |
| `StreamTheorems.ServerErrorsUnderstood` | apps/control-plane/web/p0-client.js:1134-1187 | the client stops for good on a server error frame exactly when a bound it needs is missing, out of order or unsafe |
| `StreamTheorems.ActKeepsHistory` | apps/control-plane/web/p0-client.js:1009-1089 | every client action keeps the history invariant, storage failures included |
| `StreamTheorems.HistoryAlways` | apps/control-plane/web/p0-client.js:1228-1263 | in every state of every session the events shown are at most 256 consecutive numbers ending at the cursor |
| `StreamTheorems.ActSucceeds` | apps/control-plane/web/p0-client.js:1303-1379 | generations only grow, a stream keeps its own, and a socket number is never used again |
| `StreamTheorems.StaleFramesChangeNothing` | apps/control-plane/web/p0-client.js:1303-1379 | over all runs: once a socket is replaced, closed or of an older generation, no frame it delivers at any later point changes anything |
| `StreamReconnect.ReconnectsShowOnce` | apps/control-plane/web/p0-client.js:1228-1263 | over all runs, while the cursor is not given up: through any reconnects, refreshes and storage failures every number is shown exactly once, in order, and the list is the last 256 |
| `StreamReconnect.RestartsEmpty` | apps/control-plane/web/p0-client.js:1042-1058 | whatever gives the cursor up empties the list |
| `StreamReconnect.FrameAtIsWire` | apps/control-plane/src/websocket.rs:652-711 | the frames of the growing-log system are those of the server's transcripts |
| `StreamReconnect.SystemInvAlways` | apps/control-plane/web/p0-client.js:1189-1379 | with any number of sockets on one growing log the heard one is always in step with its transcript |
| `StreamReconnect.CursorFollowsLog` | apps/control-plane/web/p0-client.js:1189-1301 | in every state of every such run the cursor is where the current transcript is, and the end of the log once all is delivered |
| `StreamReconnect.TerminalOnlyByError` | apps/control-plane/web/p0-client.js:1134-1187 | in every such run the client stops for good only through an error frame without a usable bound, or a protocol or version mismatch |
| `StreamReconnect.GenuineIsUnderstood` | crates/codebox-session-runtime/src/runtime.rs:709-730 | what `subscribe` refuses a heard socket with always names usable bounds and is never a wrong session |
| `StreamReconnect.RefusesExactly` | crates/codebox-session-runtime/src/runtime.rs:709-730 | a running session with a place left refuses a cursor exactly if it is ahead of the log or an event after it is gone, with the bounds the client needs |
| `StreamReconnect.RefusalOrder` | crates/codebox-session-runtime/src/runtime.rs:709-730 | wrong session before stopped worker before cursor before subscriber limit |
| `StreamReconnect.TerminalOnlyByMismatch` | apps/control-plane/web/p0-client.js:1134-1187 | in every run whose error frames are ones `subscribe` sends for this log, only a protocol or version mismatch stops the client for good |
| `StreamReconnect.SnapshotIsSteady` | apps/control-plane/web/p0-client.js:1026-1058 | a snapshot that answers the current refresh with storage working leaves its cursor stored and trusted |
| `StreamReconnect.CalmRunsShowOnce` | apps/control-plane/web/p0-client.js:1026-1058 | from there, as long as storage works, nobody signs out, nothing distrusts the cursor and no snapshot is behind it, every refresh resumes: each later event is shown exactly once, in order, through any number of sockets |
| `StreamController.P0Controller.OnEvent` | apps/control-plane/web/p0-client.js:1228-1263 | applies the next number, ignores an old one, distrusts on a gap, fails on a protocol error |
| `StreamController.P0Controller.OnErrorFrame` | apps/control-plane/web/p0-client.js:1134-1187 | one error frame: the specified state, which `ErrorFrames` describes code by code |
| `StreamController.P0Controller.Message` | apps/control-plane/web/p0-client.js:1189-1301 | one frame: the specified state, which `ErrorFrames`, `EventArrives` and `AcceptsExactly` describe, and the history invariant |
| `StreamController.P0Controller.BeginRefresh` | apps/control-plane/web/p0-client.js:1009-1025 | a new generation awaits its snapshot; the history invariant holds |
| `StreamController.P0Controller.SessionArrived` | apps/control-plane/web/p0-client.js:1026-1058 | the specified state, which `SnapshotArrives` and `LateSnapshot` describe; the history invariant holds |
| `StreamController.P0Controller.LoginArrived` | apps/control-plane/web/p0-client.js:1067-1089 | opens the socket for the current generation only |
| `Rfc3339.DaysAgree` | crates/codebox-agent-codex/src/cloud.rs:1160-1170 | the month lengths are those of section 5.7 with the leap rule of Appendix C |
| `Rfc3339.ClockIff` | crates/codebox-agent-codex/src/cloud.rs:1064-1104 | the first nineteen bytes pass exactly when they print a valid date and time |
| `Rfc3339.ZoneIff` | crates/codebox-agent-codex/src/cloud.rs:1119-1136 | the zone passes exactly when it prints Z or an offset |
| `Rfc3339.TailWithFraction` | crates/codebox-agent-codex/src/cloud.rs:1106-1136 | with a fraction, the digits run up to the first byte that is none |
| `Rfc3339.ValidRfc3339` | crates/codebox-agent-codex/src/cloud.rs:1064-1137 | accepts a byte string if and only if it is the printing of some date-time of section 5.6 of RFC 3339 |
| `DevicePrompt.BoundedCapture.Push` | crates/codebox-agent-codex/src/runtime.rs:608-617 | the capture stays the first `limit` bytes of everything pushed, overflow iff there was more |
| `DevicePrompt.CaptureChunks` | crates/codebox-agent-codex/src/runtime.rs:608-617 | any partition into chunks captures the same bytes and the same overflow |
| `DevicePrompt.StripColour` | crates/codebox-agent-codex/src/parser.rs:134-165 | the index loop computes the specified stripping |
| `DevicePrompt.StripUndoesColour` | crates/codebox-agent-codex/src/parser.rs:134-165 | stripping undoes any insertion of colour sequences |
| `DevicePrompt.StrippedIsColoured` | crates/codebox-agent-codex/src/parser.rs:134-165 | and accepts nothing else |
| `DevicePrompt.PrefixStrips` | crates/codebox-agent-codex/src/parser.rs:134-165 | every prefix of a coloured text strips to a prefix of the text or is partial, never broken |
| `DevicePrompt.UnixPrefix` | crates/codebox-agent-codex/src/parser.rs:175-185 | normalising line endings commutes with cutting, except inside CR LF |
| `DevicePrompt.ParseDevicePrompt` | crates/codebox-agent-codex/src/parser.rs:56-98 | computes the specified parse |
| `DevicePrompt.ParsesExactly` | crates/codebox-agent-codex/src/parser.rs:56-98 | a code is returned if and only if the output is a colouring of the prompt with that code, lines ended by LF or CR LF |
| `DevicePrompt.ChunkedPrompt` | crates/codebox-agent-codex/src/parser.rs:56-98 | every prefix of such an output is undecided or gives the final code, and is rejected if and only if its text ends in a CR |
| `DevicePrompt.CutInsideLineEnd` | crates/codebox-agent-codex/src/parser.rs:56-98 | for every prompt and every line of it, an output with that line ended by CR LF, and the cut at which it is rejected |
| `DevicePrompt.ChunkedPromptNeverFails` | crates/codebox-agent-codex/src/parser.rs:56-98 | without CR no chunking within the limit is ever rejected |
| `DevicePrompt.AsciiNeverPanics` | crates/codebox-agent-codex/src/parser.rs:56-98 | ASCII output is never sliced off a character boundary |
| `DevicePrompt.OffBoundaryPanics` | crates/codebox-agent-codex/src/parser.rs:80-83 | a concrete family of outputs that is |
| `DevicePrompt.BoundaryIff` | crates/codebox-agent-codex/src/parser.rs:80-83 | a cut is at a character boundary exactly when it leaves well-formed text |
| `DevicePrompt.PanicsExactly` | crates/codebox-agent-codex/src/parser.rs:80-83 | the parser panics exactly when text of the prompt's length has a character across the code's start, or, once the text before it matches, across its end |
| `PromptText.TextExactly` | crates/codebox-agent-codex/src/parser.rs:169-170 | bytes are taken for text if and only if they encode a sequence of Unicode scalar values |
| `PromptText.CharIsEncoded` | crates/codebox-agent-codex/src/parser.rs:169-170 | decoding the character in front and encoding it again gives its bytes |
| `PromptText.DecodeUndoesEncode` | crates/codebox-agent-codex/src/parser.rs:169-170 | and encoding undone by decoding gives the scalar value |
| `PromptText.ColourExactly` | crates/codebox-agent-codex/src/parser.rs:134-165 | what stripping removes is escape, a bracket, digits and semicolons, and an m |
| `PromptText.UndecidedExactly` | crates/codebox-agent-codex/src/parser.rs:66-70 | more output is awaited exactly while a colour sequence is open, or the text so far is text without control characters and shorter than the prompt |
| `PromptText.CodeExactly` | crates/codebox-agent-codex/src/parser.rs:187-194 | a device code is four capital letters or digits, a dash, and five more |

## Left out

- File-system mechanics (open flags, modes, rename, fsync, `flock`) and JSON encoding: a persist is one atomic cell, the lease is mutual exclusion.
- Process spawning, signals, timeouts, drain threads and command lines: their outcomes are parameters.
- Credential-scope paths, the diagnostic sentinel, login status and version checks: each is one outcome of the environment.
- Cookie, origin and token parsing, headers, content types, CSP, static assets and the DOM: boundary checks with branch-level claims only. Sessions are found by token value.
- The error-mapping tables and the wording of messages.
- `rollback_after_conflict`: unreachable with one orchestrator per state directory, as `SubmitWindow` shows.
- `LoginBroker` and its ledger: a smaller protocol of the same kind.
- The session runtime and the domain reducer: `subscribe` returns arbitrary replay, snapshot and live values; only its refusals are modelled (`SubscribeRefusal`).
- Reconnect delays, the busy flag, and everything the controller only displays: they do not touch cursor, events or generation.
- Task-list fields other than identity, cursor and row count (URL, status, title, environment, summary numbers): one bit per page says whether they decode.
- The status and completion streams of the parser beside the device prompt: expressions settled by reading.
- Fairness: `NoLostWakeup` and `ShutdownProgresses` say which step is enabled, not that the scheduler takes it.
- CloudOrchestrator.CloudTaskOrchestrator.CancelTurn: states one pass of the waiting loop, because the condition variable's wait is a step of another thread.
- Shutdown.Lifecycle.BeginShutdown: states one pass of the loop for the same reason; `ControlPlane` has the whole protocol.
- IdempotencyRegistry.Idempotency.Complete: requires the response size bound assumed above, without which the byte total could saturate.
- SubmitLedger.CloudSubmitLedger.Validate: does not model the schema version and the syntax of environment, branch and task IDs, which are checks on strings.
- LifecycleLedger.CloudLifecycleLedger.Validate: does not model the schema version and the syntax of task IDs, for the same reason.
- StreamClient: its transitions carry no contracts of their own; `StreamRefusals`, `StreamAcceptance`, `StreamTheorems` and `StreamController` state what they do.
