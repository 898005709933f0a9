/**
 * The two-ledger submit protocol as a step relation: what the disk, the process and the provider
 * look like after every durable write, with a crash possible after each one.
 *
 * The steps follow `CloudTaskRunner` (cloud_runner.rs) and `CloudTaskOrchestrator`
 * (cloud_lifecycle.rs). Every write of either ledger may fail, with or without taking effect.
 */
module SubmitProtocol {
  import opened CloudTypes
  import S = SubmitLedger
  import L = LifecycleLedger

  // ----- pure decisions of the runner

  datatype Observation =
    | Absent
    | ObservedFailed
    | ObservedUnknown
    | ObservedTask(task: TaskId)
    | ObservedAbandoned

  /** `classify_observation`: what a recovered submit ledger says about one operation. */
  function Classify(op: OperationId, lower: Option<S.SubmitState>): Result<Observation, Error> {
    if lower.None? then Ok(Absent)
    else
      var s := lower.value;
      if s.op != op then
        if s.Latest().PermitsNewOperation() then Ok(Absent)
        else Err(Error(OperationConflict, Some(s.op)))
      else
        match s.Latest()
        case FailedBeforeSpawn => Ok(ObservedFailed)
        case Unknown => Ok(ObservedUnknown)
        case ReconciliationObserved => Ok(ObservedUnknown)
        case ExplicitlyAbandoned => Ok(ObservedAbandoned)
        case Intent => Err(Error(LedgerInvalid, None))
        case Authorized => Err(Error(LedgerInvalid, None))
        case Started => Err(Error(LedgerInvalid, None))
        case _ =>
          if s.task.Some? then Ok(ObservedTask(s.task.value)) else Err(Error(LedgerInvalid, None))
  }

  /** `dispatch_existing`: how `submit` answers from the ledger alone; `None` lets it proceed. */
  function Dispatch(op: OperationId, lower: Option<S.SubmitState>): Option<Result<TaskId, Error>> {
    if lower.None? then None
    else
      var s := lower.value;
      if s.Latest().IsUnknown() then Some(Err(Error(OutcomeUnknown, Some(s.op))))
      else if s.op != op then
        if s.Latest().PermitsNewOperation() then None
        else Some(Err(Error(OutcomeUnknown, Some(s.op))))
      else
        match s.Latest()
        case FailedBeforeSpawn => Some(Err(Error(PriorFailedBeforeSpawn, Some(op))))
        case ExplicitlyAbandoned => Some(Err(Error(PriorExplicitlyAbandoned, Some(op))))
        case Intent => Some(Err(Error(OutcomeUnknown, Some(op))))
        case Authorized => Some(Err(Error(OutcomeUnknown, Some(op))))
        case Started => Some(Err(Error(OutcomeUnknown, Some(op))))
        case _ =>
          if s.task.Some? then Some(Ok(s.task.value)) else Some(Err(Error(LedgerInvalid, None)))
  }

  // ----- pure decisions of the orchestrator

  /** `repair_interrupted_state`: the repaired projection, or `None` for a conflict. */
  function Repaired(u: L.LifecycleState, seen: Observation): Option<L.LifecycleState> {
    match seen
    case ObservedTask(task) => FromAttempt(L.RecordStatus(u, task, PendingStatus))
    case ObservedAbandoned =>
      var unknown := if u.phase == L.Submitting then L.Append(u, L.Unknown) else Attempt(u, None);
      if unknown.Ok() then FromAttempt(L.Append(unknown.state, L.AbandonedUnknown)) else None
    case ObservedUnknown =>
      if u.phase == L.Submitting then FromAttempt(L.Append(u, L.Unknown)) else Some(u)
    case _ =>
      if u.phase == L.Submitting then FromAttempt(L.Append(u, L.FailedBeforeSubmit)) else None
  }

  function FromAttempt(r: Attempt<L.LifecycleState>): Option<L.LifecycleState> {
    if r.Ok() then Some(r.state) else None
  }

  predicate NeedsRepair(u: L.LifecycleState) { u.phase == L.Submitting || u.phase == L.Unknown }

  /** The checks `resolve_unknown` makes on its own projection before it touches the runner. */
  predicate DecisionAllowed(u: L.LifecycleState, decision: Decision) {
    && u.phase == L.Unknown
    && u.generation > 0
    && match decision
       case AdoptListedTask(task) => u.complete == Some(true) && task in u.candidates
       case AbandonAfterReconciliation(acknowledged) => acknowledged == u.op
  }

  /** The runner's ledger already carries exactly this decision. */
  predicate AlreadyDecided(s: S.SubmitState, decision: Decision) {
    match decision
    case AdoptListedTask(task) => s.Latest() == S.TaskAdopted && s.task == Some(task)
    case AbandonAfterReconciliation(_) => s.Latest() == S.ExplicitlyAbandoned
  }

  /** `replay_resolution`: a decision repeated after it was projected. */
  predicate ReplayAccepted(u: L.LifecycleState, decision: Decision) {
    && u.generation > 0
    && match decision
       case AdoptListedTask(task) =>
         (u.phase.Pending? || u.phase.Ready? || u.phase.Applied? || u.phase.ProviderError?) && u.task == Some(task)
       case AbandonAfterReconciliation(acknowledged) =>
         u.phase == L.AbandonedUnknown && acknowledged == u.op
  }

  /** What a finished `submit` means for the projection. */
  datatype SubmitResult =
    | TaskSubmitted(task: TaskId)
    | SubmitCanceled
    | SubmitUncertain
    | SubmitFailed

  function RecordResult(u: L.LifecycleState, result: SubmitResult): Attempt<L.LifecycleState> {
    match result
    case TaskSubmitted(task) => L.RecordStatus(u, task, PendingStatus)
    case SubmitCanceled => L.RecordCanceledWithoutTask(u)
    case SubmitUncertain => L.Append(u, L.Unknown)
    case SubmitFailed => L.Append(u, L.FailedBeforeSubmit)
  }

  function RecordProjection(u: L.LifecycleState, decision: Decision, status: TaskStatus): Attempt<L.LifecycleState> {
    match decision
    case AdoptListedTask(task) => L.RecordStatus(u, task, status)
    case AbandonAfterReconciliation(_) => L.Append(u, L.AbandonedUnknown)
  }

  // ----- worlds

  /** What the process is in the middle of. It is lost in a crash. */
  datatype Flight =
    | Idle
      /** `submit` runs with the state mutex released; `ledger` is its local copy once written. */
    | Running(op: OperationId, ledger: Option<S.SubmitState>, spawned: bool, taskLost: bool)
      /** `submit` returned and `start` has not yet written its projection. */
    | Returned(op: OperationId, result: SubmitResult)
      /** Under the mutex, between the two writes of a reconciliation. */
    | Reconciled(tasks: seq<TaskId>, complete: bool)
      /** Under the mutex, between the two writes of a resolution. */
    | Resolved(decision: Decision)
  {
    predicate HoldsMutex() { Reconciled? || Resolved? }
    predicate IsSubmit() { Running? || Returned? }
  }

  /** The submit side: the runner's ledger and the provider effect it guards. */
  datatype Ground = Ground(
    lower: Option<S.SubmitState>,     // cloud-submit-ledger.json
    execs: seq<OperationId>,          // every `cloud exec` spawned so far
    faulted: bool)                    // some submit-ledger write has reported an error

  datatype World = World(
    config: Config,
    ground: Ground,
    upper: Option<L.LifecycleState>,  // cloud-lifecycle.json
    up: bool,                         // an orchestrator is constructed
    mem: Option<L.LifecycleState>,    // its mutex-guarded ledger
    flight: Flight,
    issued: set<OperationId>)         // every operation ID handed out so far

  predicate Init(w: World) {
    && w.ground == Ground(None, [], false)
    && w.upper.None? && !w.up && w.mem.None? && w.flight.Idle? && w.issued == {}
  }

  function Put(g: Ground, s: S.SubmitState, write: Write): Ground {
    g.(lower := Stored(g.lower, Some(s), write), faulted := g.faulted || !write.Durable?)
  }

  function PutLower(w: World, s: S.SubmitState, write: Write): World {
    w.(ground := Put(w.ground, s, write))
  }

  function PutUpper(w: World, u: L.LifecycleState, write: Write): World {
    w.(upper := Stored(w.upper, Some(u), write))
  }

  /** A projection is written first and becomes the in-memory ledger only if that succeeded. */
  function Project(w: World, u: L.LifecycleState, write: Write): World {
    PutUpper(w, u, write).(mem := if write.Durable? then Some(u) else w.mem, flight := Idle)
  }

  /** An operation can take the state mutex. */
  predicate Open(w: World) { w.up && !w.flight.HoldsMutex() }

  predicate Resting(w: World) { w.mem.None? || w.mem.value.phase.IsTerminal() }

  predicate MemIs(w: World, phase: L.Phase) { w.mem.Some? && w.mem.value.phase == phase }

  predicate Interrupted(lower: Option<S.SubmitState>) { lower.Some? && lower.value.Latest().IsInterrupted() }

  /** `require_matching_config`: a submit ledger is used only under the configuration it was written for. */
  predicate Matches(w: World) { w.ground.lower.Some? ==> w.ground.lower.value.config == w.config }

  /** Construction: load the projection, recover the submit ledger, repair the projection. */
  datatype RestartStep =
    | Crash
      /** The next construction is given another environment or branch. */
    | Reconfigure(config: Config)
    | Load
    | RestartRecover(write: Write)
    | Repair(write: Write)

  /** Inside `submit`, with the mutex released. */
  datatype SubmitStep =
    | FailEarly
    | WriteIntent(write: Write)
    | WriteFailedBeforeSpawn(canceled: bool, write: Write)
    | WriteAuthorized(write: Write)
    | Spawn
    | WriteStarted(process: ProcessIdentity, write: Write)
    | WriteTask(task: TaskId, write: Write)
    | WriteUnknown(write: Write)

  /** The orchestrator's own operations, under the mutex. */
  datatype OperationStep =
      /** `recover_current_ledger` as called by start, reconcile and resolve. */
    | Recover(write: Write)
      /** `start` up to releasing the mutex, and after retaking it. */
    | Begin(op: OperationId, write: Write)
    | Finish(write: Write)
    | RecheckFails
    | Inspect(status: TaskStatus, write: Write)
    | CancelPending(write: Write)
    | ReconcileLower(tasks: seq<TaskId>, complete: bool, write: Write)
    | ReconcileUpper(write: Write)
    | ResolveLower(decision: Decision, write: Write)
    | ResolveReplay(decision: Decision)
    | ResolveUpper(status: TaskStatus, write: Write)

  datatype Step =
    | Restarting(restart: RestartStep)
    | Submit(submit: SubmitStep)
    | Operation(operation: OperationStep)

  predicate LocalAt(w: World, phase: S.Phase) {
    w.flight.Running? && w.flight.ledger.Some? && w.flight.ledger.value.Latest() == phase
  }

  predicate Rechecked(w: World) {
    && w.flight.Returned?
    && w.mem.Some? && w.mem.value.op == w.flight.op && w.mem.value.phase == L.Submitting
  }

  predicate RestartEnabled(w: World, step: RestartStep) {
    match step
    case Crash => w.up
    case Reconfigure(_) => !w.up
    case Load => !w.up && (w.upper.None? || !NeedsRepair(w.upper.value))
    case RestartRecover(_) =>
      !w.up && Matches(w) && w.upper.Some? && NeedsRepair(w.upper.value) && Interrupted(w.ground.lower)
    case Repair(_) =>
      && !w.up && Matches(w) && w.upper.Some? && NeedsRepair(w.upper.value) && !Interrupted(w.ground.lower)
      && Classify(w.upper.value.op, w.ground.lower).Ok?
      && Repaired(w.upper.value, Classify(w.upper.value.op, w.ground.lower).value).Some?
  }

  predicate SubmitEnabled(w: World, step: SubmitStep) {
    match step
    case FailEarly => w.flight.Running? && w.flight.ledger.None?
    case WriteIntent(_) =>
      && w.flight.Running? && w.flight.ledger.None? && Matches(w)
      && Dispatch(w.flight.op, w.ground.lower).None?
    case WriteFailedBeforeSpawn(canceled, _) =>
      LocalAt(w, S.Intent) || (LocalAt(w, S.Authorized) && !w.flight.spawned && !canceled)
    case WriteAuthorized(_) => LocalAt(w, S.Intent)
    case Spawn => LocalAt(w, S.Authorized) && !w.flight.spawned
    case WriteStarted(_, _) => LocalAt(w, S.Authorized) && w.flight.spawned
    case WriteTask(_, _) => LocalAt(w, S.Started) && !w.flight.taskLost
    case WriteUnknown(_) => LocalAt(w, S.Authorized) || LocalAt(w, S.Started)
  }

  predicate OperationEnabled(w: World, step: OperationStep) {
    match step
    case Recover(_) => Open(w) && Matches(w) && (Resting(w) || MemIs(w, L.Unknown)) && Interrupted(w.ground.lower)
    case Begin(op, _) =>
      && Open(w) && Matches(w) && Resting(w) && op != NIL_OPERATION && op !in w.issued
      && Classify(op, w.ground.lower) == Ok(Absent)
    case Finish(_) => Rechecked(w) && RecordResult(w.mem.value, w.flight.result).Ok()
    case RecheckFails => w.flight.Returned? && !Rechecked(w)
    case Inspect(status, _) =>
      && Open(w) && MemIs(w, L.Pending) && w.mem.value.task.Some?
      && L.RecordStatus(w.mem.value, w.mem.value.task.value, status).Ok()
    case CancelPending(_) =>
      Open(w) && MemIs(w, L.Pending) && L.RecordCanceledWithTask(w.mem.value).Ok()
    case ReconcileLower(tasks, complete, _) =>
      && Open(w) && Matches(w) && MemIs(w, L.Unknown)
      && w.ground.lower.Some? && w.ground.lower.value.Latest().IsUnknown()
      && S.RecordReconciliation(w.ground.lower.value, tasks, complete).Ok()
    case ReconcileUpper(_) =>
      && w.up && w.flight.Reconciled? && w.mem.Some?
      && w.ground.lower.Some? && w.ground.lower.value.op == w.mem.value.op
      && L.RecordReconciliation(w.mem.value, w.flight.tasks, w.flight.complete).Ok()
    case ResolveLower(decision, _) =>
      && Open(w) && Matches(w) && w.mem.Some? && DecisionAllowed(w.mem.value, decision)
      && w.ground.lower.Some? && w.ground.lower.value.op == w.mem.value.op
      && S.RecordDecision(w.ground.lower.value, decision).Ok()
    case ResolveReplay(decision) =>
      && Open(w) && Matches(w) && w.mem.Some? && DecisionAllowed(w.mem.value, decision)
      && w.ground.lower.Some? && w.ground.lower.value.op == w.mem.value.op
      && AlreadyDecided(w.ground.lower.value, decision)
    case ResolveUpper(status, _) =>
      && w.up && w.flight.Resolved? && w.mem.Some?
      && RecordProjection(w.mem.value, w.flight.decision, status).Ok()
  }

  predicate Enabled(w: World, step: Step) {
    match step
    case Restarting(r) => RestartEnabled(w, r)
    case Submit(s) => SubmitEnabled(w, s)
    case Operation(o) => OperationEnabled(w, o)
  }

  /** One submit-ledger write inside `submit`: go on with `s`, or return `failure`. */
  function SubmitWrite(w: World, s: S.SubmitState, write: Write, failure: SubmitResult): World
    requires w.flight.Running?
  {
    PutLower(w, s, write).(flight :=
      if write.Durable? then w.flight.(ledger := Some(s)) else Returned(w.flight.op, failure))
  }

  function ApplyRestart(w: World, step: RestartStep): World
    requires RestartEnabled(w, step)
  {
    match step
    case Crash => w.(up := false, mem := None, flight := Idle)
    case Reconfigure(config) => w.(config := config)
    case Load => w.(up := true, mem := w.upper)
    case RestartRecover(write) => PutLower(w, S.Recovered(w.ground.lower.value).state, write)
    case Repair(write) =>
      var repaired := Repaired(w.upper.value, Classify(w.upper.value.op, w.ground.lower).value).value;
      if repaired == w.upper.value then w.(up := true, mem := w.upper)
      else PutUpper(w, repaired, write).(
             up := write.Durable?, mem := if write.Durable? then Some(repaired) else None)
  }

  function ApplySubmit(w: World, step: SubmitStep): World
    requires SubmitEnabled(w, step)
  {
    match step
    case FailEarly => w.(flight := Returned(w.flight.op, SubmitFailed))
    case WriteIntent(write) =>
      SubmitWrite(w, S.NewSubmit(w.flight.op, w.config), write, SubmitFailed)
    case WriteFailedBeforeSpawn(canceled, write) =>
      PutLower(w, S.Append(w.flight.ledger.value, S.FailedBeforeSpawn).state, write).(
        flight := Returned(w.flight.op, if canceled && write.Durable? then SubmitCanceled else SubmitFailed))
    case WriteAuthorized(write) =>
      SubmitWrite(w, S.Append(w.flight.ledger.value, S.Authorized).state, write, SubmitFailed)
    case Spawn =>
      w.(ground := w.ground.(execs := w.ground.execs + [w.flight.op]), flight := w.flight.(spawned := true))
    case WriteStarted(process, write) =>
      SubmitWrite(w, S.RecordStarted(w.flight.ledger.value, process).state, write, SubmitUncertain)
    case WriteTask(task, write) =>
      PutLower(w, S.RecordTask(w.flight.ledger.value, task).state, write).(
        flight := if write.Durable? then Returned(w.flight.op, TaskSubmitted(task))
                  else w.flight.(taskLost := true))
    case WriteUnknown(write) =>
      PutLower(w, S.Append(w.flight.ledger.value, S.Unknown).state, write).(
        flight := Returned(w.flight.op, SubmitUncertain))
  }

  function ApplyOperation(w: World, step: OperationStep): World
    requires OperationEnabled(w, step)
  {
    match step
    case Recover(write) => PutLower(w, S.Recovered(w.ground.lower.value).state, write)
    case Begin(op, write) =>
      var begun := PutUpper(w, L.NewSubmitting(op), write).(issued := w.issued + {op});
      if write.Durable? then
        begun.(mem := Some(L.NewSubmitting(op)), flight := Running(op, None, false, false))
      else begun
    case Finish(write) => Project(w, RecordResult(w.mem.value, w.flight.result).state, write)
    case RecheckFails => w.(flight := Idle)
    case Inspect(status, write) =>
      var u := L.RecordStatus(w.mem.value, w.mem.value.task.value, status).state;
      PutUpper(w, u, write).(mem := if write.Durable? then Some(u) else w.mem)
    case CancelPending(write) =>
      var u := L.RecordCanceledWithTask(w.mem.value).state;
      PutUpper(w, u, write).(mem := if write.Durable? then Some(u) else w.mem)
    case ReconcileLower(tasks, complete, write) =>
      PutLower(w, S.RecordReconciliation(w.ground.lower.value, tasks, complete).state, write).(
        flight := if write.Durable? then Reconciled(tasks, complete) else w.flight)
    case ReconcileUpper(write) =>
      Project(w, L.RecordReconciliation(w.mem.value, w.flight.tasks, w.flight.complete).state, write)
    case ResolveLower(decision, write) =>
      PutLower(w, S.RecordDecision(w.ground.lower.value, decision).state, write).(
        flight := if write.Durable? then Resolved(decision) else w.flight)
    case ResolveReplay(decision) => w.(flight := Resolved(decision))
    case ResolveUpper(status, write) =>
      Project(w, RecordProjection(w.mem.value, w.flight.decision, status).state, write)
  }

  function Apply(w: World, step: Step): World
    requires Enabled(w, step)
  {
    match step
    case Restarting(r) => ApplyRestart(w, r)
    case Submit(s) => ApplySubmit(w, s)
    case Operation(o) => ApplyOperation(w, o)
  }

  /** A run: the worlds visited, and the step taken between each and the next. */
  predicate IsRun(run: seq<World>, steps: seq<Step>) {
    && |run| == |steps| + 1
    && Init(run[0])
    && forall i :: 0 <= i < |steps| ==> Enabled(run[i], steps[i]) && run[i + 1] == Apply(run[i], steps[i])
  }

  lemma StepOfRun(run: seq<World>, steps: seq<Step>, i: nat)
    requires IsRun(run, steps) && i < |steps|
    ensures Enabled(run[i], steps[i]) && run[i + 1] == Apply(run[i], steps[i])
  {
    hide Enabled, Apply;
  }

  lemma RunExtends(run: seq<World>, steps: seq<Step>, step: Step)
    requires IsRun(run, steps) && Enabled(run[|steps|], step)
    ensures IsRun(run + [Apply(run[|steps|], step)], steps + [step])
  {
    hide Enabled, Apply;
  }

  lemma RunPrefix(run: seq<World>, steps: seq<Step>, n: nat)
    requires IsRun(run, steps) && n <= |steps|
    ensures IsRun(run[..n + 1], steps[..n])
  {
    hide Enabled, Apply;
  }

  /** The machine may stop at any world of any run. */
  lemma CrashAnywhere(run: seq<World>, steps: seq<Step>, n: nat)
    requires IsRun(run, steps) && n <= |steps| && run[n].up
    ensures IsRun(run[..n + 1] + [Apply(run[n], Restarting(Crash))], steps[..n] + [Restarting(Crash)])
  {
    RunPrefix(run, steps, n);
    RunExtends(run[..n + 1], steps[..n], Restarting(Crash));
  }
}
