/**
 * The joint invariant of the two ledgers, and that every step keeps it.
 */
module ProtocolInvariant {
  import opened CloudTypes
  import S = SubmitLedger
  import L = LifecycleLedger
  import opened SubmitProtocol

  /** The submit ledger belongs to `op`. */
  predicate Owns(g: Ground, op: OperationId) {
    g.lower.Some? && g.lower.value.op == op
  }

  /** The submit ledger belongs to `op` and is in this phase. */
  predicate OwnsAt(g: Ground, op: OperationId, phase: S.Phase) {
    Owns(g, op) && g.lower.value.Latest() == phase
  }

  /** The submit ledger is absent, or a finished one of another operation. */
  predicate Free(g: Ground, op: OperationId) {
    g.lower.None? || (g.lower.value.op != op && g.lower.value.Latest().PermitsNewOperation())
  }

  /** The submit ledger carries a decision of the operator about `op`. */
  predicate OwnsDecision(g: Ground, op: OperationId) {
    OwnsAt(g, op, S.TaskAdopted) || OwnsAt(g, op, S.ExplicitlyAbandoned)
  }

  // ----- what each projected phase says about the submit ledger

  predicate AgreesSubmitting(g: Ground, op: OperationId) {
    || (Free(g, op) && op !in g.execs)
    || (Owns(g, op) && g.lower.value.Latest().IsInterrupted())
    || OwnsAt(g, op, S.TaskRecorded)
    || OwnsAt(g, op, S.FailedBeforeSpawn)
    || OwnsAt(g, op, S.Unknown)
  }

  predicate AgreesFailed(g: Ground, op: OperationId) {
    && op !in g.execs
    && (|| Free(g, op)
        || OwnsAt(g, op, S.FailedBeforeSpawn)
        || (g.faulted && (OwnsAt(g, op, S.Intent) || OwnsAt(g, op, S.Authorized) || OwnsAt(g, op, S.Unknown))))
  }

  predicate AgreesUnknown(g: Ground, op: OperationId) {
    || OwnsAt(g, op, S.Unknown)
    || OwnsAt(g, op, S.ReconciliationObserved)
    || OwnsDecision(g, op)
    || (g.faulted && (OwnsAt(g, op, S.Authorized) || OwnsAt(g, op, S.Started) || OwnsAt(g, op, S.TaskRecorded)))
  }

  predicate AgreesTask(g: Ground, op: OperationId, task: Option<TaskId>) {
    (OwnsAt(g, op, S.TaskRecorded) || OwnsAt(g, op, S.TaskAdopted)) && g.lower.value.task == task
  }

  predicate Agrees(g: Ground, u: L.LifecycleState) {
    match u.phase
    case Submitting => AgreesSubmitting(g, u.op)
    case FailedBeforeSubmit => AgreesFailed(g, u.op)
    case Unknown => AgreesUnknown(g, u.op)
    case AbandonedUnknown => OwnsAt(g, u.op, S.ExplicitlyAbandoned)
    case CanceledLocally(mayContinue) =>
      if mayContinue then AgreesTask(g, u.op, u.task) else OwnsAt(g, u.op, S.FailedBeforeSpawn)
    case _ => AgreesTask(g, u.op, u.task)
  }

  /** Reconciliations counted above were written below first, and no decision precedes one. */
  predicate Counted(g: Ground, u: L.LifecycleState) {
    && (u.generation > 0 ==> Owns(g, u.op) && u.generation <= |g.lower.value.history|)
    && (OwnsDecision(g, u.op) ==> u.generation > 0)
  }

  predicate Sound(g: Ground, u: L.LifecycleState) {
    L.Shaped(u) && Agrees(g, u) && Counted(g, u)
  }

  predicate SoundIfAny(g: Ground, u: Option<L.LifecycleState>, issued: set<OperationId>) {
    u.Some? ==> Sound(g, u.value) && u.value.op in issued
  }

  // ----- the parts of the invariant

  predicate GroundSound(g: Ground) {
    && Distinct(g.execs)
    && (g.lower.Some? ==>
          var s := g.lower.value;
          && S.WellFormed(s)
          && (s.Latest() == S.Intent || s.Latest() == S.FailedBeforeSpawn ==> s.op !in g.execs)
          && (s.Latest() == S.Started || s.Latest() == S.TaskRecorded ==> s.op in g.execs))
  }

  predicate AllIssued(g: Ground, issued: set<OperationId>) {
    && (forall op :: op in g.execs ==> op in issued)
    && (g.lower.Some? ==> g.lower.value.op in issued)
  }

  /** A `Submitting` record whose operation the runner has never heard of. */
  predicate Unheard(g: Ground, u: L.LifecycleState) {
    u.phase == L.Submitting && Free(g, u.op) && u.op !in g.execs
  }

  /** A write that reported an error may still have moved the disk on from what memory says. */
  predicate DiskMayBeAt(memory: L.Phase, disk: L.Phase) {
    match memory
    case Submitting => true
    case Pending => disk.RequiresTask()
    case Unknown => disk.Unknown? || disk.RequiresTask() || disk.AbandonedUnknown?
    case _ => disk == memory
  }

  /** The projection in memory never runs ahead of the one on disk. */
  predicate MemLinked(g: Ground, mem: Option<L.LifecycleState>, upper: Option<L.LifecycleState>) {
    match (mem, upper)
    case (None, None) => true
    case (None, Some(u)) => Unheard(g, u)
    case (Some(_), None) => false
    case (Some(m), Some(u)) =>
      if u.op == m.op then
        && u.generation >= m.generation
        && DiskMayBeAt(m.phase, u.phase)
        && (m.phase.IsTerminal() ==> u == m)
      else
        m.phase.IsTerminal() && Unheard(g, u)
  }

  predicate ResultSound(g: Ground, op: OperationId, result: SubmitResult) {
    match result
    case TaskSubmitted(task) => OwnsAt(g, op, S.TaskRecorded) && g.lower.value.task == Some(task)
    case SubmitCanceled => OwnsAt(g, op, S.FailedBeforeSpawn)
    case SubmitUncertain =>
      || OwnsAt(g, op, S.Unknown)
      || (g.faulted && (OwnsAt(g, op, S.Authorized) || OwnsAt(g, op, S.Started) || OwnsAt(g, op, S.TaskRecorded)))
    case SubmitFailed => AgreesFailed(g, op)
  }

  /** The local copy `submit` works on against the ledger it last wrote. */
  predicate LocalSound(g: Ground, config: Config, op: OperationId, s: S.SubmitState, spawned: bool, taskLost: bool) {
    && s.op == op && S.WellFormed(s) && s.config == config && s.Latest().IsInterrupted()
    && (spawned <==> op in g.execs)
    && (s.Latest() == S.Intent ==> !spawned)
    && (s.Latest() == S.Started ==> spawned)
    && (taskLost ==> g.faulted && s.Latest() == S.Started)
    && (if taskLost then OwnsAt(g, op, S.Started) || OwnsAt(g, op, S.TaskRecorded) else g.lower == Some(s))
  }

  predicate FlightSound(w: World) {
    match w.flight
    case Idle => true
    case Running(op, ledger, spawned, taskLost) =>
      && w.up && w.mem == w.upper == Some(L.NewSubmitting(op))
      && (if ledger.None? then !spawned && !taskLost && Free(w.ground, op) && op !in w.ground.execs
          else LocalSound(w.ground, w.config, op, ledger.value, spawned, taskLost))
    case Returned(op, result) =>
      w.up && w.mem == w.upper == Some(L.NewSubmitting(op)) && ResultSound(w.ground, op, result)
    case Reconciled(tasks, _) =>
      && w.up && MemIs(w, L.Unknown) && OwnsAt(w.ground, w.mem.value.op, S.ReconciliationObserved)
      && |tasks| <= L.MAX_CANDIDATES && Distinct(tasks)
      && w.mem.value.generation < |w.ground.lower.value.history|
    case Resolved(decision) =>
      && w.up && w.mem.Some? && DecisionAllowed(w.mem.value, decision)
      && Owns(w.ground, w.mem.value.op) && AlreadyDecided(w.ground.lower.value, decision)
  }

  /** Whoever works on an unsettled projection was constructed under its submit ledger's configuration. */
  predicate ConfigHeld(w: World) { w.up && w.mem.Some? && NeedsRepair(w.mem.value) ==> Matches(w) }

  predicate Inv(w: World) {
    && GroundSound(w.ground)
    && AllIssued(w.ground, w.issued)
    && (w.upper.None? ==> w.ground.lower.None?)
    && SoundIfAny(w.ground, w.upper, w.issued)
    && SoundIfAny(w.ground, w.mem, w.issued)
    && (if w.up then MemLinked(w.ground, w.mem, w.upper) else w.mem.None? && w.flight.Idle?)
    && FlightSound(w)
    && ConfigHeld(w)
  }

  lemma InvInit(w: World)
    requires Init(w)
    ensures Inv(w)
  {
  }

  // ----- how writes of the submit ledger carry a projection along

  /** Recovery keeps every projection sound, and makes no operation heard of. */
  lemma RecoveryCarries(g: Ground, u: L.LifecycleState, write: Write)
    requires Interrupted(g.lower) && S.WellFormed(g.lower.value) && Sound(g, u)
    ensures Sound(Put(g, S.Recovered(g.lower.value).state, write), u)
    ensures Unheard(g, u) ==> Unheard(Put(g, S.Recovered(g.lower.value).state, write), u)
  {
    hide S.WellFormed, S.Recovered, S.Append, L.Shaped, Distinct;
    S.RecoveredWellFormed(g.lower.value);
  }

  lemma ReconciliationCarries(g: Ground, u: L.LifecycleState, tasks: seq<TaskId>, complete: bool, write: Write)
    requires g.lower.Some? && S.WellFormed(g.lower.value) && g.lower.value.Latest().IsUnknown()
    requires S.RecordReconciliation(g.lower.value, tasks, complete).Ok()
    requires Sound(g, u) && u.phase != L.Submitting && !u.phase.FailedBeforeSubmit?
    ensures Sound(Put(g, S.RecordReconciliation(g.lower.value, tasks, complete).state, write), u)
  {
    hide S.WellFormed, S.RecordReconciliation, L.Shaped, Distinct;
    S.ReconciliationWellFormed(g.lower.value, tasks, complete);
  }

  lemma DecisionCarries(g: Ground, u: L.LifecycleState, decision: Decision, write: Write)
    requires g.lower.Some? && S.WellFormed(g.lower.value) && g.lower.value.op == u.op
    requires S.RecordDecision(g.lower.value, decision).Ok()
    requires Sound(g, u) && u.phase != L.Submitting && !u.phase.FailedBeforeSubmit? && u.generation > 0
    ensures Sound(Put(g, S.RecordDecision(g.lower.value, decision).state, write), u)
  {
    S.DecisionWellFormed(g.lower.value, decision);
    S.DecisionCapacity(g.lower.value, decision);
  }

  // ----- what an operation writes

  /** The phase a finished submit is projected as. */
  function ReportedPhase(result: SubmitResult): L.Phase {
    match result
    case TaskSubmitted(_) => L.Pending
    case SubmitCanceled => L.CanceledLocally(false)
    case SubmitUncertain => L.Unknown
    case SubmitFailed => L.FailedBeforeSubmit
  }

  /** A projection that goes on from a pending or unknown one. */
  predicate Progresses(u: L.LifecycleState, v: L.LifecycleState) {
    && (u.phase == L.Pending || u.phase == L.Unknown) && v.op == u.op
    && v.phase != L.Submitting && v.phase != L.FailedBeforeSubmit && (v.phase == L.Unknown ==> u.phase == L.Unknown)
  }

  /** The projection on disk after an operation. */
  lemma OperationWritesUpper(w: World, step: OperationStep)
    requires OperationEnabled(w, step) && (w.flight.Resolved? ==> MemIs(w, L.Unknown))
    ensures var d := ApplyOperation(w, step);
            || d.upper == w.upper
            || (step.Begin? && !step.write.NotWritten? && d.upper == Some(L.NewSubmitting(step.op)))
            || (&& step.Finish? && Rechecked(w) && d.upper.Some? && d.upper.value.op == w.flight.op
                && d.upper.value.phase == ReportedPhase(w.flight.result))
            || (&& (step.Inspect? || step.CancelPending? || step.ReconcileUpper? || step.ResolveUpper?)
                && w.mem.Some? && d.upper.Some?
                && Progresses(w.mem.value, d.upper.value) && (step.ReconcileUpper? ==> d.upper.value.phase == L.Unknown)
                && d.upper.value.generation == w.mem.value.generation + (if step.ReconcileUpper? then 1 else 0))
  {
    hide Classify, S.RecordReconciliation, S.RecordDecision, S.Recovered, Distinct, Matches;
  }

  /** The submit ledger after an operation. */
  lemma OperationWritesLower(w: World, step: OperationStep)
    requires OperationEnabled(w, step)
    ensures var g, d := w.ground, ApplyOperation(w, step).ground;
            && d.execs == g.execs
            && (|| (d.lower == g.lower && (step.ReconcileLower? ==> !step.write.Durable?))
                || (&& g.lower.Some? && d.lower.Some? && d.lower.value.op == g.lower.value.op
                    && d.lower.value.config == g.lower.value.config
                    && |g.lower.value.history| < S.MAX_HISTORY
                    && |d.lower.value.history| == |g.lower.value.history| + 1
                    && match step
                       case Recover(_) =>
                         && Interrupted(g.lower)
                         && d.lower.value.Latest() ==
                            (if g.lower.value.Latest() == S.Intent then S.FailedBeforeSpawn else S.Unknown)
                       case ReconcileLower(_, _, _) =>
                         g.lower.value.Latest().IsUnknown() && d.lower.value.Latest() == S.ReconciliationObserved
                       case ResolveLower(decision, _) =>
                         && g.lower.value.Latest() == S.ReconciliationObserved
                         && AlreadyDecided(d.lower.value, decision)
                       case _ => false))
  {
    hide Classify, L.RecordReconciliation, L.RecordStatus, L.Append, L.RecordCanceledWithTask, RecordResult,
      RecordProjection, Distinct, Matches;
  }

  /** Memory, the mutex and the operation IDs after an operation. */
  lemma OperationLeaves(w: World, step: OperationStep)
    requires OperationEnabled(w, step)
    ensures var d := ApplyOperation(w, step);
            && d.up == w.up && d.config == w.config && w.issued <= d.issued
            && (d.mem == w.mem || d.mem == d.upper)
            && (d.issued == w.issued || (step.Begin? && step.op !in w.issued && d.issued == w.issued + {step.op}))
            && (d.flight.IsSubmit() ==>
                  d.flight == w.flight || (step.Begin? && d.flight == Running(step.op, None, false, false)))
            && (d.flight.Reconciled? ==> d.flight == w.flight || (step.ReconcileLower? && step.write.Durable?))
  {
    hide Classify, L.RecordReconciliation, L.RecordStatus, L.Append, L.RecordCanceledWithTask, RecordResult,
      RecordProjection, S.RecordReconciliation, S.RecordDecision, S.Recovered, Distinct, Matches;
  }

  // ----- every step keeps the invariant

  lemma CrashKeepsInv(w: World, step: RestartStep, w': World)
    requires Inv(w) && step.Crash? && RestartEnabled(w, step) && w' == ApplyRestart(w, step)
    ensures Inv(w')
  {
    hide L.WellFormed, S.WellFormed, Distinct;
  }

  lemma ReconfigureKeepsInv(w: World, step: RestartStep, w': World)
    requires Inv(w) && step.Reconfigure? && RestartEnabled(w, step) && w' == ApplyRestart(w, step)
    ensures Inv(w')
  {
  }

  lemma LoadKeepsInv(w: World, step: RestartStep, w': World)
    requires Inv(w) && step.Load? && RestartEnabled(w, step) && w' == ApplyRestart(w, step)
    ensures Inv(w')
  {
    hide L.WellFormed, S.WellFormed, Distinct;
  }

  lemma RestartRecoverKeepsInv(w: World, step: RestartStep, w': World)
    requires Inv(w) && step.RestartRecover? && RestartEnabled(w, step) && w' == ApplyRestart(w, step)
    ensures Inv(w')
  {
    hide L.WellFormed, S.WellFormed, Distinct;
    S.RecoveredWellFormed(w.ground.lower.value);
    if w.upper.Some? { RecoveryCarries(w.ground, w.upper.value, step.write); }
  }

  /** A recovered submit ledger always explains a projection that needs repair. */
  lemma ObservationExplains(g: Ground, u: L.LifecycleState)
    requires g.lower.Some? ==> S.WellFormed(g.lower.value)
    requires !Interrupted(g.lower) && Sound(g, u) && NeedsRepair(u)
    ensures Classify(u.op, g.lower).Ok?
    ensures match Classify(u.op, g.lower).value
            case ObservedTask(task) => AgreesTask(g, u.op, Some(task))
            case ObservedAbandoned => u.phase == L.Unknown && OwnsAt(g, u.op, S.ExplicitlyAbandoned)
            case ObservedUnknown => OwnsAt(g, u.op, S.Unknown) || OwnsAt(g, u.op, S.ReconciliationObserved)
            case ObservedFailed => u.phase == L.Submitting && OwnsAt(g, u.op, S.FailedBeforeSpawn)
            case Absent => u.phase == L.Submitting && Free(g, u.op) && u.op !in g.execs
  {
    if g.lower.Some? { S.LatestFixesShape(g.lower.value); }
    hide L.WellFormed, S.WellFormed, Distinct;
  }

  lemma RepairedToTask(g: Ground, u: L.LifecycleState, task: TaskId)
    requires Sound(g, u) && NeedsRepair(u) && AgreesTask(g, u.op, Some(task))
    ensures var r := L.RecordStatus(u, task, PendingStatus);
            r.Ok() && r.state.op == u.op && r.state.phase == L.Pending && r.state.generation == u.generation
            && Sound(g, r.state)
  {
    hide L.WellFormed, Distinct;
    L.StatusShaped(u, task, PendingStatus);
    hide L.Shaped;
  }

  lemma RepairedByAppend(g: Ground, u: L.LifecycleState, phase: L.Phase)
    requires Sound(g, u) && Agrees(g, u.(phase := phase))
    requires (u.phase == L.Submitting && (phase == L.FailedBeforeSubmit || phase == L.Unknown))
             || (u.phase == L.Unknown && phase == L.AbandonedUnknown)
    ensures var r := L.Append(u, phase);
            r.Ok() && r.state.op == u.op && r.state.phase == phase && r.state.generation == u.generation
            && Sound(g, r.state)
  {
    hide L.WellFormed, Distinct;
    L.AppendShaped(u, phase);
    hide L.Shaped;
  }

  /**
   * Repair never meets a conflict, and the repaired projection is sound and no longer
   * `Submitting`.
   */
  lemma RepairedSound(g: Ground, u: L.LifecycleState)
    requires g.lower.Some? ==> S.WellFormed(g.lower.value)
    requires !Interrupted(g.lower) && Sound(g, u) && NeedsRepair(u)
    requires OwnsAt(g, u.op, S.FailedBeforeSpawn) ==> u.op !in g.execs
    ensures Classify(u.op, g.lower).Ok?
    ensures var repaired := Repaired(u, Classify(u.op, g.lower).value);
            && repaired.Some? && repaired.value.op == u.op && Sound(g, repaired.value)
            && repaired.value.phase != L.Submitting
            && (NeedsRepair(repaired.value) <==> Classify(u.op, g.lower) == Ok(ObservedUnknown))
            && repaired.value.generation == u.generation
  {
    ObservationExplains(g, u);
    hide L.WellFormed, S.WellFormed, Distinct, Classify, Interrupted, L.Append, L.RecordStatus;
    match Classify(u.op, g.lower).value
    case ObservedTask(task) => RepairedToTask(g, u, task); hide Sound;
    case ObservedAbandoned => RepairedByAppend(g, u, L.AbandonedUnknown); hide Sound;
    case ObservedUnknown => if u.phase == L.Submitting { RepairedByAppend(g, u, L.Unknown); hide Sound; }
    case _ => RepairedByAppend(g, u, L.FailedBeforeSubmit); hide Sound;
  }

  lemma LowerBelongs(w: World)
    requires Inv(w) && w.ground.lower.Some?
    ensures S.WellFormed(w.ground.lower.value)
  {
  }

  /** What restart finds once an interrupted submit ledger has been recovered. */
  lemma RepairSucceeds(w: World, u: L.LifecycleState)
    requires Inv(w) && w.upper == Some(u) && NeedsRepair(u) && !Interrupted(w.ground.lower)
    ensures Classify(u.op, w.ground.lower).Ok?
    ensures var repaired := Repaired(u, Classify(u.op, w.ground.lower).value);
            repaired.Some? && L.WellFormed(repaired.value) && repaired.value.phase != L.Submitting
  {
    RepairedSound(w.ground, u);
  }

  lemma RepairKeepsInv(w: World, step: RestartStep, w': World)
    requires Inv(w) && step.Repair? && RestartEnabled(w, step) && w' == ApplyRestart(w, step)
    ensures Inv(w')
  {
    RepairedSound(w.ground, w.upper.value);
    hide L.Shaped, S.WellFormed, Distinct, Repaired, Classify;
  }

  lemma RecoverKeepsInv(w: World, step: OperationStep, w': World)
    requires Inv(w) && step.Recover? && OperationEnabled(w, step) && w' == ApplyOperation(w, step)
    ensures Inv(w')
  {
    hide L.WellFormed, S.WellFormed, Distinct, Sound, Classify;
    S.RecoveredWellFormed(w.ground.lower.value);
    if w.upper.Some? { RecoveryCarries(w.ground, w.upper.value, step.write); }
    if w.mem.Some? { RecoveryCarries(w.ground, w.mem.value, step.write); }
  }

  lemma BeginKeepsInv(w: World, step: OperationStep, w': World)
    requires Inv(w) && step.Begin? && OperationEnabled(w, step) && w' == ApplyOperation(w, step)
    ensures Inv(w')
  {
    hide L.WellFormed, S.WellFormed, Distinct;
    L.NewSubmittingShaped(step.op);
  }

  lemma FailEarlyKeepsInv(w: World, step: SubmitStep, w': World)
    requires Inv(w) && step.FailEarly? && SubmitEnabled(w, step) && w' == ApplySubmit(w, step)
    ensures Inv(w')
  {
    hide L.WellFormed, S.WellFormed, Distinct;
  }

  lemma WriteIntentKeepsInv(w: World, step: SubmitStep, w': World)
    requires Inv(w) && step.WriteIntent? && SubmitEnabled(w, step) && w' == ApplySubmit(w, step)
    ensures Inv(w')
  {
    hide S.WellFormed, Distinct;
    S.NewSubmitWellFormed(w.flight.op, w.config);
  }

  lemma WriteFailedBeforeSpawnKeepsInv(w: World, step: SubmitStep, w': World)
    requires Inv(w) && step.WriteFailedBeforeSpawn? && SubmitEnabled(w, step) && w' == ApplySubmit(w, step)
    ensures Inv(w')
  {
    hide L.WellFormed, S.WellFormed, Distinct;
    S.AppendWellFormed(w.flight.ledger.value, S.FailedBeforeSpawn);
  }

  lemma WriteAuthorizedKeepsInv(w: World, step: SubmitStep, w': World)
    requires Inv(w) && step.WriteAuthorized? && SubmitEnabled(w, step) && w' == ApplySubmit(w, step)
    ensures Inv(w')
  {
    hide L.WellFormed, S.WellFormed, Distinct;
    S.AppendWellFormed(w.flight.ledger.value, S.Authorized);
  }

  lemma SpawnKeepsInv(w: World, step: SubmitStep, w': World)
    requires Inv(w) && step.Spawn? && SubmitEnabled(w, step) && w' == ApplySubmit(w, step)
    ensures Inv(w')
  {
    hide L.WellFormed, S.WellFormed;
  }

  lemma WriteStartedKeepsInv(w: World, step: SubmitStep, w': World)
    requires Inv(w) && step.WriteStarted? && SubmitEnabled(w, step) && w' == ApplySubmit(w, step)
    ensures Inv(w')
  {
    hide L.WellFormed, S.WellFormed, Distinct;
    S.StartedWellFormed(w.flight.ledger.value, step.process);
  }

  lemma WriteTaskKeepsInv(w: World, step: SubmitStep, w': World)
    requires Inv(w) && step.WriteTask? && SubmitEnabled(w, step) && w' == ApplySubmit(w, step)
    ensures Inv(w')
  {
    hide L.WellFormed, S.WellFormed, Distinct;
    S.TaskWellFormed(w.flight.ledger.value, step.task);
  }

  lemma WriteUnknownKeepsInv(w: World, step: SubmitStep, w': World)
    requires Inv(w) && step.WriteUnknown? && SubmitEnabled(w, step) && w' == ApplySubmit(w, step)
    ensures Inv(w')
  {
    hide L.WellFormed, S.WellFormed, Distinct;
    S.AppendWellFormed(w.flight.ledger.value, S.Unknown);
  }

  lemma FinishKeepsInv(w: World, step: OperationStep, w': World)
    requires Inv(w) && step.Finish? && OperationEnabled(w, step) && w' == ApplyOperation(w, step)
    ensures Inv(w')
  {
    hide L.WellFormed, S.WellFormed, Distinct, L.RecordStatus, L.Append, L.RecordCanceledWithoutTask;
    match w.flight.result {
      case TaskSubmitted(task) => L.StatusShaped(w.mem.value, task, PendingStatus);
      case SubmitCanceled => L.CanceledShaped(w.mem.value);
      case SubmitUncertain => L.AppendShaped(w.mem.value, L.Unknown);
      case SubmitFailed => L.AppendShaped(w.mem.value, L.FailedBeforeSubmit);
    }
  }

  /** When the runner has answered, the record the start left in memory is still there. */
  lemma RecheckNeverFails(w: World)
    requires Inv(w)
    ensures !OperationEnabled(w, RecheckFails)
  {
    hide L.WellFormed, S.WellFormed, Distinct;
  }

  lemma InspectKeepsInv(w: World, step: OperationStep, w': World)
    requires Inv(w) && step.Inspect? && OperationEnabled(w, step) && w' == ApplyOperation(w, step)
    ensures Inv(w')
  {
    hide L.WellFormed, S.WellFormed, Distinct;
    L.StatusShaped(w.mem.value, w.mem.value.task.value, step.status);
  }

  lemma CancelPendingKeepsInv(w: World, step: OperationStep, w': World)
    requires Inv(w) && step.CancelPending? && OperationEnabled(w, step) && w' == ApplyOperation(w, step)
    ensures Inv(w')
  {
    hide L.WellFormed, S.WellFormed, Distinct;
    L.CanceledShaped(w.mem.value);
  }

  lemma ReconcileLowerKeepsInv(w: World, step: OperationStep, w': World)
    requires Inv(w) && step.ReconcileLower? && OperationEnabled(w, step) && w' == ApplyOperation(w, step)
    ensures Inv(w')
  {
    hide L.WellFormed, S.WellFormed, Distinct, L.Shaped, S.RecordReconciliation, S.RecordDecision;
    S.ReconciliationWellFormed(w.ground.lower.value, step.tasks, step.complete);
    ReconciliationCarries(w.ground, w.upper.value, step.tasks, step.complete, step.write);
    ReconciliationCarries(w.ground, w.mem.value, step.tasks, step.complete, step.write);
  }

  lemma ReconcileUpperKeepsInv(w: World, step: OperationStep, w': World)
    requires Inv(w) && step.ReconcileUpper? && OperationEnabled(w, step) && w' == ApplyOperation(w, step)
    ensures Inv(w')
  {
    hide L.WellFormed, S.WellFormed, Distinct;
    L.ReconciliationShaped(w.mem.value, w.flight.tasks, w.flight.complete);
  }

  lemma ResolveLowerKeepsInv(w: World, step: OperationStep, w': World)
    requires Inv(w) && step.ResolveLower? && OperationEnabled(w, step) && w' == ApplyOperation(w, step)
    ensures Inv(w')
  {
    hide L.WellFormed, S.WellFormed, Distinct, L.Shaped, S.RecordDecision;
    S.DecisionWellFormed(w.ground.lower.value, step.decision);
    S.DecisionCapacity(w.ground.lower.value, step.decision);
    DecisionCarries(w.ground, w.upper.value, step.decision, step.write);
    DecisionCarries(w.ground, w.mem.value, step.decision, step.write);
  }

  lemma ResolveReplayKeepsInv(w: World, step: OperationStep, w': World)
    requires Inv(w) && step.ResolveReplay? && OperationEnabled(w, step) && w' == ApplyOperation(w, step)
    ensures Inv(w')
  {
    hide L.WellFormed, S.WellFormed, Distinct;
  }

  lemma ResolveUpperKeepsInv(w: World, step: OperationStep, w': World)
    requires Inv(w) && step.ResolveUpper? && OperationEnabled(w, step) && w' == ApplyOperation(w, step)
    ensures Inv(w')
  {
    hide L.WellFormed, S.WellFormed, Distinct, L.Shaped, L.RecordStatus, L.Append;
    match w.flight.decision {
      case AdoptListedTask(task) => L.StatusShaped(w.mem.value, task, step.status);
      case AbandonAfterReconciliation(_) => L.AppendShaped(w.mem.value, L.AbandonedUnknown);
    }
  }

  lemma RestartStepKeepsInv(w: World, step: RestartStep, w': World)
    requires Inv(w) && RestartEnabled(w, step) && w' == ApplyRestart(w, step)
    ensures Inv(w')
  {
    hide *;
    match step
    case Crash => CrashKeepsInv(w, step, w');
    case Reconfigure(_) => ReconfigureKeepsInv(w, step, w');
    case Load => LoadKeepsInv(w, step, w');
    case RestartRecover(_) => RestartRecoverKeepsInv(w, step, w');
    case Repair(_) => RepairKeepsInv(w, step, w');
  }

  lemma SubmitStepKeepsInv(w: World, step: SubmitStep, w': World)
    requires Inv(w) && SubmitEnabled(w, step) && w' == ApplySubmit(w, step)
    ensures Inv(w')
  {
    hide *;
    match step
    case FailEarly => FailEarlyKeepsInv(w, step, w');
    case WriteIntent(_) => WriteIntentKeepsInv(w, step, w');
    case WriteFailedBeforeSpawn(_, _) => WriteFailedBeforeSpawnKeepsInv(w, step, w');
    case WriteAuthorized(_) => WriteAuthorizedKeepsInv(w, step, w');
    case Spawn => SpawnKeepsInv(w, step, w');
    case WriteStarted(_, _) => WriteStartedKeepsInv(w, step, w');
    case WriteTask(_, _) => WriteTaskKeepsInv(w, step, w');
    case WriteUnknown(_) => WriteUnknownKeepsInv(w, step, w');
  }

  lemma OperationStepKeepsInv(w: World, step: OperationStep, w': World)
    requires Inv(w) && OperationEnabled(w, step) && w' == ApplyOperation(w, step)
    ensures Inv(w')
  {
    hide *;
    match step
    case Recover(_) => RecoverKeepsInv(w, step, w');
    case Begin(_, _) => BeginKeepsInv(w, step, w');
    case Finish(_) => FinishKeepsInv(w, step, w');
    case RecheckFails => RecheckNeverFails(w);
    case Inspect(_, _) => InspectKeepsInv(w, step, w');
    case CancelPending(_) => CancelPendingKeepsInv(w, step, w');
    case ReconcileLower(_, _, _) => ReconcileLowerKeepsInv(w, step, w');
    case ReconcileUpper(_) => ReconcileUpperKeepsInv(w, step, w');
    case ResolveLower(_, _) => ResolveLowerKeepsInv(w, step, w');
    case ResolveReplay(_) => ResolveReplayKeepsInv(w, step, w');
    case ResolveUpper(_, _) => ResolveUpperKeepsInv(w, step, w');
  }

  lemma StepKeepsInv(w: World, step: Step, w': World)
    requires Inv(w) && Enabled(w, step) && w' == Apply(w, step)
    ensures Inv(w')
  {
    hide Inv, RestartEnabled, SubmitEnabled, OperationEnabled, ApplyRestart, ApplySubmit, ApplyOperation;
    match step
    case Restarting(r) => RestartStepKeepsInv(w, r, w');
    case Submit(s) => SubmitStepKeepsInv(w, s, w');
    case Operation(o) => OperationStepKeepsInv(w, o, w');
  }

  /** Every world of every run, however it crashed and whichever writes failed. */
  lemma {:induction false} InvAlways(run: seq<World>, steps: seq<Step>, n: nat)
    requires IsRun(run, steps) && n <= |steps|
    ensures Inv(run[n])
  {
    hide Inv, Enabled, Apply;
    if n == 0 {
      InvInit(run[0]);
    } else {
      InvAlways(run, steps, n - 1);
      StepOfRun(run, steps, n - 1);
      hide IsRun;
      StepKeepsInv(run[n - 1], steps[n - 1], run[n]);
    }
  }
}
