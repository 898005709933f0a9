/**
 * `CloudTaskOrchestrator` (cloud_lifecycle.rs) as it runs over a `CloudTaskRunner`. Each method's
 * execution is a run of the protocol; the methods add what the caller is told.
 */
module CloudOrchestrator {
  import opened CloudTypes
  import S = SubmitLedger
  import L = LifecycleLedger
  import opened SubmitProtocol
  import opened ProtocolInvariant
  import opened CloudListing
  import opened CloudRunner

  datatype StartEnv = StartEnv(
    freshId: OperationId,
    observeBusy: bool,
    recovery: Write,
    begin: Write,
    submit: SubmitEnv,
    finish: Write)

  /** No earlier submit stands in the way, once an interrupted one has been recovered. */
  ghost predicate Vacant(lower: Option<S.SubmitState>) {
    lower.Some? ==>
      match lower.value.Latest()
      case Intent => true
      case FailedBeforeSpawn => true
      case TaskRecorded => true
      case TaskAdopted => true
      case ExplicitlyAbandoned => true
      case _ => false
  }

  /** A turn begins: nothing is running, and its first record is on disk. */
  ghost predicate Begins(w: World, env: StartEnv) {
    && Resting(w) && !env.observeBusy && Matches(w) && (Interrupted(w.ground.lower) ==> env.recovery.Durable?)
    && Vacant(w.ground.lower) && env.begin.Durable?
  }

  /** Why a turn does not begin, when none is running. */
  ghost function StartRefusal(w: World, env: StartEnv): Error {
    if env.observeBusy then Error(Busy, None)
    else if !Matches(w) then Error(LedgerInvalid, None)
    else if Interrupted(w.ground.lower) && !env.recovery.Durable? then Error(LedgerUnavailable, None)
    else if w.ground.lower.Some? && !Vacant(w.ground.lower) then
      Error(OperationConflict, Some(w.ground.lower.value.op))
    else Error(LedgerUnavailable, None)
  }

  /** What the projection says after the answer of `submit`. */
  ghost predicate Projects(answer: Result<TaskId, Error>, u: L.LifecycleState) {
    match answer
    case Ok(task) => u.phase == L.Pending && u.task == Some(task)
    case Err(error) =>
      && u.task.None?
      && u.phase == if error.category == CanceledBeforeStart then L.CanceledLocally(false)
                    else if error.category == OutcomeUnknown || error.category == RecoveryRequired then L.Unknown
                    else L.FailedBeforeSubmit
  }

  /** What construction makes of an unsettled projection, from the submit ledger that it finds. */
  ghost predicate RepairShows(u: L.LifecycleState, lower: Option<S.SubmitState>, v: L.LifecycleState) {
    && v.op == u.op && v.generation == u.generation && v.candidates == u.candidates && v.complete == u.complete
    && if lower.None? || lower.value.op != u.op then v.phase == L.FailedBeforeSubmit
       else
         match lower.value.Latest()
         case Intent => v.phase == L.FailedBeforeSubmit
         case FailedBeforeSpawn => v.phase == L.FailedBeforeSubmit
         case TaskRecorded => v.phase == L.Pending && v.task == lower.value.task
         case TaskAdopted => v.phase == L.Pending && v.task == lower.value.task
         case ExplicitlyAbandoned => v.phase == L.AbandonedUnknown
         case _ => v.phase == L.Unknown
  }

  /** The outcome was unknown and is, so that construction has nothing to write above. */
  ghost predicate StaysUnknown(u: L.LifecycleState, lower: Option<S.SubmitState>) {
    u.phase == L.Unknown && lower.Some? && lower.value.op == u.op && Unsettled(lower)
  }

  lemma RepairedShows(w: World, u: L.LifecycleState)
    requires Inv(w) && w.upper == Some(u) && NeedsRepair(u) && !Interrupted(w.ground.lower)
    requires Classify(u.op, w.ground.lower).Ok? && Repaired(u, Classify(u.op, w.ground.lower).value).Some?
    ensures RepairShows(u, w.ground.lower, Repaired(u, Classify(u.op, w.ground.lower).value).value)
    ensures Repaired(u, Classify(u.op, w.ground.lower).value).value == u <==> StaysUnknown(u, w.ground.lower)
  {
    hide L.WellFormed, S.WellFormed, Distinct, L.Shaped, MemLinked, FlightSound, AllIssued;
    if w.ground.lower.Some? {
      S.LatestFixesShape(w.ground.lower.value);
    }
  }

  lemma RecoverableStopped(w: World, write: Write)
    requires !w.up && w.upper.Some? && NeedsRepair(w.upper.value)
    ensures Matches(w) && Interrupted(w.ground.lower) ==> RestartEnabled(w, RestartRecover(write))
  {
  }

  /** Recovery does not change what construction makes of it. */
  lemma RecoveredShows(u: L.LifecycleState, s: S.SubmitState, v: L.LifecycleState)
    requires s.Latest().IsInterrupted() && |s.history| < S.MAX_HISTORY
    ensures RepairShows(u, Some(S.Recovered(s).state), v) ==> RepairShows(u, Some(s), v)
    ensures StaysUnknown(u, Some(S.Recovered(s).state)) <==> StaysUnknown(u, Some(s))
  {
    S.RecoveredKeeps(s);
    hide S.Recovered;
  }

  /** What an operator may decide about an unknown outcome. */
  ghost predicate Permitted(u: L.LifecycleState, decision: Decision) {
    && u.generation > 0
    && match decision
       case AdoptListedTask(task) => u.complete == Some(true) && task in u.candidates
       case AbandonAfterReconciliation(acknowledged) => acknowledged == u.op
  }

  /** Why `resolve_unknown` refuses, when there is a current operation and it does. */
  ghost function ResolutionRefusal(u: L.LifecycleState, w: World, op: OperationId, decision: Decision,
                                   status: Option<TaskStatus>, env: ResolveEnv): Error
  {
    if u.op != op || (u.phase != L.Unknown && u.phase != L.Submitting) then Error(StaleDecision, Some(op))
    else if u.phase == L.Submitting || u.generation == 0 then Error(WrongState, Some(op))
    else if !Permitted(u, decision) then
      Error(if decision.AdoptListedTask? then TaskNotListed else AcknowledgementRequired, Some(op))
    else if decision.AdoptListedTask? && status.None? then Error(ProviderRead, Some(op))
    else if !Resolvable(w, op, decision, env) then ResolveRefusal(w, op, decision, env)
    else Error(RecoveryRequired, Some(op))
  }

  datatype Cancellation = Waiting | Answered(result: Result<L.LifecycleState, Error>)

  lemma TaskMeansPhase(u: L.LifecycleState)
    requires L.WellFormed(u)
    ensures u.task.Some? <==> u.phase.RequiresTask()
  {
  }

  /** Once recovered, exactly a vacant submit ledger says nothing about a fresh operation. */
  lemma VacantIsAbsent(w: World, op: OperationId)
    requires Inv(w) && op !in w.issued
    ensures !Interrupted(w.ground.lower) ==> (Classify(op, w.ground.lower) == Ok(Absent) <==> Vacant(w.ground.lower))
    ensures Interrupted(w.ground.lower) ==>
              var recovered := Some(S.Recovered(w.ground.lower.value).state);
              && (Classify(op, recovered) == Ok(Absent) <==> Vacant(w.ground.lower))
              && (Classify(op, recovered) == Ok(Absent)
                  || Classify(op, recovered) == Err(Error(OperationConflict, Some(w.ground.lower.value.op))))
    ensures || Classify(op, w.ground.lower) == Ok(Absent)
            || (&& w.ground.lower.Some?
                && Classify(op, w.ground.lower) == Err(Error(OperationConflict, Some(w.ground.lower.value.op))))
  {
    if w.ground.lower.Some? {
      RecoveredUnsettled(w.ground.lower.value);
      if Interrupted(w.ground.lower) {
        S.RecoveredKeeps(w.ground.lower.value);
      }
    }
    hide L.WellFormed, S.WellFormed, Distinct, S.Recovered, SoundIfAny, MemLinked, FlightSound;
  }

  /** What the first projection of a turn does to the world. */
  lemma BeginStep(w: World, op: OperationId, write: Write)
    requires OperationEnabled(w, Begin(op, write))
    ensures Enabled(w, Operation(Begin(op, write)))
    ensures var d := Apply(w, Operation(Begin(op, write)));
            && d.upper == Stored(w.upper, Some(L.NewSubmitting(op)), write) && d.ground == w.ground
            && d.up == w.up && d.config == w.config
            && d.mem == (if write.Durable? then Some(L.NewSubmitting(op)) else w.mem)
            && d.flight == (if write.Durable? then Running(op, None, false, false) else w.flight)
  {
    hide Classify;
  }

  /** A decision below can always be projected. */
  lemma DecisionProjects(w: World, decision: Decision, status: TaskStatus, write: Write)
    requires w.up && w.flight == Resolved(decision) && w.mem.Some? && DecisionAllowed(w.mem.value, decision)
    requires L.Shaped(w.mem.value)
    ensures var r, step := RecordProjection(w.mem.value, decision, status), Operation(ResolveUpper(status, write));
            && r.Ok() && L.WellFormed(r.state) && r.state.op == w.mem.value.op
            && r.state.generation == w.mem.value.generation
            && (decision.AdoptListedTask? ==> r.state.task == Some(decision.task) && L.Tells(status, r.state.phase))
            && (decision.AbandonAfterReconciliation? ==> r.state.phase == L.AbandonedUnknown)
            && Enabled(w, step) && Apply(w, step) == Project(w, r.state, write)
  {
    hide L.WellFormed, L.RecordStatus, L.Append;
    match decision
    case AdoptListedTask(task) => L.StatusShaped(w.mem.value, task, status);
    case AbandonAfterReconciliation(_) => L.AppendShaped(w.mem.value, L.AbandonedUnknown);
  }

  /** What storing the repaired projection does to the world. */
  lemma RepairStep(w: World, u: L.LifecycleState, write: Write)
    requires !w.up && Matches(w) && w.upper == Some(u) && NeedsRepair(u) && !Interrupted(w.ground.lower)
    requires Classify(u.op, w.ground.lower).Ok? && Repaired(u, Classify(u.op, w.ground.lower).value).Some?
    ensures Enabled(w, Restarting(Repair(write)))
    ensures var repaired := Repaired(u, Classify(u.op, w.ground.lower).value).value;
            Apply(w, Restarting(Repair(write))) ==
            if repaired == u then w.(up := true, mem := w.upper)
            else PutUpper(w, repaired, write).(
                   up := write.Durable?, mem := if write.Durable? then Some(repaired) else None)
  {
    hide Classify, Repaired;
  }

  lemma FinishStep(w: World, write: Write)
    requires Rechecked(w) && RecordResult(w.mem.value, w.flight.result).Ok()
    ensures Enabled(w, Operation(Finish(write)))
    ensures Apply(w, Operation(Finish(write))) ==
            Project(w, RecordResult(w.mem.value, w.flight.result).state, write)
  {
    hide RecordResult;
  }

  lemma ListingProjects(w: World, tasks: seq<TaskId>, complete: bool, write: Write)
    requires w.up && w.flight == Reconciled(tasks, complete) && w.mem.Some? && Owns(w.ground, w.mem.value.op)
    requires L.Shaped(w.mem.value) && L.RecordReconciliation(w.mem.value, tasks, complete).Ok()
    ensures var u, r := w.mem.value, L.RecordReconciliation(w.mem.value, tasks, complete).state;
            && L.WellFormed(r) && r.op == u.op && r.phase == L.Unknown && r.generation == u.generation + 1
            && r.candidates == tasks && r.complete == Some(complete)
            && Enabled(w, Operation(ReconcileUpper(write)))
            && Apply(w, Operation(ReconcileUpper(write))) == Project(w, r, write)
  {
    hide L.WellFormed, Distinct;
    L.ReconciliationShaped(w.mem.value, tasks, complete);
  }

  class CloudTaskOrchestrator {
    const runner: CloudTaskRunner
    var ledger: Option<L.LifecycleState>
    /** Whether a submit in flight can still be signalled, and whether it was. */
    var cancellation: Option<bool>

    /** An orchestrator that agrees with its host and whose mutex is free. */
    ghost predicate Linked()
      reads this, runner.host
    {
      && runner.host.Valid()
      && Open(runner.host.Now()) && runner.host.Now().mem == ledger
      && runner.host.Now().config == runner.config
    }

    constructor Loaded(runner: CloudTaskRunner, ledger: Option<L.LifecycleState>)
      ensures this.runner == runner && this.ledger == ledger && cancellation.None?
    {
      this.runner, this.ledger, cancellation := runner, ledger, None;
    }

    /**
     * Construction with repair. It executes nothing, never hands out a `Submitting` projection,
     * and fails only if the lease is busy, a write does not take effect, or an unsettled projection
     * meets a submit ledger of another configuration.
     */
    static method FromRunner(runner: CloudTaskRunner, leaseBusy: bool, recovery: Write, repair: Write)
      returns (orchestrator: Option<CloudTaskOrchestrator>)
      requires runner.host.Valid() && !runner.host.Now().up && runner.host.Now().config == runner.config
      modifies runner.host
      ensures runner.host.Extends()
      ensures runner.host.Now().ground.execs == old(runner.host.Now()).ground.execs
      ensures orchestrator.Some? ==>
                && fresh(orchestrator.value) && orchestrator.value.runner == runner && orchestrator.value.Linked()
                && var w, found := old(runner.host.Now()), orchestrator.value.ledger;
                   if w.upper.Some? && (w.upper.value.phase == L.Submitting || w.upper.value.phase == L.Unknown)
                   then found.Some? && RepairShows(w.upper.value, w.ground.lower, found.value)
                   else found == w.upper
      ensures orchestrator.None? ==> !runner.host.Now().up
      ensures var w := old(runner.host.Now());
              var unfinished := w.upper.Some? && w.upper.value.phase in {L.Submitting, L.Unknown};
              var refused := leaseBusy || (unfinished && !Matches(w));
              && (refused ==> orchestrator.None? && runner.host.Now() == w)
              && (!refused ==>
                    (orchestrator.Some? <==>
                       (unfinished ==>
                          && (Interrupted(w.ground.lower) ==> recovery.Durable?)
                          && (StaysUnknown(w.upper.value, w.ground.lower) || repair.Durable?))))
    {
      ghost var host := runner.host;
      InvAlways(host.run, host.steps, |host.steps|);
      hide IsRun, S.WellFormed, L.WellFormed, Distinct, Agrees, Counted;
      if leaseBusy {
        return None;
      }
      var current := runner.host.upper;
      if current.None? || !NeedsRepair(current.value) {
        runner.host.Note(Restarting(Load));
        var loaded := new CloudTaskOrchestrator.Loaded(runner, current);
        return Some(loaded);
      }
      orchestrator := Repairing(runner, current.value, recovery, repair);
    }

    /** `repair_interrupted_state` for a projection that needs it. */
    static method Repairing(runner: CloudTaskRunner, current: L.LifecycleState, recovery: Write, repair: Write)
      returns (orchestrator: Option<CloudTaskOrchestrator>)
      requires runner.host.Valid() && !runner.host.Now().up && runner.host.Now().config == runner.config
      requires runner.host.upper == Some(current) && NeedsRepair(current)
      modifies runner.host
      ensures runner.host.Extends()
      ensures runner.host.Now().ground.execs == old(runner.host.Now()).ground.execs
      ensures orchestrator.Some? ==>
                && fresh(orchestrator.value) && orchestrator.value.runner == runner && orchestrator.value.Linked()
                && orchestrator.value.ledger.Some?
                && RepairShows(current, old(runner.host.lower), orchestrator.value.ledger.value)
      ensures orchestrator.None? ==> !runner.host.Now().up
      ensures !Matches(old(runner.host.Now())) ==> orchestrator.None? && runner.host.Now() == old(runner.host.Now())
      ensures Matches(old(runner.host.Now())) ==>
                (orchestrator.Some? <==>
                   && (Interrupted(old(runner.host.lower)) ==> recovery.Durable?)
                   && (StaysUnknown(current, old(runner.host.lower)) || repair.Durable?))
    {
      ghost var host, before := runner.host, runner.host.lower;
      hide IsRun, S.WellFormed, L.WellFormed, Distinct, Inv, RepairShows, StaysUnknown, S.Recovered,
        OperationEnabled, RestartEnabled, Enabled, Apply;
      InvAlways(host.run, host.steps, |host.steps|);
      if before.Some? {
        LowerBelongs(host.Now());
        RecoveredUnsettled(before.value);
        RecoverableStopped(host.Now(), recovery);
      }
      var recovered := runner.RecoverCurrentLedger(recovery);
      if recovered.Err? {
        return None;
      }
      orchestrator := StoreRepaired(runner, current, recovered.value, repair);
      if Interrupted(before) {
        RecoveredShows(current, before.value,
                       if orchestrator.Some? then orchestrator.value.ledger.value else current);
      }
    }

    /** Projects what the recovered submit ledger shows; writes only if that changes the projection. */
    static method StoreRepaired(runner: CloudTaskRunner, current: L.LifecycleState, seen: Option<S.SubmitState>,
                                repair: Write)
      returns (orchestrator: Option<CloudTaskOrchestrator>)
      requires runner.host.Valid() && !runner.host.Now().up && runner.host.Now().config == runner.config
      requires runner.host.upper == Some(current) && NeedsRepair(current)
      requires seen == runner.host.lower && !Interrupted(seen) && Matches(runner.host.Now())
      modifies runner.host
      ensures runner.host.Extends()
      ensures runner.host.Now().ground.execs == old(runner.host.Now()).ground.execs
      ensures orchestrator.Some? ==>
                && fresh(orchestrator.value) && orchestrator.value.runner == runner && orchestrator.value.Linked()
                && orchestrator.value.ledger.Some? && RepairShows(current, seen, orchestrator.value.ledger.value)
      ensures orchestrator.None? ==> !runner.host.Now().up
      ensures orchestrator.Some? <==> StaysUnknown(current, seen) || repair.Durable?
    {
      ghost var host := runner.host;
      hide IsRun, S.WellFormed, L.WellFormed, Distinct, Inv, Classify, Repaired, Enabled, Apply, RepairShows,
        StaysUnknown;
      InvAlways(host.run, host.steps, |host.steps|);
      RepairSucceeds(host.Now(), current);
      RepairedShows(host.Now(), current);
      var repaired := Repaired(current, Classify(current.op, seen).value).value;
      RepairStep(host.Now(), current, Durable);
      RepairStep(host.Now(), current, repair);
      if repaired == current {
        runner.host.Note(Restarting(Repair(Durable)));
      } else {
        var record := new L.CloudLifecycleLedger.FromState(repaired);
        var ok := runner.host.PersistLifecycle(record, repair, Restarting(Repair(repair)));
        if !ok {
          return None;
        }
      }
      var loaded := new CloudTaskOrchestrator.Loaded(runner, Some(repaired));
      orchestrator := Some(loaded);
    }

    /**
     * `start`. The recheck after the mutex is retaken cannot fail and no other operation can be
     * reported, by `SubmitWindow`, so neither branch appears here.
     */
    method Start(env: StartEnv) returns (r: Result<L.LifecycleState, Error>, ghost answer: Result<TaskId, Error>)
      requires Linked()
      requires env.freshId != NIL_OPERATION && env.freshId !in runner.host.Now().issued
      requires env.submit.loginAndSentinel.Some? ==> Plain(env.submit.loginAndSentinel.value)
      requires env.submit.start.NotStarted? ==> Plain(env.submit.start.category)
      modifies this, runner.host
      ensures Linked() && runner.host.Extends()
      // The command is executed exactly then, and once.
      ensures runner.host.Now().ground.execs == old(runner.host.Now()).ground.execs
              + if Begins(old(runner.host.Now()), env) && Executes(env.submit) then [env.freshId] else []
      ensures r.Ok? <==> Begins(old(runner.host.Now()), env) && env.finish.Durable?
      ensures Begins(old(runner.host.Now()), env) ==> answer == SubmitAnswer(env.freshId, env.submit)
      ensures old(ledger).Some? && !old(ledger).value.phase.IsTerminal() ==>
                && r == Err(Error(TurnAlreadyRunning, Some(old(ledger).value.op)))
                && runner.host.Now() == old(runner.host.Now())
      ensures r.Ok? ==>
                && ledger == Some(r.value) && r.value.op == env.freshId && r.value.phase != L.Submitting
                && runner.host.upper == Some(r.value) && Projects(answer, r.value)
                && (answer.Ok? ==> Holds(runner.host.Now().ground, env.freshId, answer.value))
      ensures Begins(old(runner.host.Now()), env) && r.Err? ==> r.error == Error(RecoveryRequired, Some(env.freshId))
      ensures !Begins(old(runner.host.Now()), env) ==> ledger == old(ledger)
      ensures Resting(old(runner.host.Now())) && !Begins(old(runner.host.Now()), env) ==>
                r == Err(StartRefusal(old(runner.host.Now()), env))
    {
      answer := Err(Error(Busy, None));
      hide IsRun, S.WellFormed, L.WellFormed, Distinct;
      if ledger.Some? && !ledger.value.phase.IsTerminal() {
        return Err(Error(TurnAlreadyRunning, Some(ledger.value.op))), answer;
      }
      var refusal := BeginTurn(env.freshId, env);
      if refusal.Some? {
        return Err(refusal.value), answer;
      }
      ProceedsToSubmit(runner.host.run, runner.host.steps);
      var submitted := runner.SubmitRequest(env.freshId, env.submit);
      answer := submitted;
      r := FinishStart(env.freshId, submitted, env.finish);
    }

    /** `start` up to releasing the mutex. */
    method BeginTurn(op: OperationId, env: StartEnv) returns (refusal: Option<Error>)
      requires Linked() && Resting(runner.host.Now())
      requires op != NIL_OPERATION && op !in runner.host.Now().issued
      modifies this, runner.host
      ensures Linked() && runner.host.Extends()
      ensures runner.host.Now().ground.execs == old(runner.host.Now()).ground.execs
      ensures refusal.None? <==> Begins(old(runner.host.Now()), env)
      ensures refusal.None? ==>
                && ledger == Some(L.NewSubmitting(op)) && runner.host.upper == ledger && Matches(runner.host.Now())
                && runner.host.Now().flight == Running(op, None, false, false)
      ensures refusal.Some? ==> ledger == old(ledger) && refusal.value == StartRefusal(old(runner.host.Now()), env)
    {
      hide IsRun, S.WellFormed, L.WellFormed, Distinct, Enabled, Apply, Classify, Inv, Vacant, S.Recovered;
      InvAlways(runner.host.run, runner.host.steps, |runner.host.steps|);
      VacantIsAbsent(runner.host.Now(), op);
      var observed := runner.ObserveSubmit(op, env.observeBusy, env.recovery);
      if observed.Err? {
        return Some(observed.error);
      }
      if observed.value != Absent {
        return Some(Error(OperationConflict, Some(op)));
      }
      var submitting := new L.CloudLifecycleLedger(op);
      L.NewSubmittingShaped(op);
      BeginStep(runner.host.Now(), op, env.begin);
      var ok := runner.host.PersistLifecycle(submitting, env.begin, Operation(Begin(op, env.begin)));
      if !ok {
        return Some(Error(LedgerUnavailable, None));
      }
      ledger := Some(L.NewSubmitting(op));
      cancellation := Some(false);
      refusal := None;
    }

    /** What the operations rely on about the projection in memory. */
    lemma ProjectionInMemory(run: seq<World>, steps: seq<Step>)
      requires IsRun(run, steps)
      ensures var w := run[|steps|];
              && (w.mem.Some? ==>
                    && L.Shaped(w.mem.value) && L.WellFormed(w.mem.value)
                    && (w.mem.value.phase == L.Pending ==> w.mem.value.task.Some?))
              && (w.flight.Resolved? ==> w.mem.Some? && DecisionAllowed(w.mem.value, w.flight.decision))
    {
      InvAlways(run, steps, |steps|);
    }

    /** A submit that has just begun meets a free, uninterrupted submit ledger. */
    lemma ProceedsToSubmit(run: seq<World>, steps: seq<Step>)
      requires IsRun(run, steps) && run[|steps|].flight.Running? && run[|steps|].flight.ledger.None?
      ensures Dispatch(run[|steps|].flight.op, run[|steps|].ground.lower).None?
      ensures !Interrupted(run[|steps|].ground.lower)
    {
      InvAlways(run, steps, |steps|);
    }

    method RecordAnswer(u: L.LifecycleState, result: SubmitResult) returns (next: L.CloudLifecycleLedger)
      requires L.Shaped(u) && u.phase == L.Submitting
      ensures fresh(next) && Attempt(next.View(), None) == RecordResult(u, result)
      ensures L.Shaped(next.View()) && next.View().op == u.op
      ensures var v := next.View();
              match result
              case TaskSubmitted(task) => v.phase == L.Pending && v.task == Some(task)
              case SubmitCanceled => v.phase == L.CanceledLocally(false) && v.task.None?
              case SubmitUncertain => v.phase == L.Unknown && v.task.None?
              case SubmitFailed => v.phase == L.FailedBeforeSubmit && v.task.None?
    {
      hide L.WellFormed, Distinct;
      next := new L.CloudLifecycleLedger.FromState(u);
      var error: Option<Category>;
      match result {
        case TaskSubmitted(task) =>
          L.StatusShaped(u, task, PendingStatus);
          error := next.MarkStatus(task, PendingStatus);
        case SubmitCanceled =>
          L.CanceledShaped(u);
          error := next.MarkCanceledWithoutTask();
        case SubmitUncertain =>
          L.AppendShaped(u, L.Unknown);
          error := next.AppendPhase(L.Unknown);
        case SubmitFailed =>
          L.AppendShaped(u, L.FailedBeforeSubmit);
          error := next.AppendPhase(L.FailedBeforeSubmit);
      }
    }

    /** `start` after retaking the mutex: what the answer of `submit` becomes. */
    method FinishStart(op: OperationId, answer: Result<TaskId, Error>, write: Write)
      returns (r: Result<L.LifecycleState, Error>)
      requires Linked() && runner.host.Now().flight == Returned(op, ResultOf(answer))
      requires ledger == Some(L.NewSubmitting(op))
      modifies this, runner.host
      ensures Linked() && runner.host.Extends() && cancellation.None?
      ensures runner.host.Now().ground == old(runner.host.Now()).ground
      ensures r.Ok? <==> write.Durable?
      ensures r.Ok? ==>
                && ledger == Some(r.value) && r.value.op == op && r.value.phase != L.Submitting
                && runner.host.upper == Some(r.value) && Projects(answer, r.value)
      ensures r.Err? ==> r.error == Error(RecoveryRequired, Some(op))
    {
      hide IsRun, S.WellFormed, L.WellFormed, Distinct, Enabled, Apply, RecordResult;
      ProjectionInMemory(runner.host.run, runner.host.steps);
      var next := RecordAnswer(ledger.value, ResultOf(answer));
      FinishStep(runner.host.Now(), write);
      var ok := runner.host.PersistLifecycle(next, write, Operation(Finish(write)));
      cancellation := None;
      if !ok {
        return Err(Error(RecoveryRequired, Some(op)));
      }
      ledger := Some(next.View());
      r := Ok(next.View());
    }

    /** `inspect`: at most one status read, recorded durably before it is believed. */
    method InspectTask(status: Option<TaskStatus>, write: Write) returns (r: Result<L.LifecycleState, Error>)
      requires Linked()
      modifies this`ledger, runner.host
      ensures Linked() && runner.host.Extends()
      ensures runner.host.Now().ground == old(runner.host.Now()).ground
      ensures r.Ok? ==> ledger == Some(r.value)
      ensures r.Err? ==> ledger == old(ledger)
      ensures old(ledger).Some? && old(ledger).value.phase == L.Pending ==>
                && (r.Ok? <==> status.Some? && write.Durable?)
                && (r.Ok? ==> && L.Tells(status.value, r.value.phase)
                              && r.value.op == old(ledger).value.op && r.value.task == old(ledger).value.task
                              && runner.host.upper == Some(r.value))
      ensures !(old(ledger).Some? && old(ledger).value.phase == L.Pending) ==>
                && runner.host.Now() == old(runner.host.Now())
                && (r.Ok? <==> ledger.Some? && ledger.value.phase.IsTerminal())
      ensures r.Err? ==>
                if ledger.None? then r.error == Error(NoCurrentOperation, None)
                else
                  var category := if ledger.value.phase == L.Submitting then TurnAlreadyRunning
                                  else if ledger.value.phase == L.Unknown then OutcomeUnknown
                                  else if status.None? then ProviderRead
                                  else RecoveryRequired;
                  r.error == Error(category, Some(ledger.value.op))
    {
      if ledger.None? {
        return Err(Error(NoCurrentOperation, None));
      }
      if ledger.value.phase == L.Submitting {
        return Err(Error(TurnAlreadyRunning, Some(ledger.value.op)));
      }
      if ledger.value.phase == L.Unknown {
        return Err(Error(OutcomeUnknown, Some(ledger.value.op)));
      }
      if ledger.value.phase != L.Pending {
        return Ok(ledger.value);
      }
      if status.None? {
        return Err(Error(ProviderRead, Some(ledger.value.op)));
      }
      hide IsRun, S.WellFormed, L.WellFormed, Distinct, RestartEnabled, SubmitEnabled, ApplyRestart, ApplySubmit;
      ProjectionInMemory(runner.host.run, runner.host.steps);
      L.StatusShaped(ledger.value, ledger.value.task.value, status.value);
      var next := new L.CloudLifecycleLedger.FromState(ledger.value);
      var error := next.MarkStatus(ledger.value.task.value, status.value);
      var ok := runner.host.PersistLifecycle(next, write, Operation(Inspect(status.value, write)));
      if !ok {
        return Err(Error(RecoveryRequired, Some(ledger.value.op)));
      }
      ledger := Some(next.View());
      r := Ok(next.View());
    }

    /**
     * One pass of the loop in `cancel`. A submit in flight is signalled and waited for; every
     * answer given is a settled projection, never `Submitting`.
     */
    method CancelTurn(write: Write) returns (r: Cancellation)
      requires Linked()
      modifies this, runner.host
      ensures Linked() && runner.host.Extends()
      ensures runner.host.Now().ground == old(runner.host.Now()).ground
      ensures r.Answered? && r.result.Ok? ==> ledger == Some(r.result.value) && r.result.value.phase != L.Submitting
      ensures r.Waiting? <==> old(ledger).Some? && old(ledger).value.phase == L.Submitting && old(cancellation).Some?
      ensures r.Waiting? ==> cancellation == Some(true) && ledger == old(ledger)
      ensures r.Answered? && r.result.Ok? ==>
                && old(ledger).Some? && old(ledger).value.phase != L.Submitting
                && if old(ledger).value.phase != L.Pending then r.result.value == old(ledger).value
                   else write.Durable? && L.Canceled(old(ledger).value, r.result.value, true)
      ensures r.Answered? && r.result.Err? ==>
                && ledger == old(ledger)
                && if ledger.None? then r.result.error == Error(NoCurrentOperation, None)
                   else
                     && r.result.error == Error(RecoveryRequired, Some(ledger.value.op))
                     && if ledger.value.phase == L.Submitting then old(cancellation).None?
                        else ledger.value.phase == L.Pending && !write.Durable?
    {
      if ledger.None? {
        return Answered(Err(Error(NoCurrentOperation, None)));
      }
      if ledger.value.phase == L.Submitting {
        if cancellation.None? {
          return Answered(Err(Error(RecoveryRequired, Some(ledger.value.op))));
        }
        cancellation := Some(true);
        return Waiting;
      }
      if ledger.value.phase != L.Pending {
        return Answered(Ok(ledger.value));
      }
      hide IsRun, S.WellFormed, L.WellFormed, Distinct, RestartEnabled, SubmitEnabled, ApplyRestart, ApplySubmit;
      ProjectionInMemory(runner.host.run, runner.host.steps);
      L.CanceledShaped(ledger.value);
      var next := new L.CloudLifecycleLedger.FromState(ledger.value);
      var error := next.MarkCanceledWithTask();
      var ok := runner.host.PersistLifecycle(next, write, Operation(CancelPending(write)));
      if !ok {
        return Answered(Err(Error(RecoveryRequired, Some(ledger.value.op))));
      }
      ledger := Some(next.View());
      r := Answered(Ok(next.View()));
    }

    /** `reconcile_unknown`: the submit ledger records the candidates before the projection does. */
    method Reconcile(env: ReconcileEnv, write: Write)
      returns (r: Result<(seq<TaskId>, bool), Error>, ghost calls: nat)
      requires Linked()
      modifies this`ledger, runner.host
      ensures Linked() && runner.host.Extends()
      ensures runner.host.Now().ground.execs == old(runner.host.Now()).ground.execs
      ensures !(old(ledger).Some? && old(ledger).value.phase == L.Unknown) ==>
                r.Err? && runner.host.Now() == old(runner.host.Now()) && ledger == old(ledger)
      ensures old(ledger).Some? && old(ledger).value.phase == L.Unknown ==>
                (r.Ok? <==> Reconcilable(old(runner.host.lower), env, calls) && write.Durable?)
      ensures r.Ok? ==>
                && r.value.0 == Listed(env.provider, calls) && StopsAt(env.provider, env.late, calls, r.value.1)
                && runner.host.lower.Some? && runner.host.lower.value.candidates == r.value.0
                && runner.host.lower.value.complete == Some(r.value.1) && runner.host.upper == ledger
                && ledger.Some? && ledger.value.generation == old(ledger).value.generation + 1
                && ledger.value.candidates == r.value.0 && ledger.value.complete == Some(r.value.1)
                && ledger.value.op == old(ledger).value.op && ledger.value.phase == L.Unknown
      ensures r.Err? ==>
                && ledger == old(ledger)
                && r.error == (if ledger.None? then Error(NoCurrentOperation, None)
                               else if ledger.value.phase != L.Unknown then Error(WrongState, Some(ledger.value.op))
                               else if Reconcilable(old(runner.host.lower), env, calls)
                               then Error(RecoveryRequired, Some(ledger.value.op))
                               else ListingRefusal(old(runner.host.lower), env, calls))
    {
      hide IsRun, S.WellFormed, L.WellFormed, Distinct, Reconcilable, Lists, Listed, StopsAt, ListingRefusal;
      calls := 0;
      if ledger.None? {
        return Err(Error(NoCurrentOperation, None)), calls;
      }
      if ledger.value.phase != L.Unknown {
        return Err(Error(WrongState, Some(ledger.value.op))), calls;
      }
      var listed;
      listed, calls := runner.ReconcileUnknown(env);
      if listed.Err? {
        ghost var host := runner.host;
        InvAlways(host.run, host.steps, |host.steps|);
        return Err(listed.error), calls;
      }
      r := ProjectListing(listed.value.1, listed.value.2, write);
    }

    method ProjectListing(tasks: seq<TaskId>, complete: bool, write: Write)
      returns (r: Result<(seq<TaskId>, bool), Error>)
      requires runner.host.Valid() && runner.host.Now().up && runner.host.Now().mem == ledger
      requires runner.host.Now().config == runner.config
      requires runner.host.Now().flight == Reconciled(tasks, complete)
      modifies this`ledger, runner.host
      ensures Linked() && runner.host.Extends()
      ensures runner.host.Now().ground == old(runner.host.Now()).ground
      ensures old(ledger).Some?
      ensures r.Ok? ==>
                && r.value == (tasks, complete)
                && ledger.Some? && ledger.value.generation == old(ledger).value.generation + 1
                && ledger.value.candidates == tasks && ledger.value.complete == Some(complete)
                && ledger.value.op == old(ledger).value.op && ledger.value.phase == L.Unknown
      ensures r.Err? ==> ledger == old(ledger) && r.error == Error(RecoveryRequired, Some(ledger.value.op))
      ensures r.Ok? <==> write.Durable?
      ensures r.Ok? ==> runner.host.upper == ledger
    {
      hide IsRun, S.WellFormed, L.WellFormed, Distinct, Enabled, Apply, L.RecordReconciliation, L.Shaped;
      CountFits(runner.host.run, runner.host.steps);
      ProjectionInMemory(runner.host.run, runner.host.steps);
      ListingProjects(runner.host.Now(), tasks, complete, write);
      var next := new L.CloudLifecycleLedger.FromState(ledger.value);
      var error := next.MarkReconciliation(tasks, complete);
      var ok := runner.host.PersistLifecycle(next, write, Operation(ReconcileUpper(write)));
      if !ok {
        return Err(Error(RecoveryRequired, Some(ledger.value.op)));
      }
      ledger := Some(next.View());
      r := Ok((tasks, complete));
    }

    /** The reconciliation counter is bounded by the submit ledger and cannot overflow. */
    lemma CountFits(run: seq<World>, steps: seq<Step>)
      requires IsRun(run, steps) && run[|steps|].flight.Reconciled?
      ensures var w := run[|steps|];
              && w.mem.Some? && w.ground.lower.Some? && w.ground.lower.value.op == w.mem.value.op
              && w.mem.value.generation < S.MAX_HISTORY
              && L.RecordReconciliation(w.mem.value, w.flight.tasks, w.flight.complete).Ok()
    {
      InvAlways(run, steps, |steps|);
    }

    /**
     * `resolve_unknown`. A settled projection answers by replay and nothing is written; an unknown
     * one is decided below before it is projected.
     */
    method Resolve(op: OperationId, decision: Decision, status: Option<TaskStatus>, env: ResolveEnv, write: Write)
      returns (r: Result<L.LifecycleState, Error>)
      requires Linked()
      modifies this`ledger, runner.host
      ensures Linked() && runner.host.Extends()
      ensures runner.host.Now().ground.execs == old(runner.host.Now()).ground.execs
      ensures old(ledger).Some? && old(ledger).value.op == op
              && (old(ledger).value.phase.IsTerminal() || old(ledger).value.phase == L.Pending) ==>
                && runner.host.Now() == old(runner.host.Now())
                && (r.Ok? <==>
                      && old(ledger).value.generation > 0
                      && match decision
                         case AdoptListedTask(task) =>
                           && old(ledger).value.task == Some(task)
                           && old(ledger).value.phase != L.CanceledLocally(true)
                         case AbandonAfterReconciliation(acknowledged) =>
                           old(ledger).value.phase == L.AbandonedUnknown && acknowledged == op)
      ensures r.Ok? ==>
                && ledger == Some(r.value) && r.value.op == op && r.value.generation > 0
                && (decision.AdoptListedTask? ==> r.value.task == Some(decision.task))
                && (decision.AbandonAfterReconciliation? ==> r.value.phase == L.AbandonedUnknown)
      ensures old(ledger).Some? && old(ledger).value.op == op && old(ledger).value.phase == L.Unknown ==>
                (r.Ok? <==>
                   && Permitted(old(ledger).value, decision) && (decision.AdoptListedTask? ==> status.Some?)
                   && Resolvable(old(runner.host.Now()), op, decision, env) && write.Durable?)
      ensures old(ledger).Some? && old(ledger).value.phase == L.Unknown && r.Ok? && decision.AdoptListedTask? ==>
                status.Some? && L.Tells(status.value, r.value.phase)
      ensures r.Err? ==>
                && ledger == old(ledger)
                && r.error == (if ledger.None? then Error(NoCurrentOperation, None)
                               else ResolutionRefusal(ledger.value, old(runner.host.Now()), op, decision, status, env))
    {
      hide IsRun, S.WellFormed, L.WellFormed, Distinct;
      if ledger.None? {
        return Err(Error(NoCurrentOperation, None));
      }
      if ledger.value.op != op {
        return Err(Error(StaleDecision, Some(op)));
      }
      ProjectionInMemory(runner.host.run, runner.host.steps);
      TaskMeansPhase(ledger.value);
      if ledger.value.phase.IsTerminal() || ledger.value.phase == L.Pending {
        if ReplayAccepted(ledger.value, decision) {
          return Ok(ledger.value);
        }
        return Err(Error(StaleDecision, Some(op)));
      }
      if ledger.value.phase != L.Unknown || ledger.value.generation == 0 {
        return Err(Error(WrongState, Some(op)));
      }
      if !DecisionAllowed(ledger.value, decision) {
        return Err(Error(if decision.AdoptListedTask? then TaskNotListed else AcknowledgementRequired, Some(op)));
      }
      if decision.AdoptListedTask? && status.None? {
        return Err(Error(ProviderRead, Some(op)));
      }
      var observed := runner.ResolveUnknown(op, decision, env);
      if observed.Err? {
        return Err(observed.error);
      }
      r := ProjectDecision(decision, if status.Some? then status.value else PendingStatus, write);
    }

    method ProjectDecision(decision: Decision, status: TaskStatus, write: Write)
      returns (r: Result<L.LifecycleState, Error>)
      requires runner.host.Valid() && runner.host.Now().up && runner.host.Now().mem == ledger
      requires runner.host.Now().config == runner.config
      requires runner.host.Now().flight == Resolved(decision)
      modifies this`ledger, runner.host
      ensures Linked() && runner.host.Extends()
      ensures runner.host.Now().ground == old(runner.host.Now()).ground
      ensures old(ledger).Some?
      ensures r.Ok? ==>
                && ledger == Some(r.value) && r.value.op == old(ledger).value.op && r.value.generation > 0
                && (decision.AdoptListedTask? ==> r.value.task == Some(decision.task))
                && (decision.AbandonAfterReconciliation? ==> r.value.phase == L.AbandonedUnknown)
      ensures r.Ok? <==> write.Durable?
      ensures r.Err? ==> ledger == old(ledger) && r.error == Error(RecoveryRequired, Some(ledger.value.op))
      ensures r.Ok? && decision.AdoptListedTask? ==> L.Tells(status, r.value.phase)
    {
      hide IsRun, S.WellFormed, L.WellFormed, Distinct, Enabled, Apply, L.RecordStatus, L.Append, L.Shaped;
      ProjectionInMemory(runner.host.run, runner.host.steps);
      DecisionProjects(runner.host.Now(), decision, status, write);
      var next := new L.CloudLifecycleLedger.FromState(ledger.value);
      var error: Option<Category>;
      match decision {
        case AdoptListedTask(task) =>
          error := next.MarkStatus(task, status);
        case AbandonAfterReconciliation(_) =>
          error := next.AppendPhase(L.AbandonedUnknown);
      }
      var ok := runner.host.PersistLifecycle(next, write, Operation(ResolveUpper(status, write)));
      if !ok {
        return Err(Error(RecoveryRequired, Some(ledger.value.op)));
      }
      ledger := Some(next.View());
      r := Ok(next.View());
    }
  }
}
