/**
 * Adoption and the lists behind it: when the projection on disk names the task that the submit
 * ledger adopted, over every run with crashes and failing writes.
 */
module ProtocolAdoption {
  import opened CloudTypes
  import S = SubmitLedger
  import L = LifecycleLedger
  import opened SubmitProtocol
  import opened ProtocolInvariant
  import opened ProtocolTheorems
  import opened ProtocolLimits

  /** The task is in this projection's complete list. */
  predicate Lists(u: L.LifecycleState, task: TaskId) { u.complete == Some(true) && task in u.candidates }

  predicate Adopted(w: World, op: OperationId, task: TaskId) {
    OwnsAt(w.ground, op, S.TaskAdopted) && w.ground.lower.value.task == Some(task)
  }

  // ----- without a listing that was stored but reported as failed

  /** A reconciliation of `op` whose projection reached the disk although the write reported an error. */
  predicate SilentListing(w: World, step: Step, op: OperationId) {
    step == Operation(ReconcileUpper(WrittenButFailed)) && w.mem.Some? && w.mem.value.op == op
  }

  predicate NoSilentListing(run: seq<World>, steps: seq<Step>, n: nat, op: OperationId)
    requires n <= |steps| <= |run|
  {
    forall k :: 0 <= k < n ==> !SilentListing(run[k], steps[k], op)
  }

  /** An unknown outcome has the same list in memory and on disk. */
  predicate ListsAgree(w: World, op: OperationId) {
    w.up && w.mem.Some? && w.mem.value.op == op && w.mem.value.phase == L.Unknown ==>
      && w.upper.Some? && w.upper.value.op == op
      && w.upper.value.candidates == w.mem.value.candidates && w.upper.value.complete == w.mem.value.complete
  }

  lemma ListsAgreeRestart(w: World, step: RestartStep, op: OperationId)
    requires Inv(w) && RestartEnabled(w, step) && ListsAgree(w, op)
    ensures ListsAgree(ApplyRestart(w, step), op)
  {
    hide L.WellFormed, S.WellFormed, Distinct, L.Shaped, Agrees, Counted;
  }

  lemma ListsAgreeSubmit(w: World, step: SubmitStep, op: OperationId)
    requires SubmitEnabled(w, step) && ListsAgree(w, op)
    ensures ListsAgree(ApplySubmit(w, step), op)
  {
  }

  lemma ListsAgreeOperation(w: World, step: OperationStep, op: OperationId)
    requires Inv(w) && OperationEnabled(w, step) && ListsAgree(w, op) && !SilentListing(w, Operation(step), op)
    ensures ListsAgree(ApplyOperation(w, step), op)
  {
    hide L.WellFormed, S.WellFormed, Distinct, Agrees, Counted, Classify, S.RecordReconciliation, S.RecordDecision,
      S.Recovered, Matches;
    match step
    case Finish(_) =>
    case ReconcileUpper(_) =>
    case ResolveUpper(_, _) =>
    case _ =>
  }

  lemma ListsAgreeStep(w: World, step: Step, op: OperationId)
    requires Inv(w) && Enabled(w, step) && ListsAgree(w, op) && !SilentListing(w, step, op)
    ensures ListsAgree(Apply(w, step), op)
  {
    hide Inv, ListsAgree, SilentListing, RestartEnabled, SubmitEnabled, OperationEnabled, ApplyRestart, ApplySubmit,
      ApplyOperation;
    match step
    case Restarting(r) => ListsAgreeRestart(w, r, op);
    case Submit(s) => ListsAgreeSubmit(w, s, op);
    case Operation(o) => ListsAgreeOperation(w, o, op);
  }

  lemma NothingListedAtFirst(run: seq<World>, steps: seq<Step>, op: OperationId)
    requires IsRun(run, steps)
    ensures ListsAgree(run[0], op)
  {
    hide Enabled, Apply;
  }

  lemma {:induction false} ListsAgreeAlways(run: seq<World>, steps: seq<Step>, n: nat, op: OperationId)
    requires IsRun(run, steps) && n <= |steps| && NoSilentListing(run, steps, n, op)
    ensures ListsAgree(run[n], op)
  {
    hide Inv, Enabled, Apply, ListsAgree, SilentListing;
    if n == 0 {
      NothingListedAtFirst(run, steps, op);
    } else {
      ListsAgreeAlways(run, steps, n - 1, op);
      InvAlways(run, steps, n - 1);
      StepOfRun(run, steps, n - 1);
      hide IsRun;
      ListsAgreeStep(run[n - 1], steps[n - 1], op);
    }
  }

  // ----- from the decision on

  /** The step that records the adoption of `task` by `op` below. */
  predicate Decides(w: World, step: Step, op: OperationId, task: TaskId) {
    && step.Operation? && step.operation.ResolveLower? && step.operation.decision == AdoptListedTask(task)
    && !step.operation.write.NotWritten? && w.mem.Some? && w.mem.value.op == op
  }

  /** A projection write that stores what memory says. */
  predicate Rewrites(step: Step) {
    step.Operation? &&
    match step.operation
    case Inspect(_, write) => !write.NotWritten?
    case CancelPending(write) => !write.NotWritten?
    case ResolveUpper(_, write) => !write.NotWritten?
    case _ => false
  }

  predicate CrashedIn(steps: seq<Step>, n: nat, m: nat)
    requires m <= |steps|
  {
    exists k :: n < k < m && steps[k] == Restarting(Crash)
  }

  /** Memory was stored after the decision and before any crash. */
  predicate WrittenBack(steps: seq<Step>, n: nat, m: nat)
    requires m <= |steps|
  {
    exists k :: n < k < m && Rewrites(steps[k]) && !CrashedIn(steps, n, k)
  }

  /** How an adopted operation stands: listed on disk or not, before or after the first crash. */
  predicate Aftermath(w: World, op: OperationId, task: TaskId, listed: bool, crashed: bool) {
    && Adopted(w, op, task) && w.upper.Some? && w.upper.value.op == op
    && (Lists(w.upper.value, task) <==> listed)
    && (w.up ==> w.mem.Some? && w.mem.value.op == op && (Lists(w.mem.value, task) <==> listed || !crashed))
    && (!crashed ==> w.up)
    && (crashed && w.up ==> w.mem.value.phase != L.Unknown)
  }

  lemma DecisionStarts(w: World, step: Step, op: OperationId, task: TaskId)
    requires Inv(w) && Enabled(w, step) && Decides(w, step, op, task)
    ensures w.upper.Some? && Aftermath(Apply(w, step), op, task, Lists(w.upper.value, task), false)
  {
    hide L.WellFormed, Distinct, L.Shaped, L.RecordStatus, L.RecordReconciliation, L.Append, Classify;
    S.DecisionCapacity(w.ground.lower.value, step.operation.decision);
  }

  /** The adoption below is final while the projection is its own. */
  lemma AdoptionStays(w: World, step: Step, op: OperationId, task: TaskId)
    requires Inv(w) && Enabled(w, step) && Adopted(w, op, task) && w.upper.Some? && w.upper.value.op == op
    ensures Apply(w, step).ground == w.ground
  {
    hide L.WellFormed, S.WellFormed, Distinct, L.Shaped, Counted, L.RecordStatus, L.RecordReconciliation, L.Append,
      L.RecordCanceledWithTask, RecordResult, RecordProjection, Classify, Repaired, S.RecordReconciliation, S.Append,
      DecisionAllowed, SoundIfAny;
  }

  lemma AftermathRestart(w: World, step: RestartStep, op: OperationId, task: TaskId, listed: bool, crashed: bool)
    requires Inv(w) && RestartEnabled(w, step) && Aftermath(w, op, task, listed, crashed)
    requires ApplyRestart(w, step).ground == w.ground
    ensures Aftermath(ApplyRestart(w, step), op, task, listed, crashed || step == Crash)
  {
    hide L.WellFormed, S.WellFormed, Distinct, L.Shaped, Agrees, Counted, Inv, Matches;
  }

  lemma AftermathOperation(w: World, step: OperationStep, op: OperationId, task: TaskId, listed: bool, crashed: bool)
    requires OperationEnabled(w, step) && Aftermath(w, op, task, listed, crashed)
    requires !w.flight.IsSubmit() && !w.flight.Reconciled?
    requires !SupersedesProjection(Operation(step)) && ApplyOperation(w, step).ground == w.ground
    ensures Aftermath(ApplyOperation(w, step), op, task, listed || (!crashed && Rewrites(Operation(step))), crashed)
  {
    hide Distinct, Matches, Classify, DecisionAllowed, S.RecordReconciliation, S.RecordDecision, S.Recovered;
  }

  lemma AftermathRestarting(w: World, step: RestartStep, op: OperationId, task: TaskId, listed: bool, crashed: bool)
    requires Inv(w) && Enabled(w, Restarting(step)) && Aftermath(w, op, task, listed, crashed)
    requires Apply(w, Restarting(step)).ground == w.ground
    ensures Aftermath(Apply(w, Restarting(step)), op, task, listed || (!crashed && Rewrites(Restarting(step))),
                      crashed || Restarting(step) == Restarting(Crash))
  {
    hide Inv, RestartEnabled, ApplyRestart, Aftermath;
    AftermathRestart(w, step, op, task, listed, crashed);
  }

  /** Once its outcome was adopted, no submit runs and no listing is half written. */
  lemma AdoptedIsIdle(w: World, op: OperationId, task: TaskId)
    requires Inv(w) && Adopted(w, op, task) && w.upper.Some? && w.upper.value.op == op
    ensures !w.flight.IsSubmit() && !w.flight.Reconciled?
  {
    hide L.WellFormed, S.WellFormed, Distinct, L.Shaped, Counted, SoundIfAny;
  }

  lemma AftermathOperating(w: World, step: OperationStep, op: OperationId, task: TaskId, listed: bool, crashed: bool)
    requires Inv(w) && Enabled(w, Operation(step)) && Aftermath(w, op, task, listed, crashed)
    requires !SupersedesProjection(Operation(step)) && Apply(w, Operation(step)).ground == w.ground
    ensures Aftermath(Apply(w, Operation(step)), op, task, listed || (!crashed && Rewrites(Operation(step))), crashed)
  {
    hide Inv, OperationEnabled, ApplyOperation, Aftermath;
    AftermathOwns(w, op, task, listed, crashed);
    AdoptedIsIdle(w, op, task);
    AftermathOperation(w, step, op, task, listed, crashed);
  }

  lemma NoSubmit(w: World, step: SubmitStep)
    requires !w.flight.IsSubmit()
    ensures !Enabled(w, Submit(step))
  {
  }

  lemma AftermathStep(w: World, step: Step, op: OperationId, task: TaskId, listed: bool, crashed: bool)
    requires Inv(w) && Enabled(w, step) && Aftermath(w, op, task, listed, crashed) && !SupersedesProjection(step)
    ensures Aftermath(Apply(w, step), op, task, listed || (!crashed && Rewrites(step)),
                      crashed || step == Restarting(Crash))
  {
    hide Inv, Enabled, Apply, Aftermath, Rewrites, SupersedesProjection;
    AftermathOwns(w, op, task, listed, crashed);
    AdoptedIsIdle(w, op, task);
    AdoptionStays(w, step, op, task);
    match step
    case Restarting(r) => AftermathRestarting(w, r, op, task, listed, crashed);
    case Submit(s) => NoSubmit(w, s);
    case Operation(o) => AftermathOperating(w, o, op, task, listed, crashed);
  }

  lemma CrashedUpTo(steps: seq<Step>, n: nat, m: nat)
    requires n + 1 < m <= |steps|
    ensures CrashedIn(steps, n, m) <==> CrashedIn(steps, n, m - 1) || steps[m - 1] == Restarting(Crash)
  {
  }

  lemma WrittenUpTo(steps: seq<Step>, n: nat, m: nat)
    requires n + 1 < m <= |steps|
    ensures WrittenBack(steps, n, m) <==>
            WrittenBack(steps, n, m - 1) || (!CrashedIn(steps, n, m - 1) && Rewrites(steps[m - 1]))
  {
    hide CrashedIn, Rewrites;
  }

  predicate Superseded(w: World, op: OperationId) { w.upper.Some? && w.upper.value.op != op && op in w.issued }

  lemma SupersedingSupersedes(w: World, step: Step, op: OperationId)
    requires Inv(w) && Enabled(w, step) && SupersedesProjection(step) && w.upper.Some? && w.upper.value.op == op
    ensures Superseded(Apply(w, step), op)
  {
  }

  predicate After(run: seq<World>, steps: seq<Step>, n: nat, m: nat, op: OperationId, task: TaskId)
    requires n < m <= |steps| <= |run| - 1
  {
    run[n].upper.Some? &&
    (|| Superseded(run[m], op)
     || Aftermath(run[m], op, task,
                  Lists(run[n].upper.value, task) || WrittenBack(steps, n, m), CrashedIn(steps, n, m)))
  }

  lemma {:induction false} AftermathRun(run: seq<World>, steps: seq<Step>, n: nat, m: nat, op: OperationId,
                                        task: TaskId)
    requires IsRun(run, steps) && n < m <= |steps| && Decides(run[n], steps[n], op, task)
    ensures After(run, steps, n, m, op, task)
    decreases m
  {
    hide Inv, Enabled, Apply, Aftermath, Lists, Decides, Rewrites, SupersedesProjection;
    InvAlways(run, steps, m - 1);
    StepOfRun(run, steps, m - 1);
    if m == n + 1 {
      DecisionStarts(run[n], steps[n], op, task);
    } else {
      AftermathRun(run, steps, n, m - 1, op, task);
      hide IsRun;
      var w, step := run[m - 1], steps[m - 1];
      CrashedUpTo(steps, n, m);
      WrittenUpTo(steps, n, m);
      if Superseded(w, op) {
        SupersededStays(w, step, op);
      } else if SupersedesProjection(step) {
        AftermathOwns(w, op, task,
                      Lists(run[n].upper.value, task) || WrittenBack(steps, n, m - 1), CrashedIn(steps, n, m - 1));
        SupersedingSupersedes(w, step, op);
      } else {
        AftermathStep(w, step, op, task, Lists(run[n].upper.value, task) || WrittenBack(steps, n, m - 1),
                      CrashedIn(steps, n, m - 1));
      }
    }
  }

  lemma AftermathOwns(w: World, op: OperationId, task: TaskId, listed: bool, crashed: bool)
    requires Aftermath(w, op, task, listed, crashed)
    ensures w.upper.Some? && w.upper.value.op == op && (Lists(w.upper.value, task) <==> listed) && Adopted(w, op, task)
  {
  }

  lemma OnlyDecisionsAdopt(w: World, step: Step, op: OperationId, task: TaskId)
    requires Inv(w) && Enabled(w, step) && Adopted(Apply(w, step), op, task) && !Adopted(w, op, task)
    ensures Decides(w, step, op, task)
  {
    hide Inv, Classify, Repaired, OperationEnabled, ApplyOperation, SubmitEnabled, ApplySubmit;
    match step
    case Restarting(r) =>
    case Submit(s) => SubmitAdoptsNothing(w, s, op, task);
    case Operation(o) => OperationAdopts(w, o, op, task);
  }

  lemma OperationAdopts(w: World, step: OperationStep, op: OperationId, task: TaskId)
    requires OperationEnabled(w, step) && Adopted(ApplyOperation(w, step), op, task) && !Adopted(w, op, task)
    ensures Decides(w, Operation(step), op, task)
  {
    hide Classify, L.RecordReconciliation, L.RecordStatus, L.Append, L.RecordCanceledWithTask, RecordResult,
      RecordProjection, Distinct, S.RecordReconciliation, S.RecordDecision, S.Recovered;
    OperationWritesLower(w, step);
  }

  lemma SubmitAdoptsNothing(w: World, step: SubmitStep, op: OperationId, task: TaskId)
    requires SubmitEnabled(w, step) && Adopted(ApplySubmit(w, step), op, task)
    ensures Adopted(w, op, task)
  {
  }

  /** Every adoption on disk goes back to a decision of the run. */
  lemma {:induction false} AdoptionWasDecided(run: seq<World>, steps: seq<Step>, m: nat, op: OperationId, task: TaskId)
    returns (n: nat)
    requires IsRun(run, steps) && m <= |steps| && Adopted(run[m], op, task)
    ensures n < m && Decides(run[n], steps[n], op, task)
  {
    hide Inv, Enabled, Apply, Adopted, Decides;
    NothingAdoptedAtFirst(run, steps, op, task);
    n := m - 1;
    StepOfRun(run, steps, n);
    InvAlways(run, steps, n);
    if Adopted(run[n], op, task) {
      n := AdoptionWasDecided(run, steps, n, op, task);
    } else {
      hide IsRun;
      OnlyDecisionsAdopt(run[n], steps[n], op, task);
    }
  }

  lemma NothingAdoptedAtFirst(run: seq<World>, steps: seq<Step>, op: OperationId, task: TaskId)
    requires IsRun(run, steps)
    ensures !Adopted(run[0], op, task)
  {
    hide Enabled, Apply;
  }

  /**
   * When the projection on disk names the adopted task: exactly if it did so when the decision was
   * recorded below, or if memory, which did, was stored since then and before any crash.
   */
  lemma AdoptedTaskListedExactly(run: seq<World>, steps: seq<Step>, m: nat, op: OperationId, task: TaskId)
    returns (n: nat)
    requires IsRun(run, steps) && m <= |steps| && Adopted(run[m], op, task)
    requires run[m].upper.Some? && run[m].upper.value.op == op
    ensures n < m && Decides(run[n], steps[n], op, task) && run[n].upper.Some?
    ensures Lists(run[m].upper.value, task) <==>
            Lists(run[n].upper.value, task) || WrittenBack(steps, n, m)
  {
    n := AdoptionWasDecided(run, steps, m, op, task);
    AftermathRun(run, steps, n, m, op, task);
  }

  /**
   * If no listing of the operation was stored and reported as failed, an adopted task is in the
   * complete list of the projection on disk and in the list of the submit ledger.
   */
  lemma AdoptedTaskIsListed(run: seq<World>, steps: seq<Step>, m: nat, op: OperationId, task: TaskId)
    requires IsRun(run, steps) && m <= |steps| && Adopted(run[m], op, task)
    requires run[m].upper.Some? && run[m].upper.value.op == op
    requires NoSilentListing(run, steps, m, op)
    ensures Lists(run[m].upper.value, task) && task in run[m].ground.lower.value.candidates
  {
    var n := AdoptedTaskListedExactly(run, steps, m, op, task);
    ListsAgreeAlways(run, steps, n, op);
    StepOfRun(run, steps, n);
    InvAlways(run, steps, m);
    hide IsRun, L.WellFormed, Distinct;
  }

  /** While the outcome is unknown in memory, memory names the task that was adopted below. */
  lemma MemoryListsAdopted(run: seq<World>, steps: seq<Step>, n: nat, task: TaskId)
    requires IsRun(run, steps) && n <= |steps| && run[n].up && MemIs(run[n], L.Unknown)
    requires Adopted(run[n], run[n].mem.value.op, task)
    ensures Lists(run[n].mem.value, task)
  {
    var op := run[n].mem.value.op;
    InvAlways(run, steps, n);
    assert run[n].upper.Some? && run[n].upper.value.op == op;
    hide Inv;
    var k := AdoptionWasDecided(run, steps, n, op, task);
    AftermathRun(run, steps, k, n, op, task);
  }

  lemma DecisionIsFinalAt(w: World, decision: Decision, write: Write)
    requires Inv(w) && Open(w) && MemIs(w, L.Unknown) && OwnsDecision(w.ground, w.mem.value.op)
    requires decision.AdoptListedTask? && AlreadyDecided(w.ground.lower.value, decision) ==>
               Lists(w.mem.value, decision.task)
    ensures !OperationEnabled(w, ResolveLower(decision, write))
    ensures forall tasks, complete :: !OperationEnabled(w, ReconcileLower(tasks, complete, write))
    ensures OperationEnabled(w, ResolveReplay(decision)) <==>
            && AlreadyDecided(w.ground.lower.value, decision)
            && (decision.AbandonAfterReconciliation? ==> decision.acknowledged == w.mem.value.op)
  {
    hide L.WellFormed, S.WellFormed, Distinct, L.Shaped, S.RecordReconciliation, S.Append, L.RecordReconciliation,
      L.RecordStatus, L.Append, Classify;
  }

  /**
   * A decision below is final: no other decision and no listing is possible, and its replay is
   * enabled while no other decision's is.
   */
  lemma DecisionIsFinal(run: seq<World>, steps: seq<Step>, n: nat, decision: Decision, write: Write)
    requires IsRun(run, steps) && n <= |steps| && Open(run[n]) && MemIs(run[n], L.Unknown)
    requires OwnsDecision(run[n].ground, run[n].mem.value.op)
    ensures !OperationEnabled(run[n], ResolveLower(decision, write))
    ensures forall tasks, complete :: !OperationEnabled(run[n], ReconcileLower(tasks, complete, write))
    ensures OperationEnabled(run[n], ResolveReplay(decision)) <==>
            && AlreadyDecided(run[n].ground.lower.value, decision)
            && (decision.AbandonAfterReconciliation? ==> decision.acknowledged == run[n].mem.value.op)
  {
    hide Inv, Enabled, Apply;
    InvAlways(run, steps, n);
    if decision.AdoptListedTask? && AlreadyDecided(run[n].ground.lower.value, decision) {
      MemoryListsAdopted(run, steps, n, decision.task);
    }
    DecisionIsFinalAt(run[n], decision, write);
  }

  /** A run that adopts a task the projection on disk does not name: two listings were stored only in part. */
  lemma UnlistedAdoptionReachable(config: Config, task: TaskId) returns (run: seq<World>, steps: seq<Step>)
    ensures IsRun(run, steps) && run[|steps|].upper.Some?
    ensures Adopted(run[|steps|], run[|steps|].upper.value.op, task) && !Lists(run[|steps|].upper.value, task)
  {
    run, steps := UnknownReachable(config);
    run, steps := ListOnce(run, steps, 3, [task], Durable);
    run, steps := ListOnce(run, steps, 4, [], WrittenButFailed);
    run, steps := ListOnce(run, steps, 5, [task], NotWritten);
    hide Enabled, Apply;
    InvAlways(run, steps, |steps|);
    AdoptStep(run[|steps|], task);
    run, steps := Extend(run, steps, Operation(ResolveLower(AdoptListedTask(task), Durable)));
  }

  lemma AdoptStep(w: World, task: TaskId)
    requires Inv(w) && w.up && Matches(w) && w.flight.Idle? && w.mem.Some? && w.mem.value.phase == L.Unknown
    requires w.mem.value.generation > 0 && Lists(w.mem.value, task)
    requires OwnsAt(w.ground, w.mem.value.op, S.ReconciliationObserved)
    requires |w.ground.lower.value.history| < S.MAX_HISTORY && task in w.ground.lower.value.candidates
    ensures var step := Operation(ResolveLower(AdoptListedTask(task), Durable));
            && Enabled(w, step) && Adopted(Apply(w, step), w.mem.value.op, task)
            && Apply(w, step).upper == w.upper
  {
    S.DecisionCapacity(w.ground.lower.value, AdoptListedTask(task));
    hide Inv, S.RecordDecision;
  }
}
