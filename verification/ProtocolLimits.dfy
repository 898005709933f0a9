/**
 * Where the protocol stops being live: two families of worlds from which no operation settles,
 * supersedes or repeats the submit, and how they are reached.
 */
module ProtocolLimits {
  import opened CloudTypes
  import S = SubmitLedger
  import L = LifecycleLedger
  import opened SubmitProtocol
  import opened ProtocolInvariant

  // ----- a submit that failed before its spawn but was left authorized

  /** The projection says the submit failed, while its ledger still says it may have run. */
  predicate Stranded(w: World, u: L.LifecycleState) {
    && u.phase == L.FailedBeforeSubmit
    && (OwnsAt(w.ground, u.op, S.Authorized) || OwnsAt(w.ground, u.op, S.Unknown))
    && w.upper == Some(u) && (w.up ==> w.mem == Some(u))
  }

  /** No step leaves a stranded world: nothing is ever executed again. */
  lemma StrandedIsForever(w: World, step: Step, u: L.LifecycleState)
    requires Inv(w) && Stranded(w, u) && Enabled(w, step)
    ensures Stranded(Apply(w, step), u)
    ensures Apply(w, step).ground.execs == w.ground.execs
  {
    hide L.WellFormed, S.WellFormed, Distinct, L.Shaped, Counted, L.RecordStatus, L.RecordReconciliation, L.Append,
      S.RecordReconciliation, S.RecordDecision, S.Append, ApplyOperation;
    if step.Operation? {
      OperationWritesUpper(w, step.operation);
      OperationWritesLower(w, step.operation);
      OperationLeaves(w, step.operation);
    }
  }

  /**
   * Exactly two write outcomes strand a submit: the `Authorized` record arrived although its write
   * reported an error, or the withdrawal of an `Authorized` record did not arrive.
   */
  lemma StrandedExactly(w: World, step: SubmitStep)
    requires Inv(w) && SubmitEnabled(w, step)
    requires ApplySubmit(w, step).flight == Returned(w.flight.op, SubmitFailed)
    ensures var g := ApplySubmit(w, step).ground;
            (OwnsAt(g, w.flight.op, S.Authorized) || OwnsAt(g, w.flight.op, S.Unknown)) <==>
              || step == WriteAuthorized(WrittenButFailed)
              || (LocalAt(w, S.Authorized) && step == WriteFailedBeforeSpawn(false, NotWritten))
  {
    hide L.WellFormed, S.WellFormed, Distinct, SoundIfAny, MemLinked;
    if w.flight.ledger.Some? {
      S.LatestFixesShape(w.flight.ledger.value);
    }
  }

  /** A first submit that has written its intent. */
  lemma IntentReachable(config: Config) returns (run: seq<World>, steps: seq<Step>)
    ensures IsRun(run, steps)
    ensures run[|steps|] ==
              World(config, Ground(Some(S.NewSubmit(1, config)), [], false), Some(L.NewSubmitting(1)), true,
                    Some(L.NewSubmitting(1)), Running(1, Some(S.NewSubmit(1, config)), false, false), {1})
  {
    var w0 := World(config, Ground(None, [], false), None, false, None, Idle, {});
    run, steps := [w0], [];
    run, steps := Extend(run, steps, Restarting(Load));
    run, steps := Extend(run, steps, Operation(Begin(1, Durable)));
    run, steps := Extend(run, steps, Submit(WriteIntent(Durable)));
  }

  /** A run that ends stranded: one submit-ledger write reports an error after taking effect. */
  lemma StrandedReachable(config: Config) returns (run: seq<World>, steps: seq<Step>)
    ensures IsRun(run, steps)
    ensures run[|steps|].upper.Some? && Stranded(run[|steps|], run[|steps|].upper.value)
    ensures run[|steps|].ground.execs == []
  {
    run, steps := IntentReachable(config);
    run, steps := Extend(run, steps, Submit(WriteAuthorized(WrittenButFailed)));
    run, steps := Extend(run, steps, Operation(Finish(Durable)));
  }

  lemma Extend(run: seq<World>, steps: seq<Step>, step: Step) returns (run': seq<World>, steps': seq<Step>)
    requires IsRun(run, steps) && Enabled(run[|steps|], step)
    ensures IsRun(run', steps') && |steps'| == |steps| + 1
    ensures run'[|steps'|] == Apply(run[|steps|], step)
    ensures run <= run' && steps <= steps'
  {
    hide Enabled, Apply;
    run', steps' := run + [Apply(run[|steps|], step)], steps + [step];
  }

  // ----- an unknown outcome whose ledger has no entry left

  predicate Exhausted(w: World, op: OperationId) {
    && Owns(w.ground, op) && w.ground.lower.value.Latest().IsUnknown()
    && |w.ground.lower.value.history| == S.MAX_HISTORY
    && w.upper.Some? && w.upper.value.op == op && w.upper.value.phase == L.Unknown
    && (w.up ==> w.mem.Some? && w.mem.value.op == op && w.mem.value.phase == L.Unknown)
  }

  /**
   * Once the history is full the outcome stays unknown for good: the submit ledger never changes
   * again, so nothing is adopted, abandoned, reconciled or started.
   */
  lemma ExhaustedIsForever(w: World, step: Step, op: OperationId)
    requires Inv(w) && Exhausted(w, op) && Enabled(w, step)
    ensures Exhausted(Apply(w, step), op)
    ensures Apply(w, step).ground == w.ground
  {
    hide L.WellFormed, S.WellFormed, Distinct, L.Shaped, Counted, L.RecordStatus, L.RecordReconciliation, L.Append,
      L.RecordCanceledWithTask, S.RecordReconciliation, S.RecordDecision, S.Append;
    S.FullHistoryIsStuck(w.ground.lower.value);
    if step.Restarting? && step.restart.Repair? {
      RepairedSound(w.ground, w.upper.value);
    } else if step.Operation? {
      OperationWritesUpper(w, step.operation);
      OperationLeaves(w, step.operation);
    }
  }

  /** A world at rest with an unknown outcome. */
  predicate Awaits(w: World, entries: nat) {
    && w.up && Matches(w) && w.flight.Idle? && w.mem.Some?
    && w.mem.value.phase == L.Unknown && Owns(w.ground, w.mem.value.op)
    && w.ground.lower.value.Latest().IsUnknown() && |w.ground.lower.value.history| == entries
    && w.mem.value.generation < entries
  }

  /** A world between the two writes of a listing. */
  predicate Listing(w: World, v: World, entries: nat, tasks: seq<TaskId>) {
    && Awaits(w, entries) && |tasks| <= 1
    && v == w.(ground := v.ground, flight := Reconciled(tasks, true)) && Matches(v)
    && Owns(v.ground, w.mem.value.op) && v.ground.lower.value.Latest() == S.ReconciliationObserved
    && v.ground.lower.value.candidates == tasks && |v.ground.lower.value.history| == entries + 1
  }

  lemma ListStep(w: World, entries: nat, tasks: seq<TaskId>) returns (v: World)
    requires Awaits(w, entries) && entries < S.MAX_HISTORY && |tasks| <= 1
    ensures Enabled(w, Operation(ReconcileLower(tasks, true, Durable)))
    ensures v == Apply(w, Operation(ReconcileLower(tasks, true, Durable))) && Listing(w, v, entries, tasks)
  {
    v := Apply(w, Operation(ReconcileLower(tasks, true, Durable)));
  }

  lemma ListProjected(w: World, v: World, entries: nat, tasks: seq<TaskId>, write: Write)
    requires Listing(w, v, entries, tasks) && entries < S.MAX_HISTORY
    ensures Enabled(v, Operation(ReconcileUpper(write)))
    ensures var d := Apply(v, Operation(ReconcileUpper(write)));
            var u := L.RecordReconciliation(w.mem.value, tasks, true).state;
            && Awaits(d, entries + 1) && d.ground == v.ground
            && d.ground.lower.value.candidates == tasks && d.ground.lower.value.Latest() == S.ReconciliationObserved
            && w.mem.Some? && d.mem == (if write.Durable? then Some(u) else w.mem)
            && d.upper == Stored(w.upper, Some(u), write)
  {
  }

  /** One more listing of the same unknown outcome, whatever its projection's write does. */
  lemma ListOnce(run: seq<World>, steps: seq<Step>, entries: nat, tasks: seq<TaskId>, write: Write)
    returns (run': seq<World>, steps': seq<Step>)
    requires IsRun(run, steps) && Awaits(run[|steps|], entries) && entries < S.MAX_HISTORY && |tasks| <= 1
    ensures IsRun(run', steps') && Awaits(run'[|steps'|], entries + 1)
    ensures run'[|steps'|].ground.lower.value.candidates == tasks
    ensures run'[|steps'|].ground.lower.value.Latest() == S.ReconciliationObserved
    ensures var listed := L.RecordReconciliation(run[|steps|].mem.value, tasks, true).state;
            && run'[|steps'|].mem == (if write.Durable? then Some(listed) else run[|steps|].mem)
            && run'[|steps'|].upper == Stored(run[|steps|].upper, Some(listed), write)
  {
    hide Enabled, Apply, Awaits;
    var w := run[|steps|];
    var listed := ListStep(w, entries, tasks);
    run', steps' := Extend(run, steps, Operation(ReconcileLower(tasks, true, Durable)));
    ListProjected(w, listed, entries, tasks, write);
    run', steps' := Extend(run', steps', Operation(ReconcileUpper(write)));
  }

  /** The same with memory and disk agreeing. */
  predicate AwaitsDecision(w: World, entries: nat) { Awaits(w, entries) && w.upper == w.mem }

  lemma {:induction false} ReconcileTo(run: seq<World>, steps: seq<Step>, entries: nat, target: nat, write: Write)
    returns (run': seq<World>, steps': seq<Step>)
    requires IsRun(run, steps) && AwaitsDecision(run[|steps|], entries) && !write.WrittenButFailed?
    requires 3 <= entries <= target <= S.MAX_HISTORY
    ensures IsRun(run', steps') && AwaitsDecision(run'[|steps'|], target)
    ensures write.NotWritten? ==> run'[|steps'|].mem == run[|steps|].mem
    ensures entries < target ==> run'[|steps'|].ground.lower.value.Latest() == S.ReconciliationObserved
    decreases target - entries
  {
    run', steps' := run, steps;
    if entries < target {
      run', steps' := ReconcileTo(run, steps, entries, target - 1, write);
      run', steps' := ListOnce(run', steps', target - 1, [], write);
    }
  }

  lemma UnknownReachable(config: Config) returns (run: seq<World>, steps: seq<Step>)
    ensures IsRun(run, steps) && AwaitsDecision(run[|steps|], 3) && run[|steps|].mem.value.generation == 0
    ensures run[|steps|].config == config
  {
    run, steps := IntentReachable(config);
    run, steps := Extend(run, steps, Submit(WriteAuthorized(Durable)));
    run, steps := Extend(run, steps, Submit(WriteUnknown(Durable)));
    run, steps := Extend(run, steps, Operation(Finish(Durable)));
  }

  /** A run that exhausts a ledger, with every write taking effect. */
  lemma ExhaustedReachable(config: Config) returns (run: seq<World>, steps: seq<Step>)
    ensures IsRun(run, steps) && run[|steps|].up && run[|steps|].mem.Some?
    ensures Exhausted(run[|steps|], run[|steps|].mem.value.op)
  {
    run, steps := UnknownReachable(config);
    run, steps := ReconcileTo(run, steps, 3, S.MAX_HISTORY, Durable);
  }
}
