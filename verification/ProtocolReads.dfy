/**
 * Which provider read a projection goes back to: over every run, a task that is shown as ready,
 * applied or failed was last read so, and a diff authority is minted only for the first two.
 */
module ProtocolReads {
  import opened CloudTypes
  import S = SubmitLedger
  import L = LifecycleLedger
  import opened SubmitProtocol
  import opened ProtocolInvariant
  import opened ProtocolTheorems

  /** The step stores a provider status of `op`, whether or not its write reports an error. */
  predicate StoresRead(w: World, step: Step, op: OperationId) {
    step.Operation? && w.mem.Some? && w.mem.value.op == op &&
    match step.operation
    case Inspect(_, write) => !write.NotWritten?
    case ResolveUpper(_, write) => !write.NotWritten? && w.flight.Resolved? && w.flight.decision.AdoptListedTask?
    case _ => false
  }

  /** The last status of `op` that was stored before world `n`. */
  function LastRead(run: seq<World>, steps: seq<Step>, n: nat, op: OperationId): Option<TaskStatus>
    requires n <= |steps| <= |run|
  {
    if n == 0 then None
    else if StoresRead(run[n - 1], steps[n - 1], op) then Some(steps[n - 1].operation.status)
    else LastRead(run, steps, n - 1, op)
  }

  /** A phase that only the provider can put a task in. */
  predicate Concluded(phase: L.Phase) { phase.Ready? || phase.Applied? || phase.ProviderError? }

  lemma InspectShows(w: World, status: TaskStatus, write: Write)
    requires Inv(w) && OperationEnabled(w, Inspect(status, write))
    ensures w.mem.Some?
    ensures var d := ApplyOperation(w, Inspect(status, write));
            if write.NotWritten? then d.upper == w.upper
            else d.upper.Some? && d.upper.value.op == w.mem.value.op && L.Tells(status, d.upper.value.phase)
  {
    hide L.WellFormed, S.WellFormed, Distinct, Agrees, Counted, L.RecordStatus, L.Shaped, GroundSound, AllIssued,
      MemLinked, FlightSound;
    L.StatusShaped(w.mem.value, w.mem.value.task.value, status);
  }

  lemma ResolutionShows(w: World, status: TaskStatus, write: Write)
    requires Inv(w) && OperationEnabled(w, ResolveUpper(status, write))
    ensures var d := ApplyOperation(w, ResolveUpper(status, write));
            if write.NotWritten? then d.upper == w.upper
            else
              && d.upper.Some? && d.upper.value.op == w.mem.value.op
              && if w.flight.decision.AdoptListedTask? then L.Tells(status, d.upper.value.phase)
                 else d.upper.value.phase == L.AbandonedUnknown
  {
    hide L.WellFormed, S.WellFormed, Distinct, Agrees, Counted, L.RecordStatus, L.Append;
    match w.flight.decision
    case AdoptListedTask(task) => L.StatusShaped(w.mem.value, task, status);
    case AbandonAfterReconciliation(_) => L.AppendShaped(w.mem.value, L.AbandonedUnknown);
  }

  /** No other operation puts a task in such a phase. */
  lemma OtherOperationConcludesNothing(w: World, step: OperationStep)
    requires OperationEnabled(w, step) && !step.Inspect? && !step.ResolveUpper?
    ensures var d := ApplyOperation(w, step);
            d.upper == w.upper || (d.upper.Some? && !Concluded(d.upper.value.phase))
  {
    hide Classify, S.RecordReconciliation, S.RecordDecision, S.Recovered, Distinct, Matches;
  }

  lemma RestartConcludesNothing(w: World, step: RestartStep)
    requires RestartEnabled(w, step)
    ensures var d := ApplyRestart(w, step);
            d.upper == w.upper || (d.upper.Some? && !Concluded(d.upper.value.phase))
  {
    hide Classify, S.Recovered, Matches;
  }

  lemma StepConcludes(w: World, step: Step, op: OperationId)
    requires Inv(w) && Enabled(w, step)
    ensures var d := Apply(w, step);
            d.upper.Some? && d.upper.value.op == op && Concluded(d.upper.value.phase) ==>
              if StoresRead(w, step, op) then L.Tells(step.operation.status, d.upper.value.phase)
              else d.upper == w.upper
  {
    hide Inv, OperationEnabled, ApplyOperation, RestartEnabled, ApplyRestart;
    match step
    case Restarting(r) => RestartConcludesNothing(w, r);
    case Submit(s) =>
    case Operation(o) =>
      match o
      case Inspect(status, write) => InspectShows(w, status, write);
      case ResolveUpper(status, write) => InvOfResolved(w, status, write); ResolutionShows(w, status, write);
      case _ => OtherOperationConcludesNothing(w, o);
  }

  lemma InvOfResolved(w: World, status: TaskStatus, write: Write)
    requires OperationEnabled(w, ResolveUpper(status, write))
    ensures w.flight.Resolved? && w.mem.Some?
  {
    hide RecordProjection;
  }

  /** A concluded projection shows exactly the last status that was stored for its operation. */
  lemma {:induction false} ShowsLastRead(run: seq<World>, steps: seq<Step>, n: nat, op: OperationId)
    requires IsRun(run, steps) && n <= |steps|
    requires run[n].upper.Some? && run[n].upper.value.op == op && Concluded(run[n].upper.value.phase)
    ensures LastRead(run, steps, n, op).Some? && L.Tells(LastRead(run, steps, n, op).value, run[n].upper.value.phase)
  {
    hide Inv, Enabled, Apply, StoresRead, Concluded;
    if n == 0 {
      NothingAtFirst(run, steps);
    } else {
      InvAlways(run, steps, n - 1);
      StepOfRun(run, steps, n - 1);
      StepConcludes(run[n - 1], steps[n - 1], op);
      if !StoresRead(run[n - 1], steps[n - 1], op) {
        ShowsLastRead(run, steps, n - 1, op);
      }
    }
  }

  lemma NothingAtFirst(run: seq<World>, steps: seq<Step>)
    requires IsRun(run, steps)
    ensures run[0].upper.None? && run[0].mem.None?
  {
    hide Enabled, Apply;
  }

  /** Memory is concluded because the disk is, or because it was already and no read was stored. */
  lemma MemoryConcludes(w: World, step: Step, op: OperationId)
    requires Inv(w) && Enabled(w, step)
    requires var m := Apply(w, step).mem; m.Some? && m.value.op == op && Concluded(m.value.phase)
    ensures Apply(w, step).mem == Apply(w, step).upper || (Apply(w, step).mem == w.mem && !StoresRead(w, step, op))
  {
    hide L.WellFormed, S.WellFormed, Distinct, SoundIfAny, MemLinked, GroundSound, AllIssued, ApplyOperation, Classify,
      Repaired;
    match step
    case Restarting(r) =>
    case Submit(s) =>
    case Operation(o) => OperationLeaves(w, o);
  }

  /** The same for a concluded projection in memory. */
  lemma {:induction false} MemoryShowsLastRead(run: seq<World>, steps: seq<Step>, n: nat, op: OperationId)
    requires IsRun(run, steps) && n <= |steps|
    requires run[n].mem.Some? && run[n].mem.value.op == op && Concluded(run[n].mem.value.phase)
    ensures LastRead(run, steps, n, op).Some? && L.Tells(LastRead(run, steps, n, op).value, run[n].mem.value.phase)
  {
    hide Inv, Enabled, Apply, StoresRead, Concluded;
    if run[n].mem == run[n].upper {
      ShowsLastRead(run, steps, n, op);
    } else if n == 0 {
      NothingAtFirst(run, steps);
    } else {
      InvAlways(run, steps, n - 1);
      StepOfRun(run, steps, n - 1);
      MemoryConcludes(run[n - 1], steps[n - 1], op);
      MemoryShowsLastRead(run, steps, n - 1, op);
    }
  }

  /**
   * A diff authority exists only for a task whose last stored status, over the whole run, was ready
   * or applied.
   */
  lemma MintedWasRead(run: seq<World>, steps: seq<Step>, n: nat)
    requires IsRun(run, steps) && n <= |steps| && Minted(run[n]).Some?
    ensures var last := LastRead(run, steps, n, Minted(run[n]).value.op);
            last == Some(ReadyStatus) || last == Some(AppliedStatus)
  {
    hide Enabled, Apply;
    MemoryShowsLastRead(run, steps, n, run[n].mem.value.op);
  }
}
