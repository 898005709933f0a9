/**
 * What the two-ledger protocol promises over whole runs, with a crash after any write and any
 * write failing.
 */
module ProtocolTheorems {
  import opened CloudTypes
  import S = SubmitLedger
  import L = LifecycleLedger
  import opened SubmitProtocol
  import opened ProtocolInvariant

  // ----- the durable projection fixes the durable submit ledger

  /**
   * Joint invariant. The last two clauses speak of runs in which no submit-ledger write reported
   * an error; that a failed submit was never executed needs no such assumption.
   */
  lemma JointInvariant(run: seq<World>, steps: seq<Step>, n: nat)
    requires IsRun(run, steps) && n <= |steps| && run[n].upper.Some?
    ensures var u, g := run[n].upper.value, run[n].ground;
            && (u.phase.RequiresTask() ==>
                  && Owns(g, u.op) && g.lower.value.task == u.task && u.task.Some?
                  && (g.lower.value.Latest() == S.TaskRecorded || g.lower.value.Latest() == S.TaskAdopted))
            && (u.phase == L.AbandonedUnknown ==> OwnsAt(g, u.op, S.ExplicitlyAbandoned))
            && (u.phase == L.CanceledLocally(false) ==> OwnsAt(g, u.op, S.FailedBeforeSpawn) && u.op !in g.execs)
            && (u.phase == L.FailedBeforeSubmit ==> u.op !in g.execs)
            && (!g.faulted && u.phase == L.Unknown ==>
                  Owns(g, u.op) && (g.lower.value.Latest().IsUnknown() || OwnsDecision(g, u.op)))
            && (!g.faulted && u.phase == L.FailedBeforeSubmit ==>
                  Free(g, u.op) || OwnsAt(g, u.op, S.FailedBeforeSpawn))
  {
    InvAlways(run, steps, n);
  }

  /** Every ledger a run puts on disk passes its own validation, and the upper one stays short. */
  lemma PersistedLedgersAreValid(run: seq<World>, steps: seq<Step>, n: nat)
    requires IsRun(run, steps) && n <= |steps|
    ensures run[n].ground.lower.Some? ==> S.WellFormed(run[n].ground.lower.value)
    ensures run[n].upper.Some? ==>
              var u := run[n].upper.value;
              L.WellFormed(u) && |u.history| <= 4 && u.generation <= S.MAX_HISTORY
  {
    InvAlways(run, steps, n);
  }

  // ----- the provider effect

  /** `cloud exec` is spawned only over a durable `Authorized` of the same, never executed, operation. */
  lemma ExecOnlyWhenAuthorized(run: seq<World>, steps: seq<Step>, i: nat)
    requires IsRun(run, steps) && i < |steps| && run[i + 1].ground.execs != run[i].ground.execs
    ensures run[i].ground.lower.Some? && run[i].flight.Running?
    ensures var s := run[i].ground.lower.value;
            && s.Latest() == S.Authorized && s.op == run[i].flight.op && s.op !in run[i].ground.execs
            && run[i + 1].ground == run[i].ground.(execs := run[i].ground.execs + [s.op])
  {
    InvAlways(run, steps, i);
    OnlySpawnExecutes(run[i], steps[i]);
  }

  lemma OnlySpawnExecutes(w: World, step: Step)
    requires Enabled(w, step) && Apply(w, step).ground.execs != w.ground.execs
    ensures step == Submit(Spawn)
  {
  }

  /** Outside `submit` the submit ledger never changes hands. */
  lemma OwnerKept(w: World, step: Step)
    requires Enabled(w, step) && w.ground.lower.Some? && !step.Submit?
    ensures Owns(Apply(w, step).ground, w.ground.lower.value.op)
  {
    match step
    case Restarting(r) =>
    case Operation(o) =>
      match o
      case ResolveLower(_, _) =>
      case _ =>
  }

  /** Only a submit ledger that permits it is replaced, and then its own exec is settled. */
  lemma SettledBeforeOverwritten(w: World, step: Step)
    requires Inv(w) && Enabled(w, step)
    requires w.ground.lower.Some? && !Owns(Apply(w, step).ground, w.ground.lower.value.op)
    ensures step.Submit? && step.submit.WriteIntent?
    ensures w.ground.lower.value.Latest().PermitsNewOperation()
    ensures w.ground.lower.value.op in w.ground.execs ==> w.ground.lower.value.Latest().IsSettled()
  {
    hide L.WellFormed, S.WellFormed, Distinct, RestartEnabled, OperationEnabled, ApplyRestart, ApplyOperation,
      SoundIfAny, MemLinked;
    if !step.Submit? {
      OwnerKept(w, step);
    }
  }

  predicate SettledAt(w: World, op: OperationId) {
    Owns(w.ground, op) && w.ground.lower.value.Latest().IsSettled()
  }

  predicate SettledBy(run: seq<World>, n: nat, op: OperationId)
    requires n < |run|
  {
    exists k :: 0 <= k <= n && SettledAt(run[k], op)
  }

  lemma {:induction false} ExecutedIsCurrentOrSettled(run: seq<World>, steps: seq<Step>, n: nat, op: OperationId)
    requires IsRun(run, steps) && n <= |steps| && op in run[n].ground.execs
    ensures Owns(run[n].ground, op) || SettledBy(run, n, op)
  {
    hide Inv, Enabled, Apply;
    if n > 0 {
      var w, step := run[n - 1], steps[n - 1];
      InvAlways(run, steps, n - 1);
      StepOfRun(run, steps, n - 1);
      if op in w.ground.execs {
        ExecutedIsCurrentOrSettled(run, steps, n - 1, op);
        if Owns(w.ground, op) && !Owns(run[n].ground, op) {
          SettledBeforeOverwritten(w, step);
          assert SettledAt(run[n - 1], op);
        }
      } else {
        ExecOnlyWhenAuthorized(run, steps, n - 1);
      }
    }
  }

  /**
   * Exec safety. Whenever a run spawns an exec, every operation executed before is a different
   * one and was settled at some earlier world; so no operation is ever executed twice.
   */
  lemma ExecsAreSettledAndNeverRepeat(run: seq<World>, steps: seq<Step>, n: nat)
    requires IsRun(run, steps) && n < |steps| && run[n + 1].ground.execs != run[n].ground.execs
    ensures forall op | op in run[n].ground.execs ::
              op != run[n].flight.op && SettledBy(run, n, op)
    ensures Distinct(run[n + 1].ground.execs)
  {
    ExecOnlyWhenAuthorized(run, steps, n);
    InvAlways(run, steps, n + 1);
    forall op | op in run[n].ground.execs ensures op != run[n].flight.op && SettledBy(run, n, op) {
      ExecutedIsCurrentOrSettled(run, steps, n, op);
    }
  }

  // ----- construction

  /** The writes of a construction, all of them taking effect. */
  predicate RestartRuns(w: World) {
    && !w.up
    && (w.upper.Some? && NeedsRepair(w.upper.value) && Interrupted(w.ground.lower) ==>
          RestartEnabled(w, RestartRecover(Durable)))
    && var recovered := RecoveredWorld(w);
       if w.upper.Some? && NeedsRepair(w.upper.value) then RestartEnabled(recovered, Repair(Durable))
       else RestartEnabled(recovered, Load)
  }

  function RecoveredWorld(w: World): World {
    if RestartEnabled(w, RestartRecover(Durable)) then ApplyRestart(w, RestartRecover(Durable)) else w
  }

  function Restarted(w: World): World
    requires RestartRuns(w)
  {
    if w.upper.Some? && NeedsRepair(w.upper.value) then ApplyRestart(RecoveredWorld(w), Repair(Durable))
    else ApplyRestart(w, Load)
  }

  /** A construction has something to repair. */
  predicate RepairPending(w: World) { w.upper.Some? && NeedsRepair(w.upper.value) }

  /**
   * Construction is total and idempotent: from every stopped world it completes without a
   * conflict and without an exec, leaves no `Submitting` behind, and repeating it after another
   * crash changes nothing; it is refused exactly when an unsettled projection meets a submit
   * ledger of another configuration.
   */
  lemma RepairIsTotalAndIdempotent(w: World)
    requires Inv(w) && !w.up
    ensures RestartRuns(w) <==> (RepairPending(w) ==> Matches(w))
    ensures RestartRuns(w) ==>
              var v := Restarted(w);
              && Inv(v) && v.up && v.mem == v.upper && v.flight.Idle?
              && v.ground.execs == w.ground.execs
              && (v.mem.Some? ==> v.mem.value.phase != L.Submitting)
              && RestartRuns(ApplyRestart(v, Crash)) && Restarted(ApplyRestart(v, Crash)) == v
  {
    if RepairPending(w) ==> Matches(w) {
      RepairSucceedsWhenMatching(w);
    }
  }

  lemma RepairSucceedsWhenMatching(w: World)
    requires Inv(w) && !w.up && (RepairPending(w) ==> Matches(w))
    ensures RestartRuns(w) && Inv(Restarted(w))
    ensures Restarted(w).up && Restarted(w).mem == Restarted(w).upper && Restarted(w).flight.Idle?
    ensures Restarted(w).ground.execs == w.ground.execs
    ensures Restarted(w).mem.Some? ==> Restarted(w).mem.value.phase != L.Submitting
    ensures var stopped := ApplyRestart(Restarted(w), Crash);
            RestartRuns(stopped) && Restarted(stopped) == Restarted(w)
  {
    hide L.WellFormed, S.WellFormed, Distinct, Agrees, Counted;
    var recovered := RecoveredWorld(w);
    if w.upper.Some? && NeedsRepair(w.upper.value) {
      if Interrupted(w.ground.lower) {
        RestartRecoverKeepsInv(w, RestartRecover(Durable), recovered);
        S.RecoveredWellFormed(w.ground.lower.value);
      }
      RepairedSound(recovered.ground, w.upper.value);
      RepairKeepsInv(recovered, Repair(Durable), Restarted(w));
      if NeedsRepair(Restarted(w).upper.value) {
        RepairedSound(recovered.ground, Restarted(w).upper.value);
      }
    } else {
      LoadKeepsInv(w, Load, Restarted(w));
    }
  }

  // ----- decisions

  /** Repair turns a decision below into a projection that accepts exactly that decision again. */
  lemma RepairedDecision(g: Ground, u: L.LifecycleState, decision: Decision)
    requires Sound(g, u) && u.phase == L.Unknown && OwnsDecision(g, u.op) && S.WellFormed(g.lower.value)
    ensures Classify(u.op, g.lower).Ok?
    ensures var r := Repaired(u, Classify(u.op, g.lower).value);
            && r.Some? && r.value.op == u.op && r.value != u
            && (r.value.phase == L.Pending || r.value.phase.IsTerminal())
            && (ReplayAccepted(r.value, decision) <==>
                  && AlreadyDecided(g.lower.value, decision)
                  && (decision.AbandonAfterReconciliation? ==> decision.acknowledged == u.op))
  {
    S.LatestFixesShape(g.lower.value);
    hide L.WellFormed, S.WellFormed, Distinct;
  }

  /**
   * If the machine stops between the two writes of a resolution, then after restart exactly the
   * decision on disk can be repeated, it succeeds, and the submit ledger is not touched again.
   */
  lemma DecisionSurvivesCrash(w: World, decision: Decision)
    requires Inv(w) && !w.up && w.upper.Some? && w.upper.value.phase == L.Unknown
    requires OwnsDecision(w.ground, w.upper.value.op)
    ensures RestartRuns(w) <==> Matches(w)
    ensures RestartRuns(w) ==> Restarted(w).ground == w.ground && Restarted(w).mem.Some?
    ensures RestartRuns(w) ==>
            var u := Restarted(w).mem.value;
            && u.op == w.upper.value.op && (u.phase == L.Pending || u.phase.IsTerminal())
            && (ReplayAccepted(u, decision) <==>
                  && AlreadyDecided(w.ground.lower.value, decision)
                  && (decision.AbandonAfterReconciliation? ==> decision.acknowledged == u.op))
  {
    RepairIsTotalAndIdempotent(w);
    assert Sound(w.ground, w.upper.value) && S.WellFormed(w.ground.lower.value);
    hide Inv;
    RepairedDecision(w.ground, w.upper.value, decision);
    hide Sound, S.WellFormed, Repaired, Classify, ReplayAccepted, AlreadyDecided;
  }

  // ----- the window in which `start` has released the mutex

  /**
   * While a submit is in flight nothing but that submit, its own `start` and a crash can move the
   * world, so the recheck after it succeeds, no second submit begins, and no conflict is reported.
   */
  lemma SubmitWindow(w: World, step: Step)
    requires Inv(w) && w.flight.IsSubmit() && Enabled(w, step)
    ensures step.Submit? || step == Restarting(Crash) || (step.Operation? && step.operation.Finish?)
    ensures step.Submit? ==> Apply(w, step).mem == w.mem && Apply(w, step).upper == w.upper
    ensures w.flight.Returned? ==> Rechecked(w) && RecordResult(w.mem.value, w.flight.result).Ok()
    ensures w.flight.Running? && w.flight.ledger.None? ==> Dispatch(w.flight.op, w.ground.lower).None?
  {
    hide S.WellFormed, Distinct;
  }

  // ----- diff authority

  datatype Authority = Authority(op: OperationId, task: TaskId)

  /** `diff_eligible_task`: minted from the projection in memory. */
  function Minted(w: World): Option<Authority> {
    if w.up && w.mem.Some? && (w.mem.value.phase == L.Ready || w.mem.value.phase == L.Applied) && w.mem.value.task.Some?
    then Some(Authority(w.mem.value.op, w.mem.value.task.value)) else None
  }

  /** `validate_diff_authority`: checked against both ledgers on disk. */
  predicate Revalidates(w: World, authority: Authority) {
    && w.upper.Some?
    && (w.upper.value.phase == L.Ready || w.upper.value.phase == L.Applied)
    && w.upper.value.op == authority.op && w.upper.value.task == Some(authority.task)
    && w.ground.lower.Some? && w.ground.lower.value.op == authority.op
    && w.ground.lower.value.config == w.config
    && (w.ground.lower.value.Latest() == S.TaskRecorded || w.ground.lower.value.Latest() == S.TaskAdopted)
    && w.ground.lower.value.task == Some(authority.task)
  }

  /** A later `start` put its record on disk, whether or not it was told so. */
  predicate SupersedesProjection(step: Step) {
    step.Operation? && step.operation.Begin? && !step.operation.write.NotWritten?
  }

  /** The projection rests on disk, and in memory when there is one. */
  predicate AtRest(w: World, u: L.LifecycleState) {
    w.upper == Some(u) && (w.up ==> w.mem == Some(u))
  }

  lemma RestPersists(w: World, step: Step, u: L.LifecycleState)
    requires Inv(w) && Enabled(w, step) && !SupersedesProjection(step)
    requires AtRest(w, u) && (u.phase == L.Ready || u.phase == L.Applied)
    ensures AtRest(Apply(w, step), u)
  {
    hide L.WellFormed, S.WellFormed, Distinct;
  }

  /** The projection on disk changes hands only when a `start` writes a fresh operation. */
  lemma ProjectionOwnerKept(w: World, step: Step)
    requires Inv(w) && Enabled(w, step) && w.upper.Some? && !SupersedesProjection(step)
    ensures Apply(w, step).upper.Some? && Apply(w, step).upper.value.op == w.upper.value.op
    ensures w.issued <= Apply(w, step).issued
  {
    hide L.Shaped, S.WellFormed, Distinct, Agrees, Counted, AlreadyDecided, Classify, Repaired, OperationEnabled,
      ApplyOperation;
    match step
    case Restarting(r) =>
      if r.Repair? { RepairedSound(w.ground, w.upper.value); }
    case Submit(s) =>
    case Operation(o) =>
      OperationWritesUpper(w, o);
      OperationLeaves(w, o);
  }

  lemma SupersededStays(w: World, step: Step, op: OperationId)
    requires Inv(w) && Enabled(w, step) && op in w.issued
    requires w.upper.Some? && w.upper.value.op != op
    ensures var w' := Apply(w, step); w'.upper.Some? && w'.upper.value.op != op && op in w'.issued
  {
    if !SupersedesProjection(step) {
      ProjectionOwnerKept(w, step);
      hide Inv, Enabled, Apply;
    } else {
      hide Inv;
    }
  }

  predicate NoneSupersedes(steps: seq<Step>, from: nat, to: nat)
    requires to <= |steps|
  {
    forall k :: from <= k < to ==> !SupersedesProjection(steps[k])
  }

  lemma AuthorityStep(w: World, step: Step, u: L.LifecycleState, rests: bool)
    requires Inv(w) && Enabled(w, step) && (u.phase == L.Ready || u.phase == L.Applied)
    requires if rests then AtRest(w, u) else w.upper.Some? && w.upper.value.op != u.op && u.op in w.issued
    ensures var w' := Apply(w, step);
            if rests && !SupersedesProjection(step) then AtRest(w', u)
            else w'.upper.Some? && w'.upper.value.op != u.op && u.op in w'.issued
  {
    if rests && !SupersedesProjection(step) {
      RestPersists(w, step, u);
    } else if !rests {
      SupersededStays(w, step, u.op);
    }
  }

  /** Nothing has superseded the projection that was in memory at `i`. */
  predicate Undisturbed(run: seq<World>, steps: seq<Step>, i: nat, j: nat)
    requires i < |run| && j <= |steps|
  {
    run[i].upper == run[i].mem && NoneSupersedes(steps, i, j)
  }

  /** A minting projection is at rest, unless a later start has already been persisted over it. */
  lemma MintedRests(w: World)
    requires Inv(w) && Minted(w).Some?
    ensures w.upper == w.mem ==> AtRest(w, w.mem.value)
    ensures w.upper != w.mem ==> w.upper.Some? && w.upper.value.op != w.mem.value.op && w.mem.value.op in w.issued
  {
  }

  lemma {:induction false} ProjectionRestsOrIsSuperseded(run: seq<World>, steps: seq<Step>, i: nat, j: nat)
    requires IsRun(run, steps) && i <= j <= |steps| && Minted(run[i]).Some?
    ensures var u := run[i].mem.value;
            if Undisturbed(run, steps, i, j) then AtRest(run[j], u)
            else run[j].upper.Some? && run[j].upper.value.op != u.op && u.op in run[j].issued
    decreases j
  {
    hide Inv, Enabled, Apply;
    if i == j {
      InvAlways(run, steps, i);
      MintedRests(run[i]);
    } else {
      ProjectionRestsOrIsSuperseded(run, steps, i, j - 1);
      InvAlways(run, steps, j - 1);
      StepOfRun(run, steps, j - 1);
      hide IsRun, SupersedesProjection;
      AuthorityStep(run[j - 1], steps[j - 1], run[i].mem.value, Undisturbed(run, steps, i, j - 1));
    }
  }

  /**
   * A minted authority revalidates against the disk exactly until a later `start` puts its
   * `Submitting` record there; crashes, restarts and refused writes do not revoke it, and another
   * configuration suspends it.
   */
  lemma AuthorityHoldsUntilNextStart(run: seq<World>, steps: seq<Step>, i: nat, j: nat)
    requires IsRun(run, steps) && i <= j <= |steps| && Minted(run[i]).Some?
    ensures Revalidates(run[j], Minted(run[i]).value) <==> Undisturbed(run, steps, i, j) && Matches(run[j])
  {
    ProjectionRestsOrIsSuperseded(run, steps, i, j);
    InvAlways(run, steps, j);
    hide IsRun;
  }
}
