/**
 * Which unknown outcomes can still be settled: an exact condition over every run, and what becomes
 * of the worlds that fail it or that a failed write has stranded.
 */
module ProtocolSettling {
  import opened CloudTypes
  import S = SubmitLedger
  import L = LifecycleLedger
  import opened SubmitProtocol
  import opened ProtocolInvariant
  import opened ProtocolTheorems
  import opened ProtocolLimits

  // ----- continuations

  /** What may follow a world. */
  predicate IsTrace(run: seq<World>, steps: seq<Step>) {
    && |run| == |steps| + 1
    && forall i :: 0 <= i < |steps| ==> Enabled(run[i], steps[i]) && run[i + 1] == Apply(run[i], steps[i])
  }

  lemma Continue(run: seq<World>, steps: seq<Step>, step: Step) returns (run': seq<World>, steps': seq<Step>)
    requires IsTrace(run, steps) && Inv(run[|steps|]) && Enabled(run[|steps|], step)
    ensures IsTrace(run', steps') && run'[0] == run[0] && run'[|steps'|] == Apply(run[|steps|], step)
    ensures Inv(run'[|steps'|])
  {
    hide Enabled, Apply, Inv;
    run', steps' := run + [Apply(run[|steps|], step)], steps + [step];
    StepKeepsInv(run[|steps|], step, run'[|steps'|]);
  }

  // ----- unknown outcomes

  /** The outcome of `op` is unknown below and above. */
  predicate Undecided(w: World, op: OperationId) {
    && Owns(w.ground, op) && w.ground.lower.value.Latest().IsUnknown()
    && w.upper.Some? && w.upper.value.op == op && w.upper.value.phase == L.Unknown
  }

  /** A decision needs a listing in the projection that a restart would load, or one about to be stored there. */
  function ListingsMissing(w: World): nat
    requires w.upper.Some?
  {
    if w.upper.value.generation == 0 && !w.flight.Reconciled? then 1 else 0
  }

  /** There is an entry left for the decision, after one for the listing if that is still missing. */
  predicate HasRoom(w: World)
    requires w.upper.Some? && w.ground.lower.Some?
  {
    |w.ground.lower.value.history| + ListingsMissing(w) < S.MAX_HISTORY
  }

  predicate Doomed(w: World, op: OperationId) { Undecided(w, op) && !HasRoom(w) }

  ghost predicate Settleable(w: World, op: OperationId) {
    exists run: seq<World>, steps: seq<Step> ::
      IsTrace(run, steps) && run[0] == w && OwnsDecision(run[|steps|].ground, op)
  }

  /** An unknown outcome that an operator can see is one of these. */
  lemma UnknownIsUndecided(run: seq<World>, steps: seq<Step>, n: nat)
    requires IsRun(run, steps) && n <= |steps| && run[n].up && MemIs(run[n], L.Unknown)
    requires run[n].ground.lower.Some? && run[n].ground.lower.value.Latest().IsUnknown()
    ensures Undecided(run[n], run[n].mem.value.op)
  {
    InvAlways(run, steps, n);
  }

  // ----- without room, never

  lemma DoomedRestart(w: World, step: RestartStep, op: OperationId)
    requires Inv(w) && RestartEnabled(w, step) && Doomed(w, op)
    ensures Doomed(ApplyRestart(w, step), op)
  {
    if step.Repair? { RepairedSound(w.ground, w.upper.value); }
    hide L.WellFormed, S.WellFormed, Distinct, L.Shaped, Counted;
  }

  lemma DoomedOperation(w: World, step: OperationStep, op: OperationId)
    requires Inv(w) && OperationEnabled(w, step) && Doomed(w, op)
    ensures Doomed(ApplyOperation(w, step), op)
  {
    hide L.WellFormed, S.WellFormed, Distinct, L.Shaped, Counted, L.RecordStatus, L.RecordReconciliation, L.Append,
      S.RecordReconciliation, S.RecordDecision, S.Recovered, Classify, ApplyOperation;
    OperationWritesUpper(w, step);
    OperationWritesLower(w, step);
    OperationLeaves(w, step);
  }

  lemma DoomedStep(w: World, step: Step, op: OperationId)
    requires Inv(w) && Enabled(w, step) && Doomed(w, op)
    ensures Doomed(Apply(w, step), op)
  {
    match step
    case Restarting(r) => hide Inv; DoomedRestart(w, r, op);
    case Submit(s) => hide L.WellFormed, S.WellFormed, Distinct, L.Shaped, Counted;
    case Operation(o) => hide Inv; DoomedOperation(w, o, op);
  }

  lemma {:induction false} DoomedAlong(run: seq<World>, steps: seq<Step>, op: OperationId)
    requires IsTrace(run, steps) && Inv(run[0]) && Doomed(run[0], op)
    ensures Inv(run[|steps|]) && Doomed(run[|steps|], op)
    decreases |steps|
  {
    hide Inv, Doomed, Enabled, Apply;
    if |steps| > 0 {
      var n := |steps| - 1;
      assert run[..n + 1][n] == run[n] && run[..n + 1][0] == run[0];
      DoomedAlong(run[..n + 1], steps[..n], op);
      StepKeepsInv(run[n], steps[n], run[n + 1]);
      DoomedStep(run[n], steps[n], op);
    }
  }

  // ----- with room, always

  /** An unknown outcome, down, under the configuration its ledger was written for. */
  predicate Stopped(w: World, op: OperationId) { Inv(w) && Undecided(w, op) && !w.up && Matches(w) }

  lemma ConstructionLoads(w: World, op: OperationId)
    requires Stopped(w, op)
    ensures Enabled(w, Restarting(Repair(Durable)))
    ensures var v := Apply(w, Restarting(Repair(Durable)));
            && v.ground == w.ground && v.upper == w.upper
            && v.up && v.mem == v.upper && v.flight.Idle? && Matches(v)
  {
    RepairedSound(w.ground, w.upper.value);
    hide L.WellFormed, S.WellFormed, Distinct, L.Shaped, Counted;
  }

  lemma CrashStops(w: World, op: OperationId)
    requires Inv(w) && Undecided(w, op) && w.up
    ensures Enabled(w, Restarting(Crash))
    ensures var v := Apply(w, Restarting(Crash));
            Undecided(v, op) && !v.up && v.ground == w.ground && v.upper == w.upper
  {
    hide Inv;
  }

  lemma ReconfigureMatches(w: World, op: OperationId)
    requires Inv(w) && Undecided(w, op) && !w.up
    ensures var step := Restarting(Reconfigure(w.ground.lower.value.config));
            && Enabled(w, step) && Undecided(Apply(w, step), op) && !Apply(w, step).up && Matches(Apply(w, step))
            && Apply(w, step).ground == w.ground && Apply(w, step).upper == w.upper
  {
    hide Inv;
  }

  /** Crash and construct again, under the configuration the ledger was written for. */
  lemma Reload(run: seq<World>, steps: seq<Step>, op: OperationId) returns (run': seq<World>, steps': seq<Step>)
    requires IsTrace(run, steps) && Inv(run[|steps|]) && Undecided(run[|steps|], op)
    ensures IsTrace(run', steps') && run'[0] == run[0] && Inv(run'[|steps'|])
    ensures var v := run'[|steps'|];
            && v.ground == run[|steps|].ground && v.upper == run[|steps|].upper
            && v.up && v.mem == v.upper && v.flight.Idle? && Matches(v)
  {
    hide Inv, Enabled, Apply, Matches;
    run', steps' := run, steps;
    if run[|steps|].up {
      CrashStops(run[|steps|], op);
      run', steps' := Continue(run', steps', Restarting(Crash));
    }
    ReconfigureMatches(run'[|steps'|], op);
    run', steps' := Continue(run', steps', Restarting(Reconfigure(run[|steps|].ground.lower.value.config)));
    ConstructionLoads(run'[|steps'|], op);
    run', steps' := Continue(run', steps', Restarting(Repair(Durable)));
  }

  /** An unknown outcome in memory and on disk, with nobody at work on it. */
  predicate Rests(w: World, op: OperationId) {
    Undecided(w, op) && w.up && w.mem == w.upper && w.flight.Idle? && Matches(w)
  }

  lemma AbandonStep(w: World, op: OperationId)
    requires Inv(w) && Rests(w, op) && |w.ground.lower.value.history| < S.MAX_HISTORY
    requires w.mem.value.generation > 0 && w.ground.lower.value.Latest() == S.ReconciliationObserved
    ensures var step := Operation(ResolveLower(AbandonAfterReconciliation(op), Durable));
            Enabled(w, step) && OwnsDecision(Apply(w, step).ground, op)
  {
    S.DecisionCapacity(w.ground.lower.value, AbandonAfterReconciliation(op));
    hide Inv, S.RecordDecision;
  }

  /** One listing, then the abandonment. */
  lemma ListAndAbandon(run: seq<World>, steps: seq<Step>, op: OperationId, list: bool)
    returns (run': seq<World>, steps': seq<Step>)
    requires IsTrace(run, steps) && Inv(run[|steps|]) && Rests(run[|steps|], op)
    requires |run[|steps|].ground.lower.value.history| + (if list then 1 else 0) < S.MAX_HISTORY
    requires !list ==> run[|steps|].mem.value.generation > 0
                       && run[|steps|].ground.lower.value.Latest() == S.ReconciliationObserved
    ensures IsTrace(run', steps') && run'[0] == run[0] && OwnsDecision(run'[|steps'|].ground, op)
  {
    hide Inv, Enabled, Apply;
    run', steps' := run, steps;
    if list {
      run', steps' := ListAgain(run, steps, op);
    }
    AbandonStep(run'[|steps'|], op);
    run', steps' := Continue(run', steps', Operation(ResolveLower(AbandonAfterReconciliation(op), Durable)));
  }

  lemma ListBelow(w: World, op: OperationId)
    requires Rests(w, op) && |w.ground.lower.value.history| < S.MAX_HISTORY
    ensures var step := Operation(ReconcileLower([], true, Durable));
            && Enabled(w, step)
            && var v := Apply(w, step);
               && v == w.(ground := v.ground, flight := Reconciled([], true)) && Undecided(v, op) && Matches(v)
               && |v.ground.lower.value.history| == |w.ground.lower.value.history| + 1
               && v.ground.lower.value.Latest() == S.ReconciliationObserved
  {
  }

  lemma ListAbove(w: World, op: OperationId)
    requires Undecided(w, op) && w.up && w.mem == w.upper && w.flight == Reconciled([], true) && Matches(w)
    requires w.upper.value.generation < L.U64_MAX
    ensures var step := Operation(ReconcileUpper(Durable));
            && Enabled(w, step)
            && var v := Apply(w, step);
               Rests(v, op) && v.mem.value.generation > 0 && v.ground == w.ground
  {
  }

  lemma ListAgain(run: seq<World>, steps: seq<Step>, op: OperationId) returns (run': seq<World>, steps': seq<Step>)
    requires IsTrace(run, steps) && Inv(run[|steps|]) && Rests(run[|steps|], op)
    requires |run[|steps|].ground.lower.value.history| < S.MAX_HISTORY
    ensures IsTrace(run', steps') && run'[0] == run[0] && Inv(run'[|steps'|]) && Rests(run'[|steps'|], op)
    ensures var v := run'[|steps'|];
            && v.mem.value.generation > 0
            && |v.ground.lower.value.history| == |run[|steps|].ground.lower.value.history| + 1
            && v.ground.lower.value.Latest() == S.ReconciliationObserved
  {
    hide Enabled, Apply;
    ListBelow(run[|steps|], op);
    GenerationSmall(run[|steps|], op);
    hide Inv;
    run', steps' := Continue(run, steps, Operation(ReconcileLower([], true, Durable)));
    ListAbove(run'[|steps'|], op);
    run', steps' := Continue(run', steps', Operation(ReconcileUpper(Durable)));
  }

  lemma GenerationSmall(w: World, op: OperationId)
    requires Inv(w) && Undecided(w, op)
    ensures w.upper.value.generation <= |w.ground.lower.value.history| <= S.MAX_HISTORY
  {
    hide L.WellFormed, Distinct, Agrees;
  }

  /** Between the two writes of a listing, store it above. */
  lemma FinishListing(run: seq<World>, steps: seq<Step>, op: OperationId) returns (run': seq<World>, steps': seq<Step>)
    requires IsTrace(run, steps) && Inv(run[|steps|]) && Undecided(run[|steps|], op) && run[|steps|].flight.Reconciled?
    ensures IsTrace(run', steps') && run'[0] == run[0] && Inv(run'[|steps'|]) && Undecided(run'[|steps'|], op)
    ensures run'[|steps'|].ground == run[|steps|].ground && run'[|steps'|].upper.value.generation > 0
  {
    run', steps' := Continue(run, steps, Operation(ReconcileUpper(Durable)));
  }

  lemma SettleWithRoom(w: World, op: OperationId)
    requires Inv(w) && Undecided(w, op) && HasRoom(w)
    ensures Settleable(w, op)
  {
    var run, steps := [w], [];
    if w.flight.Reconciled? {
      run, steps := FinishListing(run, steps, op);
    }
    run, steps := Reload(run, steps, op);
    var s := run[|steps|].ground.lower.value;
    if s.Latest() == S.Unknown {
      S.UnknownEntries(s);
    }
    run, steps := ListAndAbandon(run, steps, op,
                                 s.Latest() == S.Unknown || run[|steps|].mem.value.generation == 0);
  }

  /**
   * The exact condition, in every world of every run: an unknown outcome can still be adopted or
   * abandoned by some continuation if and only if an entry is left for the decision, and another
   * one for a listing when the projection on disk has none yet.
   */
  lemma SettleableExactly(run: seq<World>, steps: seq<Step>, n: nat, op: OperationId)
    requires IsRun(run, steps) && n <= |steps| && Undecided(run[n], op)
    ensures Settleable(run[n], op) <==> HasRoom(run[n])
  {
    InvAlways(run, steps, n);
    if HasRoom(run[n]) {
      SettleWithRoom(run[n], op);
    } else {
      forall run': seq<World>, steps': seq<Step> | IsTrace(run', steps') && run'[0] == run[n]
        ensures !OwnsDecision(run'[|steps'|].ground, op)
      {
        DoomedAlong(run', steps', op);
      }
    }
  }

  /** A run with 31 entries and no listing above: the ledger would take a decision, the system never will. */
  lemma NearlyFullReachable(config: Config) returns (run: seq<World>, steps: seq<Step>)
    ensures IsRun(run, steps) && run[|steps|].up && run[|steps|].mem.Some?
    ensures var w, op := run[|steps|], run[|steps|].mem.value.op;
            && Doomed(w, op) && |w.ground.lower.value.history| == S.MAX_HISTORY - 1
            && S.RecordDecision(w.ground.lower.value, AbandonAfterReconciliation(op)).Ok()
  {
    run, steps := UnknownReachable(config);
    run, steps := ReconcileTo(run, steps, 3, S.MAX_HISTORY - 1, NotWritten);
    InvAlways(run, steps, |steps|);
    S.DecisionCapacity(run[|steps|].ground.lower.value, AbandonAfterReconciliation(run[|steps|].mem.value.op));
  }

  /** Once the history is full the submit side never changes again, in any later world of the run. */
  lemma {:induction false} ExhaustedForever(run: seq<World>, steps: seq<Step>, i: nat, j: nat, op: OperationId)
    requires IsRun(run, steps) && i <= j <= |steps| && Exhausted(run[i], op)
    ensures Exhausted(run[j], op) && run[j].ground == run[i].ground
    decreases j - i
  {
    hide Inv, Enabled, Apply, Exhausted;
    if i < j {
      ExhaustedForever(run, steps, i, j - 1, op);
      InvAlways(run, steps, j - 1);
      StepOfRun(run, steps, j - 1);
      hide IsRun;
      ExhaustedIsForever(run[j - 1], steps[j - 1], op);
    }
  }

  // ----- stranded submits over runs

  lemma {:induction false} StrandedForever(run: seq<World>, steps: seq<Step>, i: nat, j: nat, u: L.LifecycleState)
    requires IsRun(run, steps) && i <= j <= |steps| && Stranded(run[i], u)
    ensures Stranded(run[j], u) && run[j].ground.execs == run[i].ground.execs
    decreases j - i
  {
    hide Inv, Enabled, Apply, Stranded;
    if i < j {
      StrandedForever(run, steps, i, j - 1, u);
      InvAlways(run, steps, j - 1);
      StepOfRun(run, steps, j - 1);
      hide IsRun;
      StrandedIsForever(run[j - 1], steps[j - 1], u);
    }
  }

  /** The failure of `op` is reported, or about to be, while its ledger says it may have run. */
  predicate Stranding(w: World, op: OperationId) {
    && (|| w.flight == Returned(op, SubmitFailed)
        || (w.upper.Some? && w.upper.value.op == op && w.upper.value.phase == L.FailedBeforeSubmit))
    && (OwnsAt(w.ground, op, S.Authorized) || OwnsAt(w.ground, op, S.Unknown))
  }

  /** One of the two write outcomes of `StrandedExactly`, for this operation. */
  predicate Strands(w: World, step: Step, op: OperationId) {
    && w.flight.Running? && w.flight.op == op
    && (|| step == Submit(WriteAuthorized(WrittenButFailed))
        || (LocalAt(w, S.Authorized) && step == Submit(WriteFailedBeforeSpawn(false, NotWritten))))
  }

  lemma StrandingSubmit(w: World, step: SubmitStep, op: OperationId)
    requires Inv(w) && SubmitEnabled(w, step) && Stranding(ApplySubmit(w, step), op) && !Stranding(w, op)
    ensures Strands(w, Submit(step), op)
  {
    assert ApplySubmit(w, step).flight == Returned(w.flight.op, SubmitFailed) && w.flight.op == op by {
      hide L.WellFormed, S.WellFormed, Distinct;
    }
    StrandedExactly(w, step);
    hide Inv;
  }

  lemma StrandingRestart(w: World, step: RestartStep, op: OperationId)
    requires Inv(w) && RestartEnabled(w, step) && Stranding(ApplyRestart(w, step), op)
    ensures Stranding(w, op)
  {
    if step.Repair? { ObservationExplains(w.ground, w.upper.value); }
    hide L.WellFormed, S.WellFormed, Distinct, L.Shaped, Counted;
  }

  lemma StrandingOperation(w: World, step: OperationStep, op: OperationId)
    requires Inv(w) && OperationEnabled(w, step) && Stranding(ApplyOperation(w, step), op)
    ensures Stranding(w, op)
  {
    hide L.WellFormed, S.WellFormed, Distinct, L.Shaped, Counted, OperationEnabled, ApplyOperation;
    OperationWritesUpper(w, step);
    OperationWritesLower(w, step);
    OperationLeaves(w, step);
  }

  lemma StrandingOther(w: World, step: Step, op: OperationId)
    requires Inv(w) && Enabled(w, step) && !step.Submit? && Stranding(Apply(w, step), op)
    ensures Stranding(w, op)
  {
    hide Inv, Stranding, RestartEnabled, OperationEnabled, ApplyRestart, ApplyOperation;
    match step
    case Restarting(r) => StrandingRestart(w, r, op);
    case Operation(o) => StrandingOperation(w, o, op);
  }

  lemma StrandingStep(w: World, step: Step, op: OperationId)
    requires Inv(w) && Enabled(w, step) && Stranding(Apply(w, step), op) && !Stranding(w, op)
    ensures Strands(w, step, op)
  {
    hide Inv, Stranding, Strands, RestartEnabled, SubmitEnabled, OperationEnabled, ApplyRestart, ApplySubmit,
      ApplyOperation;
    if step.Submit? {
      StrandingSubmit(w, step.submit, op);
    } else {
      StrandingOther(w, step, op);
    }
  }

  lemma NothingStrandedAtFirst(run: seq<World>, steps: seq<Step>, op: OperationId)
    requires IsRun(run, steps)
    ensures !Stranding(run[0], op)
  {
    hide Enabled, Apply;
  }

  /** Every stranded submit of every run goes back to one of the two write outcomes. */
  lemma {:induction false} StrandingWasCaused(run: seq<World>, steps: seq<Step>, n: nat, op: OperationId)
    returns (k: nat)
    requires IsRun(run, steps) && n <= |steps| && Stranding(run[n], op)
    ensures k < n && Strands(run[k], steps[k], op)
  {
    hide Inv, Enabled, Apply, Strands, Stranding;
    NothingStrandedAtFirst(run, steps, op);
    StepOfRun(run, steps, n - 1);
    InvAlways(run, steps, n - 1);
    k := n - 1;
    if Stranding(run[k], op) {
      k := StrandingWasCaused(run, steps, k, op);
    } else {
      hide IsRun;
      StrandingStep(run[k], steps[k], op);
    }
  }

  /** No failure of `op` is on disk or on its way there: only an unknown outcome can still be reported. */
  predicate Unreported(w: World, op: OperationId) {
    && op in w.issued && !(w.flight.IsSubmit() && w.flight.op == op)
    && (w.upper.Some? && w.upper.value.op == op ==>
          && w.upper.value.phase != L.FailedBeforeSubmit
          && (w.upper.value.phase == L.Submitting ==>
                OwnsAt(w.ground, op, S.Authorized) || OwnsAt(w.ground, op, S.Unknown)))
  }

  /** What a stranding write leads to: the failure is reported, or a crash or a failed write lost the report. */
  predicate AfterStrand(w: World, op: OperationId) { Stranding(w, op) || Unreported(w, op) }

  lemma StrandsLeads(w: World, step: Step, op: OperationId)
    requires Inv(w) && Enabled(w, step) && Strands(w, step, op)
    ensures Stranding(Apply(w, step), op)
  {
    StrandedExactly(w, step.submit);
    hide Inv;
  }

  lemma AfterStrandRestart(w: World, step: RestartStep, op: OperationId)
    requires Inv(w) && RestartEnabled(w, step) && AfterStrand(w, op)
    ensures AfterStrand(ApplyRestart(w, step), op)
  {
    hide L.WellFormed, S.WellFormed, Distinct, Counted;
  }

  lemma AfterStrandSubmit(w: World, step: SubmitStep, op: OperationId)
    requires Inv(w) && SubmitEnabled(w, step) && AfterStrand(w, op)
    ensures AfterStrand(ApplySubmit(w, step), op)
  {
    hide L.WellFormed, S.WellFormed, Distinct, Counted, L.Shaped;
  }

  lemma AfterStrandOperation(w: World, step: OperationStep, op: OperationId)
    requires Inv(w) && OperationEnabled(w, step) && AfterStrand(w, op)
    ensures AfterStrand(ApplyOperation(w, step), op)
  {
    hide L.WellFormed, S.WellFormed, Distinct, L.Shaped, Counted, L.RecordStatus, L.RecordReconciliation, L.Append,
      S.RecordReconciliation, S.RecordDecision, S.Recovered, Classify, ApplyOperation;
    OperationWritesUpper(w, step);
    OperationWritesLower(w, step);
    OperationLeaves(w, step);
  }

  lemma AfterStrandStep(w: World, step: Step, op: OperationId)
    requires Inv(w) && Enabled(w, step) && AfterStrand(w, op)
    ensures AfterStrand(Apply(w, step), op)
  {
    hide Inv, AfterStrand, RestartEnabled, SubmitEnabled, OperationEnabled, ApplyRestart, ApplySubmit, ApplyOperation;
    match step
    case Restarting(r) => AfterStrandRestart(w, r, op);
    case Submit(t) => AfterStrandSubmit(w, t, op);
    case Operation(o) => AfterStrandOperation(w, o, op);
  }

  lemma {:induction false} AfterStrandingAlong(run: seq<World>, steps: seq<Step>, k: nat, n: nat, op: OperationId)
    requires IsRun(run, steps) && k < n <= |steps| && Strands(run[k], steps[k], op)
    ensures AfterStrand(run[n], op)
    decreases n
  {
    hide Inv, Enabled, Apply, Strands, Stranding, Unreported;
    InvAlways(run, steps, n - 1);
    StepOfRun(run, steps, n - 1);
    if k == n - 1 {
      hide IsRun;
      StrandsLeads(run[k], steps[k], op);
    } else {
      AfterStrandingAlong(run, steps, k, n - 1, op);
      hide IsRun;
      AfterStrandStep(run[n - 1], steps[n - 1], op);
    }
  }

  predicate Reports(w: World, op: OperationId) {
    w.upper.Some? && w.upper.value.op == op && w.upper.value.phase == L.FailedBeforeSubmit
  }

  /**
   * In every world of every run: a submit reported as failed before its spawn may nevertheless be
   * one its own ledger says may have run, if and only if one of the two writes went before.
   */
  lemma StrandedIfAndOnlyIf(run: seq<World>, steps: seq<Step>, n: nat, op: OperationId)
    requires IsRun(run, steps) && n <= |steps| && Reports(run[n], op)
    ensures OwnsAt(run[n].ground, op, S.Authorized) || OwnsAt(run[n].ground, op, S.Unknown) <==>
            exists k :: 0 <= k < n && Strands(run[k], steps[k], op)
  {
    hide Inv, Enabled, Apply, Strands;
    if OwnsAt(run[n].ground, op, S.Authorized) || OwnsAt(run[n].ground, op, S.Unknown) {
      var k := StrandingWasCaused(run, steps, n, op);
    }
    forall k | 0 <= k < n && Strands(run[k], steps[k], op) ensures AfterStrand(run[n], op) {
      AfterStrandingAlong(run, steps, k, n, op);
    }
  }

  lemma FinishStrands(w: World, op: OperationId)
    requires Inv(w) && Enabled(w, Operation(Finish(Durable))) && w.flight.op == op && AfterStrand(w, op)
    ensures var d := Apply(w, Operation(Finish(Durable))); d.upper.Some? && Stranded(d, d.upper.value)
  {
    hide L.WellFormed, S.WellFormed, Distinct, Counted;
  }

  /** One of the two writes, then the stored answer of that submit: stranded, and for good. */
  lemma StrandingThenFinish(run: seq<World>, steps: seq<Step>, k: nat, j: nat, n: nat, op: OperationId)
    requires IsRun(run, steps) && k < j < n <= |steps| && Strands(run[k], steps[k], op)
    requires steps[j] == Operation(Finish(Durable)) && run[j].flight == Returned(op, SubmitFailed)
    ensures run[n].upper.Some? && Stranded(run[n], run[n].upper.value) && run[n].ground.execs == run[j + 1].ground.execs
  {
    hide Inv, Enabled, Apply, Strands, AfterStrand;
    AfterStrandingAlong(run, steps, k, j, op);
    InvAlways(run, steps, j);
    StepOfRun(run, steps, j);
    FinishStrands(run[j], op);
    StrandedForever(run, steps, j + 1, n, run[j + 1].upper.value);
  }

  // ----- a construction that is refused

  /** A run whose next construction is refused: an unknown outcome, then another environment or branch. */
  lemma RefusedRestartReachable(config: Config, other: Config) returns (run: seq<World>, steps: seq<Step>)
    requires config != other
    ensures IsRun(run, steps) && !run[|steps|].up && !RestartRuns(run[|steps|])
    ensures run[|steps|].config == other && RepairPending(run[|steps|])
  {
    run, steps := UnknownReachable(config);
    run, steps := Extend(run, steps, Restarting(Crash));
    run, steps := Extend(run, steps, Restarting(Reconfigure(other)));
    InvAlways(run, steps, |steps|);
    hide IsRun, Inv;
    RepairIsTotalAndIdempotent(run[|steps|]);
  }
}
