/**
 * The upper durable ledger: the orchestrator's local projection of one Cloud task
 * (crates/codebox-agent-codex/src/cloud_lifecycle_ledger.rs).
 */
module LifecycleLedger {
  import opened CloudTypes

  const MAX_HISTORY := 32
  const MAX_CANDIDATES := 100
  const U64_MAX := 0xFFFF_FFFF_FFFF_FFFF

  datatype Phase =
    | Submitting
    | FailedBeforeSubmit
    | Unknown
    | Pending
    | Ready
    | Applied
    | ProviderError
    | CanceledLocally(providerMayContinue: bool)
    | AbandonedUnknown
  {
    predicate IsTerminal() {
      FailedBeforeSubmit? || Ready? || Applied? || ProviderError? || CanceledLocally? || AbandonedUnknown?
    }

    predicate RequiresTask() {
      Pending? || Ready? || Applied? || ProviderError? || this == CanceledLocally(true)
    }
  }

  predicate ValidTransition(from: Phase, to: Phase) {
    match from
    case Submitting =>
      to.FailedBeforeSubmit? || to.Pending? || to.Unknown? || to == CanceledLocally(false)
    case Pending =>
      to.Pending? || to.Ready? || to.Applied? || to.ProviderError? || to == CanceledLocally(true)
    case Unknown =>
      to.Unknown? || to.Pending? || to.Ready? || to.Applied? || to.ProviderError? || to.AbandonedUnknown?
    case _ => false
  }

  function PhaseForStatus(status: TaskStatus): Phase {
    match status
    case PendingStatus => Pending
    case ReadyStatus => Ready
    case AppliedStatus => Applied
    case ErrorStatus => ProviderError
  }

  /** Phase by phase, what a provider status is shown as, and nothing else is. */
  ghost predicate Tells(status: TaskStatus, phase: Phase) {
    && (status == PendingStatus <==> phase == Pending)
    && (status == ReadyStatus <==> phase == Ready)
    && (status == AppliedStatus <==> phase == Applied)
    && (status == ErrorStatus <==> phase == ProviderError)
  }

  datatype LifecycleState = LifecycleState(
    op: OperationId,
    phase: Phase,
    task: Option<TaskId>,
    generation: nat,
    candidates: seq<TaskId>,
    complete: Option<bool>,
    history: seq<Phase>)

  function NewSubmitting(op: OperationId): LifecycleState {
    LifecycleState(op, Submitting, None, 0, [], None, [Submitting])
  }

  predicate WellFormed(u: LifecycleState) {
    && u.op != NIL_OPERATION
    && 0 < |u.history| <= MAX_HISTORY
    && u.history[0] == Submitting
    && u.history[|u.history| - 1] == u.phase
    && (forall i :: 0 <= i < |u.history| - 1 ==> ValidTransition(u.history[i], u.history[i + 1]))
    && (u.phase.RequiresTask() <==> u.task.Some?)
    && |u.candidates| <= MAX_CANDIDATES
    && Distinct(u.candidates)
    && u.generation <= U64_MAX
    && (if u.generation == 0 then u.complete.None? && u.candidates == []
        else u.complete.Some? && Unknown in u.history)
  }

  // ----- record operations on values

  function Append(u: LifecycleState, phase: Phase): Attempt<LifecycleState> {
    if |u.history| >= MAX_HISTORY || !ValidTransition(u.phase, phase) then
      Attempt(u, Some(LedgerInvalid))
    else
      Attempt(u.(history := u.history + [phase], phase := phase), None)
  }

  function RecordStatus(u: LifecycleState, task: TaskId, status: TaskStatus): Attempt<LifecycleState> {
    if u.task.Some? && u.task.value != task then Attempt(u, Some(LedgerInvalid))
    else
      var phase := PhaseForStatus(status);
      if u.phase == Pending && phase == Pending && u.task == Some(task) then Attempt(u, None)
      else
        var appended := Append(u, phase);
        if appended.Ok() then Attempt(appended.state.(task := Some(task)), None) else appended
  }

  function RecordCanceledWithoutTask(u: LifecycleState): Attempt<LifecycleState> {
    if u.task.Some? then Attempt(u, Some(LedgerInvalid)) else Append(u, CanceledLocally(false))
  }

  function RecordCanceledWithTask(u: LifecycleState): Attempt<LifecycleState> {
    if u.task.None? then Attempt(u, Some(LedgerInvalid)) else Append(u, CanceledLocally(true))
  }

  function RecordReconciliation(u: LifecycleState, ids: seq<TaskId>, complete: bool): Attempt<LifecycleState> {
    if u.phase != Unknown || |ids| > MAX_CANDIDATES || !Distinct(ids) || u.generation >= U64_MAX then
      Attempt(u, Some(LedgerInvalid))
    else
      Attempt(u.(generation := u.generation + 1, candidates := ids, complete := Some(complete)), None)
  }

  // ----- the shape the orchestrator's calls keep

  /**
   * A ledger as the orchestrator writes it: at most four history entries, because a pending
   * status read is not appended and an unknown outcome is recorded once.
   */
  predicate Shaped(u: LifecycleState) {
    && WellFormed(u)
    && |u.history| <= 4
    && (u.phase == Submitting ==> u == NewSubmitting(u.op))
    && (u.phase == Unknown ==> |u.history| == 2)
    && (u.phase == Pending ==> |u.history| <= 3)
    && (u.phase == FailedBeforeSubmit || u.phase == CanceledLocally(false) ==> u.generation == 0)
  }

  lemma NewSubmittingShaped(op: OperationId)
    requires op != NIL_OPERATION
    ensures Shaped(NewSubmitting(op))
  {
  }

  lemma AppendKeepsShape(u: LifecycleState, v: LifecycleState, phase: Phase)
    requires Shaped(u) && ValidTransition(u.phase, phase) && phase != u.phase
    requires v == u.(history := u.history + [phase], phase := phase, task := v.task)
    requires v.task.Some? <==> phase.RequiresTask()
    ensures Shaped(v)
  {
    forall i | 0 <= i < |v.history| - 1 ensures ValidTransition(v.history[i], v.history[i + 1]) {
      if i < |u.history| - 1 { assert ValidTransition(u.history[i], u.history[i + 1]); }
    }
    assert u.generation > 0 ==> Unknown in v.history;
  }

  /** The states in which the orchestrator records a provider status for `task`. */
  predicate StatusRecordable(u: LifecycleState, task: TaskId, status: TaskStatus) {
    || (u.phase == Submitting && status == PendingStatus)
    || u.phase == Unknown
    || (u.phase == Pending && u.task == Some(task))
  }

  // The calls the orchestrator makes succeed, and keep the shape.

  lemma AppendShaped(u: LifecycleState, phase: Phase)
    requires Shaped(u)
    requires (u.phase == Submitting && (phase == FailedBeforeSubmit || phase == Unknown))
             || (u.phase == Unknown && phase == AbandonedUnknown)
    ensures Append(u, phase).Ok() && Shaped(Append(u, phase).state)
    ensures var v := Append(u, phase).state;
            v.phase == phase && v.op == u.op && v.task == u.task && v.generation == u.generation
  {
    AppendKeepsShape(u, Append(u, phase).state, phase);
  }

  /** What a cancellation changes. */
  predicate Canceled(u: LifecycleState, v: LifecycleState, mayContinue: bool) {
    v.phase == CanceledLocally(mayContinue) && v.op == u.op && v.task == u.task && v.generation == u.generation
  }

  lemma CanceledShaped(u: LifecycleState)
    requires Shaped(u)
    ensures u.phase == Submitting ==>
              && RecordCanceledWithoutTask(u).Ok() && Shaped(RecordCanceledWithoutTask(u).state)
              && Canceled(u, RecordCanceledWithoutTask(u).state, false)
    ensures u.phase == Pending ==>
              && RecordCanceledWithTask(u).Ok() && Shaped(RecordCanceledWithTask(u).state)
              && Canceled(u, RecordCanceledWithTask(u).state, true)
  {
    if u.phase == Submitting {
      AppendKeepsShape(u, RecordCanceledWithoutTask(u).state, CanceledLocally(false));
    }
    if u.phase == Pending {
      AppendKeepsShape(u, RecordCanceledWithTask(u).state, CanceledLocally(true));
    }
  }

  lemma StatusShaped(u: LifecycleState, task: TaskId, status: TaskStatus)
    requires Shaped(u) && StatusRecordable(u, task, status)
    ensures RecordStatus(u, task, status).Ok() && Shaped(RecordStatus(u, task, status).state)
    ensures var v := RecordStatus(u, task, status).state;
            && Tells(status, v.phase) && v.op == u.op && v.task == Some(task)
            && v.generation == u.generation
  {
    if PhaseForStatus(status) != u.phase {
      AppendKeepsShape(u, RecordStatus(u, task, status).state, PhaseForStatus(status));
    }
  }

  lemma ReconciliationShaped(u: LifecycleState, ids: seq<TaskId>, complete: bool)
    requires Shaped(u) && RecordReconciliation(u, ids, complete).Ok()
    ensures Shaped(RecordReconciliation(u, ids, complete).state)
  {
    assert u.history[1] == Unknown;
  }

  /** Once terminal, a lifecycle is never rewritten, and a recorded task is never replaced. */
  lemma TerminalPhasesAbsorb(u: LifecycleState)
    requires WellFormed(u)
    ensures u.phase.IsTerminal() ==>
              && (forall phase :: !Append(u, phase).Ok())
              && (forall task, status :: !RecordStatus(u, task, status).Ok())
              && (forall ids, complete :: !RecordReconciliation(u, ids, complete).Ok())
    ensures u.task.Some? ==> forall task, status ::
              RecordStatus(u, task, status).Ok() ==> RecordStatus(u, task, status).state.task == u.task
  {
  }

  // ----- the mutable ledger

  class CloudLifecycleLedger {
    var op: OperationId
    var phase: Phase
    var task: Option<TaskId>
    var generation: nat
    var candidates: seq<TaskId>
    var complete: Option<bool>
    var history: seq<Phase>

    function View(): LifecycleState
      reads this
    {
      LifecycleState(op, phase, task, generation, candidates, complete, history)
    }

    constructor (op: OperationId)
      ensures View() == NewSubmitting(op)
    {
      this.op, phase, task, generation := op, Submitting, None, 0;
      candidates, complete, history := [], None, [Submitting];
    }

    /** Decoding a loaded file, or cloning. */
    constructor FromState(u: LifecycleState)
      ensures View() == u
    {
      op, phase, task, generation := u.op, u.phase, u.task, u.generation;
      candidates, complete, history := u.candidates, u.complete, u.history;
    }

    method AppendPhase(next: Phase) returns (error: Option<Category>)
      modifies this
      ensures Attempt(View(), error) == Append(old(View()), next)
    {
      if |history| >= MAX_HISTORY || !ValidTransition(phase, next) {
        return Some(LedgerInvalid);
      }
      history := history + [next];
      phase := next;
      error := None;
    }

    method MarkStatus(id: TaskId, status: TaskStatus) returns (error: Option<Category>)
      modifies this
      ensures Attempt(View(), error) == RecordStatus(old(View()), id, status)
      ensures error.None? ==> Tells(status, phase) && View().task == Some(id)
    {
      if task.Some? && task.value != id {
        return Some(LedgerInvalid);
      }
      var next := PhaseForStatus(status);
      if phase == Pending && next == Pending && task == Some(id) {
        return None;
      }
      error := AppendPhase(next);
      if error.None? {
        task := Some(id);
      }
    }

    method MarkCanceledWithoutTask() returns (error: Option<Category>)
      modifies this
      ensures Attempt(View(), error) == RecordCanceledWithoutTask(old(View()))
    {
      if task.Some? {
        return Some(LedgerInvalid);
      }
      error := AppendPhase(CanceledLocally(false));
    }

    method MarkCanceledWithTask() returns (error: Option<Category>)
      modifies this
      ensures Attempt(View(), error) == RecordCanceledWithTask(old(View()))
    {
      if task.None? {
        return Some(LedgerInvalid);
      }
      error := AppendPhase(CanceledLocally(true));
    }

    method MarkReconciliation(ids: seq<TaskId>, isComplete: bool) returns (error: Option<Category>)
      modifies this
      ensures Attempt(View(), error) == RecordReconciliation(old(View()), ids, isComplete)
    {
      if phase != Unknown || |ids| > MAX_CANDIDATES {
        return Some(LedgerInvalid);
      }
      var distinct := HasNoDuplicate(ids);
      if !distinct || generation >= U64_MAX {
        return Some(LedgerInvalid);
      }
      generation := generation + 1;
      candidates := ids;
      complete := Some(isComplete);
      error := None;
    }

    /** The check every load and every persist runs. */
    method Validate() returns (valid: bool)
      requires generation <= U64_MAX
      ensures valid == WellFormed(View())
    {
      if op == NIL_OPERATION || |history| == 0 || |history| > MAX_HISTORY
         || history[0] != Submitting || history[|history| - 1] != phase
      {
        return false;
      }
      for i := 0 to |history| - 1
        invariant forall k :: 0 <= k < i ==> ValidTransition(history[k], history[k + 1])
      {
        if !ValidTransition(history[i], history[i + 1]) {
          return false;
        }
      }
      if phase.RequiresTask() != task.Some?
         || (phase == CanceledLocally(false) && task.Some?)
         || |candidates| > MAX_CANDIDATES
      {
        return false;
      }
      var distinct := HasNoDuplicate(candidates);
      if !distinct {
        return false;
      }
      if generation == 0 {
        valid := complete.None? && candidates == [];
      } else {
        valid := complete.Some? && Unknown in history;
      }
    }
  }
}
