/**
 * The lower durable ledger: one non-idempotent `cloud exec` and how its outcome was settled
 * (crates/codebox-agent-codex/src/cloud_submit_ledger.rs).
 */
module SubmitLedger {
  import opened CloudTypes

  const MAX_HISTORY := 32
  const MAX_CANDIDATES := 100

  datatype Phase =
    | Intent
    | Authorized
    | Started
    | TaskRecorded
    | FailedBeforeSpawn
    | Unknown
    | ReconciliationObserved
    | TaskAdopted
    | ExplicitlyAbandoned
  {
    predicate IsUnknown() { Unknown? || ReconciliationObserved? }

    predicate PermitsNewOperation() {
      TaskRecorded? || FailedBeforeSpawn? || TaskAdopted? || ExplicitlyAbandoned?
    }

    /** A spawned submit whose outcome is settled; `FailedBeforeSpawn` never spawned. */
    predicate IsSettled() { TaskRecorded? || TaskAdopted? || ExplicitlyAbandoned? }

    /** Phases that only a live process may be in; recovery rewrites them. */
    predicate IsInterrupted() { Intent? || Authorized? || Started? }
  }

  predicate ValidTransition(from: Phase, to: Phase) {
    match from
    case Intent => to.Authorized? || to.FailedBeforeSpawn?
    case Authorized => to.Started? || to.FailedBeforeSpawn? || to.Unknown?
    case Started => to.TaskRecorded? || to.Unknown?
    case Unknown => to.ReconciliationObserved?
    case ReconciliationObserved =>
      to.ReconciliationObserved? || to.TaskAdopted? || to.ExplicitlyAbandoned?
    case _ => false
  }

  datatype SubmitState = SubmitState(
    op: OperationId,
    config: Config,
    process: Option<ProcessIdentity>,
    task: Option<TaskId>,
    candidates: seq<TaskId>,
    complete: Option<bool>,
    history: seq<Phase>)
  {
    function Latest(): Phase {
      if |history| == 0 then Unknown else history[|history| - 1]
    }
  }

  function NewSubmit(op: OperationId, config: Config): SubmitState {
    SubmitState(op, config, None, None, [], None, [Intent])
  }

  predicate WellFormed(s: SubmitState) {
    && s.op != NIL_OPERATION
    && 0 < |s.history| <= MAX_HISTORY
    && s.history[0] == Intent
    && (forall i :: 0 <= i < |s.history| - 1 ==> ValidTransition(s.history[i], s.history[i + 1]))
    && (s.process.Some? <==> Started in s.history)
    && (s.task.Some? <==> TaskRecorded in s.history || TaskAdopted in s.history)
    && (s.complete.Some? <==> ReconciliationObserved in s.history)
    && |s.candidates| <= MAX_CANDIDATES
    && Distinct(s.candidates)
    && (TaskAdopted in s.history ==> s.task.Some? && s.task.value in s.candidates)
  }

  // ----- record operations on values

  function Append(s: SubmitState, phase: Phase): (r: Attempt<SubmitState>)
    ensures r.Ok() ==> r.state.Latest() == phase
  {
    if |s.history| >= MAX_HISTORY || !ValidTransition(s.Latest(), phase) then
      Attempt(s, Some(LedgerInvalid))
    else
      Attempt(s.(history := s.history + [phase]), None)
  }

  function RecordStarted(s: SubmitState, process: ProcessIdentity): Attempt<SubmitState> {
    if s.process.Some? then Attempt(s, Some(LedgerInvalid))
    else Append(s.(process := Some(process)), Started)
  }

  function RecordTask(s: SubmitState, task: TaskId): Attempt<SubmitState> {
    if s.task.Some? then Attempt(s, Some(LedgerInvalid))
    else Append(s.(task := Some(task)), TaskRecorded)
  }

  function RecordReconciliation(s: SubmitState, ids: seq<TaskId>, complete: bool): Attempt<SubmitState> {
    if |ids| > MAX_CANDIDATES || !Distinct(ids) then Attempt(s, Some(LedgerInvalid))
    else Append(s.(candidates := ids, complete := Some(complete)), ReconciliationObserved)
  }

  function RecordAdopted(s: SubmitState, task: TaskId): Attempt<SubmitState> {
    if s.Latest() != ReconciliationObserved then Attempt(s, Some(ResolutionUnavailable))
    else if s.task.Some? then Attempt(s, Some(LedgerInvalid))
    else if task !in s.candidates then Attempt(s, Some(CandidateNotRecorded))
    else
      var appended := Append(s, TaskAdopted);
      if appended.Ok() then Attempt(appended.state.(task := Some(task)), None) else appended
  }

  function RecordAbandoned(s: SubmitState): Attempt<SubmitState> {
    if s.Latest() != ReconciliationObserved || s.task.Some? then Attempt(s, Some(ResolutionUnavailable))
    else Append(s, ExplicitlyAbandoned)
  }

  /** Applies one decision to a reconciled ledger. */
  function RecordDecision(s: SubmitState, decision: Decision): Attempt<SubmitState> {
    match decision
    case AdoptListedTask(task) => RecordAdopted(s, task)
    case AbandonAfterReconciliation(_) => RecordAbandoned(s)
  }

  /** What crash recovery writes over an interrupted ledger. */
  function Recovered(s: SubmitState): Attempt<SubmitState>
    requires s.Latest().IsInterrupted()
  {
    Append(s, if s.Latest() == Intent then FailedBeforeSpawn else Unknown)
  }

  // ----- what a well-formed ledger looks like

  /** The latest phase fixes the whole prefix before reconciliation, and the task field. */
  lemma LatestFixesShape(s: SubmitState)
    requires WellFormed(s)
    ensures s.Latest() == Intent ==> s.history == [Intent]
    ensures s.Latest() == Authorized ==> s.history == [Intent, Authorized]
    ensures s.Latest() == Started ==> s.history == [Intent, Authorized, Started]
    ensures s.task.Some? <==> s.Latest() == TaskRecorded || s.Latest() == TaskAdopted
    ensures s.Latest() == Authorized ==> s.process.None?
    ensures s.Latest().IsUnknown() ==> 3 <= |s.history|
  {
    var h := s.history;
    var n := |h|;
    assert forall i :: 0 <= i < n && h[i] == Intent ==> i == 0 by { NothingEntersIntent(s); }
    if n >= 2 { assert ValidTransition(h[n - 2], h[n - 1]); }
    if n >= 3 { assert ValidTransition(h[n - 3], h[n - 2]); }
    if s.task.Some? {
      var i :| 0 <= i < n && (h[i] == TaskRecorded || h[i] == TaskAdopted);
      assert i < n - 1 ==> ValidTransition(h[i], h[i + 1]);
    }
  }

  lemma NothingEntersIntent(s: SubmitState)
    requires WellFormed(s)
    ensures forall i :: 0 <= i < |s.history| && s.history[i] == Intent ==> i == 0
  {
    forall i | 0 < i < |s.history| ensures s.history[i] != Intent {
      assert ValidTransition(s.history[i - 1], s.history[i - 1 + 1]);
    }
  }

  /** Appending a legal phase keeps a ledger well-formed when the fields follow the phase. */
  lemma AppendKeepsWellFormed(s: SubmitState, t: SubmitState, phase: Phase)
    requires WellFormed(s)
    requires |s.history| < MAX_HISTORY && ValidTransition(s.Latest(), phase)
    requires t.op == s.op && t.history == s.history + [phase]
    requires t.process.Some? <==> s.process.Some? || phase == Started
    requires t.task.Some? <==> s.task.Some? || phase == TaskRecorded || phase == TaskAdopted
    requires t.complete.Some? <==> s.complete.Some? || phase == ReconciliationObserved
    requires |t.candidates| <= MAX_CANDIDATES && Distinct(t.candidates)
    requires phase == TaskAdopted ==> t.task.Some? && t.task.value in t.candidates
    ensures WellFormed(t)
  {
    LatestFixesShape(s);
    assert forall p :: p in t.history <==> p in s.history || p == phase;
    var n := |s.history|;
    forall i | 0 <= i < |t.history| - 1 ensures ValidTransition(t.history[i], t.history[i + 1]) {
      if i < n - 1 { assert ValidTransition(s.history[i], s.history[i + 1]); }
    }
  }

  // Every record operation that reports success keeps the ledger acceptable to `validate`.

  lemma AppendKeeps(s: SubmitState, phase: Phase)
    requires Append(s, phase).Ok()
    ensures var t := Append(s, phase).state;
            t.Latest() == phase && t.op == s.op && t.config == s.config && t.task == s.task
  {
  }

  lemma AppendWellFormed(s: SubmitState, phase: Phase)
    requires WellFormed(s) && (phase.Authorized? || phase.FailedBeforeSpawn? || phase.Unknown?)
    requires s.Latest().IsInterrupted() && ValidTransition(s.Latest(), phase)
    ensures Append(s, phase).Ok() && WellFormed(Append(s, phase).state)
  {
    LatestFixesShape(s);
    AppendKeepsWellFormed(s, Append(s, phase).state, phase);
  }

  lemma RecoveredWellFormed(s: SubmitState)
    requires WellFormed(s) && s.Latest().IsInterrupted()
    ensures Recovered(s).Ok() && WellFormed(Recovered(s).state)
    ensures Recovered(s).state.Latest() == if s.Latest() == Intent then FailedBeforeSpawn else Unknown
    ensures |Recovered(s).state.history| == |s.history| + 1 && Recovered(s).state.op == s.op
    ensures Recovered(s).state.config == s.config && Recovered(s).state.task == s.task
  {
    AppendWellFormed(s, if s.Latest() == Intent then FailedBeforeSpawn else Unknown);
  }

  lemma RecoveredKeeps(s: SubmitState)
    requires s.Latest().IsInterrupted() && |s.history| < MAX_HISTORY
    ensures var t := Recovered(s).state;
            && t.op == s.op && |t.history| == |s.history| + 1
            && t.Latest() == if s.Latest() == Intent then FailedBeforeSpawn else Unknown
  {
  }

  lemma StartedWellFormed(s: SubmitState, process: ProcessIdentity)
    requires WellFormed(s) && s.Latest() == Authorized
    ensures RecordStarted(s, process).Ok() && WellFormed(RecordStarted(s, process).state)
    ensures var t := RecordStarted(s, process).state;
            t.Latest() == Started && t.op == s.op && t.process == Some(process)
  {
    LatestFixesShape(s);
    AppendKeepsWellFormed(s, RecordStarted(s, process).state, Started);
  }

  lemma TaskWellFormed(s: SubmitState, task: TaskId)
    requires WellFormed(s) && s.Latest() == Started
    ensures RecordTask(s, task).Ok() && WellFormed(RecordTask(s, task).state)
    ensures var t := RecordTask(s, task).state; t.Latest() == TaskRecorded && t.op == s.op && t.task == Some(task)
  {
    LatestFixesShape(s);
    AppendKeepsWellFormed(s, RecordTask(s, task).state, TaskRecorded);
  }

  lemma ReconciliationWellFormed(s: SubmitState, ids: seq<TaskId>, complete: bool)
    requires WellFormed(s) && RecordReconciliation(s, ids, complete).Ok()
    ensures WellFormed(RecordReconciliation(s, ids, complete).state)
    ensures var t := RecordReconciliation(s, ids, complete).state;
            && |t.history| == |s.history| + 1 && t.Latest() == ReconciliationObserved
            && t.op == s.op && t.config == s.config && t.task == s.task
            && t.candidates == ids && t.complete == Some(complete) && |ids| <= MAX_CANDIDATES && Distinct(ids)
  {
    AppendKeepsWellFormed(s, RecordReconciliation(s, ids, complete).state, ReconciliationObserved);
  }

  lemma DecisionWellFormed(s: SubmitState, decision: Decision)
    requires WellFormed(s) && RecordDecision(s, decision).Ok()
    ensures WellFormed(RecordDecision(s, decision).state)
    ensures |RecordDecision(s, decision).state.history| == |s.history| + 1
    ensures RecordDecision(s, decision).state.config == s.config && s.Latest() == ReconciliationObserved
  {
    var t := RecordDecision(s, decision).state;
    AppendKeepsWellFormed(s, t, t.Latest());
  }

  lemma NewSubmitWellFormed(op: OperationId, config: Config)
    requires op != NIL_OPERATION
    ensures WellFormed(NewSubmit(op, config))
  {
  }

  // ----- absorbing phases, write-once task, and the real capacity of the history

  /** No record operation leaves a settled or failed ledger, and none replaces a recorded task. */
  lemma TerminalPhasesAbsorb(s: SubmitState)
    requires WellFormed(s) && s.Latest().PermitsNewOperation()
    ensures forall phase :: !Append(s, phase).Ok()
    ensures forall process :: !RecordStarted(s, process).Ok()
    ensures forall task :: !RecordTask(s, task).Ok()
    ensures forall ids, complete :: !RecordReconciliation(s, ids, complete).Ok()
    ensures forall decision :: !RecordDecision(s, decision).Ok()
  {
  }

  /** Successful reconciliations one after another, stopping at the first refusal. */
  function Reconciliations(s: SubmitState, rounds: seq<(seq<TaskId>, bool)>): Attempt<SubmitState>
    decreases |rounds|
  {
    if |rounds| == 0 then Attempt(s, None)
    else
      var r := RecordReconciliation(s, rounds[0].0, rounds[0].1);
      if r.Ok() then Reconciliations(r.state, rounds[1..]) else r
  }

  predicate Recordable(rounds: seq<(seq<TaskId>, bool)>) {
    forall i :: 0 <= i < |rounds| ==> |rounds[i].0| <= MAX_CANDIDATES && Distinct(rounds[i].0)
  }

  /**
   * The ledger admits exactly as many reconciliations as it has history entries left: 28 after
   * `Started` and 29 without it, when the outcome has just become unknown.
   */
  lemma {:induction false} ReconciliationCapacity(s: SubmitState, rounds: seq<(seq<TaskId>, bool)>)
    requires WellFormed(s) && s.Latest().IsUnknown()
    requires Recordable(rounds)
    ensures Reconciliations(s, rounds).Ok() <==> |s.history| + |rounds| <= MAX_HISTORY
    ensures Reconciliations(s, rounds).Ok() ==>
              var t := Reconciliations(s, rounds).state;
              && WellFormed(t) && t.op == s.op && t.task == s.task
              && |t.history| == |s.history| + |rounds|
              && t.Latest().IsUnknown()
              && (rounds != [] ==> t.Latest() == ReconciliationObserved && t.candidates == rounds[|rounds| - 1].0)
    decreases |rounds|
  {
    assert |s.history| <= MAX_HISTORY;
    hide WellFormed;
    if |rounds| > 0 {
      var r := RecordReconciliation(s, rounds[0].0, rounds[0].1);
      assert Distinct(rounds[0].0) && |rounds[0].0| <= MAX_CANDIDATES;
      if r.Ok() {
        ReconciliationWellFormed(s, rounds[0].0, rounds[0].1);
        ReconciliationCapacity(r.state, rounds[1..]);
      }
    }
  }

  /** One more listing of an unknown outcome is refused only by a full history. */
  lemma ListingCapacity(s: SubmitState, ids: seq<TaskId>, complete: bool)
    requires s.Latest().IsUnknown() && |ids| <= MAX_CANDIDATES && Distinct(ids)
    ensures RecordReconciliation(s, ids, complete).Ok() <==> |s.history| < MAX_HISTORY
    ensures |s.history| >= MAX_HISTORY ==> RecordReconciliation(s, ids, complete) == Attempt(
              s.(candidates := ids, complete := Some(complete)), Some(LedgerInvalid))
  {
  }

  /** A fresh unknown outcome has three entries, or four when the process start was recorded. */
  lemma UnknownEntries(s: SubmitState)
    requires WellFormed(s) && s.Latest() == Unknown
    ensures |s.history| == if s.process.Some? then 4 else 3
  {
    var h := s.history;
    var n := |h|;
    NothingEntersIntent(s);
    assert n >= 2 ==> ValidTransition(h[n - 2], h[n - 2 + 1]);
    assert n >= 3 ==> ValidTransition(h[n - 3], h[n - 3 + 1]);
    assert n >= 4 ==> ValidTransition(h[n - 4], h[n - 4 + 1]);
    assert Started in h <==> h[n - 2] == Started;
  }

  /** A reconciled ledger takes a decision exactly while an entry is left and the task is listed. */
  lemma DecisionCapacity(s: SubmitState, decision: Decision)
    requires WellFormed(s) && s.Latest() == ReconciliationObserved
    ensures RecordDecision(s, decision).Ok() <==>
              && |s.history| < MAX_HISTORY
              && (decision.AdoptListedTask? ==> decision.task in s.candidates)
    ensures !RecordDecision(s, decision).Ok() ==>
              RecordDecision(s, decision).error ==
              Some(if decision.AdoptListedTask? && decision.task !in s.candidates then CandidateNotRecorded
                   else LedgerInvalid)
    ensures RecordDecision(s, decision).Ok() ==>
              var t := RecordDecision(s, decision).state;
              && t.op == s.op && t.candidates == s.candidates
              && (decision.AdoptListedTask? ==> t.Latest() == TaskAdopted && t.task == Some(decision.task))
              && (decision.AbandonAfterReconciliation? ==> t.Latest() == ExplicitlyAbandoned && t.task.None?)
  {
    LatestFixesShape(s);
  }

  /** With all entries used, an unknown outcome can no longer be settled, or superseded. */
  lemma FullHistoryIsStuck(s: SubmitState)
    requires WellFormed(s) && s.Latest().IsUnknown() && |s.history| == MAX_HISTORY
    ensures forall ids, complete :: !RecordReconciliation(s, ids, complete).Ok()
    ensures forall decision :: !RecordDecision(s, decision).Ok()
    ensures !s.Latest().PermitsNewOperation() && !s.Latest().IsInterrupted()
  {
  }

  // ----- the mutable ledger

  class CloudSubmitLedger {
    var op: OperationId
    var config: Config
    var process: Option<ProcessIdentity>
    var task: Option<TaskId>
    var candidates: seq<TaskId>
    var complete: Option<bool>
    var history: seq<Phase>

    function View(): SubmitState
      reads this
    {
      SubmitState(op, config, process, task, candidates, complete, history)
    }

    constructor (op: OperationId, config: Config)
      ensures View() == NewSubmit(op, config)
    {
      this.op, this.config := op, config;
      process, task, candidates, complete := None, None, [], None;
      history := [Intent];
    }

    /** Decoding a loaded file, or cloning. */
    constructor FromState(s: SubmitState)
      ensures View() == s
    {
      op, config, process, task := s.op, s.config, s.process, s.task;
      candidates, complete, history := s.candidates, s.complete, s.history;
    }

    method AppendPhase(phase: Phase) returns (error: Option<Category>)
      modifies this
      ensures Attempt(View(), error) == Append(old(View()), phase)
    {
      if |history| >= MAX_HISTORY || !ValidTransition(View().Latest(), phase) {
        return Some(LedgerInvalid);
      }
      history := history + [phase];
      error := None;
    }

    method MarkStarted(identity: ProcessIdentity) returns (error: Option<Category>)
      modifies this
      ensures Attempt(View(), error) == RecordStarted(old(View()), identity)
    {
      if process.Some? {
        return Some(LedgerInvalid);
      }
      process := Some(identity);
      error := AppendPhase(Started);
    }

    method MarkTask(id: TaskId) returns (error: Option<Category>)
      modifies this
      ensures Attempt(View(), error) == RecordTask(old(View()), id)
    {
      if task.Some? {
        return Some(LedgerInvalid);
      }
      task := Some(id);
      error := AppendPhase(TaskRecorded);
    }

    method MarkReconciliation(ids: seq<TaskId>, isComplete: bool) returns (error: Option<Category>)
      modifies this
      ensures Attempt(View(), error) == RecordReconciliation(old(View()), ids, isComplete)
    {
      if |ids| > MAX_CANDIDATES {
        return Some(LedgerInvalid);
      }
      var distinct := HasNoDuplicate(ids);
      if !distinct {
        return Some(LedgerInvalid);
      }
      candidates := ids;
      complete := Some(isComplete);
      error := AppendPhase(ReconciliationObserved);
    }

    method MarkAdopted(id: TaskId) returns (error: Option<Category>)
      modifies this
      ensures Attempt(View(), error) == RecordAdopted(old(View()), id)
    {
      if View().Latest() != ReconciliationObserved {
        return Some(ResolutionUnavailable);
      }
      if task.Some? {
        return Some(LedgerInvalid);
      }
      if id !in candidates {
        return Some(CandidateNotRecorded);
      }
      error := AppendPhase(TaskAdopted);
      if error.None? {
        task := Some(id);
      }
    }

    method MarkAbandoned() returns (error: Option<Category>)
      modifies this
      ensures Attempt(View(), error) == RecordAbandoned(old(View()))
    {
      if View().Latest() != ReconciliationObserved || task.Some? {
        return Some(ResolutionUnavailable);
      }
      error := AppendPhase(ExplicitlyAbandoned);
    }

    /** The check every load and every persist runs. */
    method Validate() returns (valid: bool)
      ensures valid == WellFormed(View())
    {
      if op == NIL_OPERATION || |history| == 0 || |history| > MAX_HISTORY || history[0] != Intent {
        return false;
      }
      for i := 0 to |history| - 1
        invariant forall k :: 0 <= k < i ==> ValidTransition(history[k], history[k + 1])
      {
        if !ValidTransition(history[i], history[i + 1]) {
          return false;
        }
      }
      if (Started in history) != process.Some?
         || (TaskRecorded in history || TaskAdopted in history) != task.Some?
         || (ReconciliationObserved in history) != complete.Some?
         || |candidates| > MAX_CANDIDATES
      {
        return false;
      }
      var distinct := HasNoDuplicate(candidates);
      if !distinct {
        return false;
      }
      valid := TaskAdopted in history ==> task.value in candidates;
    }
  }
}
