/**
 * What the two validations are worth: which records each ledger takes, phase by phase, and that a
 * ledger passes exactly if some sequence of records can have produced it, with one named exception
 * for each ledger.
 */
module LedgerValidation {
  import opened CloudTypes
  import S = SubmitLedger
  import L = LifecycleLedger
  import P = SubmitProtocol

  // ----- the submit ledger

  /** Which records the submit ledger takes, and when. */
  lemma SubmitRecordsExactly(s: S.SubmitState)
    requires S.WellFormed(s)
    ensures var room := |s.history| < S.MAX_HISTORY;
            && (S.Append(s, S.Authorized).Ok() <==> s.Latest() == S.Intent && room)
            && (S.Append(s, S.FailedBeforeSpawn).Ok() <==>
                  (s.Latest() == S.Intent || s.Latest() == S.Authorized) && room)
            && (S.Append(s, S.Unknown).Ok() <==> (s.Latest() == S.Authorized || s.Latest() == S.Started) && room)
            && (forall process: ProcessIdentity ::
                  S.RecordStarted(s, process).Ok() <==> s.Latest() == S.Authorized && room)
            && (forall task: TaskId :: S.RecordTask(s, task).Ok() <==> s.Latest() == S.Started && room)
            && (forall ids: seq<TaskId>, complete :: S.RecordReconciliation(s, ids, complete).Ok() <==>
                  && (s.Latest() == S.Unknown || s.Latest() == S.ReconciliationObserved) && room
                  && |ids| <= 100 && Distinct(ids))
            && (forall decision :: S.RecordDecision(s, decision).Ok() <==>
                  && s.Latest() == S.ReconciliationObserved && room
                  && (decision.AdoptListedTask? ==> decision.task in s.candidates))
  {
    S.LatestFixesShape(s);
    hide S.WellFormed, Distinct;
  }

  datatype SubmitRecord =
    | Authorize
    | FailBeforeSpawn
    | Start(process: ProcessIdentity)
    | NoteTask(task: TaskId)
    | LoseTrack
    | Reconcile(ids: seq<TaskId>, complete: bool)
    | Decide(decision: Decision)

  function Record(s: S.SubmitState, r: SubmitRecord): Attempt<S.SubmitState> {
    match r
    case Authorize => S.Append(s, S.Authorized)
    case FailBeforeSpawn => S.Append(s, S.FailedBeforeSpawn)
    case Start(process) => S.RecordStarted(s, process)
    case NoteTask(task) => S.RecordTask(s, task)
    case LoseTrack => S.Append(s, S.Unknown)
    case Reconcile(ids, complete) => S.RecordReconciliation(s, ids, complete)
    case Decide(decision) => S.RecordDecision(s, decision)
  }

  function Records(s: S.SubmitState, rs: seq<SubmitRecord>): Attempt<S.SubmitState>
    decreases |rs|
  {
    if rs == [] then Attempt(s, None)
    else
      var before := Records(s, rs[..|rs| - 1]);
      if before.Ok() then Record(before.state, rs[|rs| - 1]) else before
  }

  ghost predicate Written(s: S.SubmitState, rs: seq<SubmitRecord>) {
    s.op != NIL_OPERATION && Records(S.NewSubmit(s.op, s.config), rs) == Attempt(s, None)
  }

  /** Candidates without a reconciliation: validation lets them pass, no record writes them. */
  predicate Unlisted(s: S.SubmitState) { s.complete.None? && s.candidates != [] }

  lemma RecordKeeps(s: S.SubmitState, r: SubmitRecord)
    requires S.WellFormed(s) && !Unlisted(s) && Record(s, r).Ok()
    ensures S.WellFormed(Record(s, r).state) && !Unlisted(Record(s, r).state)
    ensures Record(s, r).state.op == s.op && Record(s, r).state.config == s.config
  {
    SubmitRecordsExactly(s);
    hide S.WellFormed, Distinct;
    match r
    case Authorize => S.AppendWellFormed(s, S.Authorized);
    case FailBeforeSpawn => S.AppendWellFormed(s, S.FailedBeforeSpawn);
    case Start(process) => S.StartedWellFormed(s, process);
    case NoteTask(task) => S.TaskWellFormed(s, task);
    case LoseTrack => S.AppendWellFormed(s, S.Unknown);
    case Reconcile(ids, complete) => S.ReconciliationWellFormed(s, ids, complete);
    case Decide(decision) => S.DecisionWellFormed(s, decision);
  }

  lemma {:induction false} RecordsKeep(op: OperationId, config: Config, rs: seq<SubmitRecord>)
    requires op != NIL_OPERATION && Records(S.NewSubmit(op, config), rs).Ok()
    ensures var s := Records(S.NewSubmit(op, config), rs).state;
            S.WellFormed(s) && !Unlisted(s) && s.op == op && s.config == config
    decreases |rs|
  {
    if rs == [] {
      S.NewSubmitWellFormed(op, config);
    } else {
      RecordsKeep(op, config, rs[..|rs| - 1]);
      RecordKeeps(Records(S.NewSubmit(op, config), rs[..|rs| - 1]).state, rs[|rs| - 1]);
    }
  }

  /** The state and the record before the last entry. */
  function Undone(s: S.SubmitState): (S.SubmitState, SubmitRecord)
    requires |s.history| > 1
  {
    var t := s.(history := s.history[..|s.history| - 1]);
    match s.Latest()
    case Authorized => (t, Authorize)
    case FailedBeforeSpawn => (t, FailBeforeSpawn)
    case Started => (t.(process := None), Start(if s.process.Some? then s.process.value else 0))
    case TaskRecorded => (t.(task := None), NoteTask(if s.task.Some? then s.task.value else 0))
    case ReconciliationObserved =>
      var again := S.ReconciliationObserved in t.history;
      (t.(candidates := if again then s.candidates else [], complete := if again then s.complete else None),
       Reconcile(s.candidates, s.complete.Some? && s.complete.value))
    case TaskAdopted =>
      (t.(task := None), Decide(AdoptListedTask(if s.task.Some? then s.task.value else 0)))
    case ExplicitlyAbandoned => (t, Decide(AbandonAfterReconciliation(s.op)))
    case _ => (t, LoseTrack)
  }

  /** What the prefix of a valid history holds. */
  lemma HistoryPrefix(s: S.SubmitState, x: S.Phase)
    requires S.WellFormed(s) && |s.history| > 1
    ensures var h := s.history[..|s.history| - 1];
            x in s.history <==> x in h || x == s.Latest()
  {
    var n := |s.history| - 1;
    assert s.history == s.history[..n] + [s.history[n]];
  }

  /** Only a reconciliation may occur twice. */
  lemma OncePerHistory(s: S.SubmitState)
    requires S.WellFormed(s) && |s.history| > 1
    ensures s.Latest() != S.ReconciliationObserved ==> s.Latest() !in s.history[..|s.history| - 1]
    ensures S.TaskRecorded !in s.history[..|s.history| - 1] && S.TaskAdopted !in s.history[..|s.history| - 1]
  {
    var n := |s.history| - 1;
    S.LatestFixesShape(s);
    forall i | 0 <= i < n
      ensures !(s.history[i].TaskRecorded? || s.history[i].TaskAdopted? || s.history[i].FailedBeforeSpawn?
                || s.history[i].ExplicitlyAbandoned?)
    {
      assert S.ValidTransition(s.history[i], s.history[i + 1]);
    }
    if s.Latest() == S.Unknown {
      UnknownIsEarly(s);
    }
  }

  /** An unknown outcome is recorded once: the entry before it is `Authorized` or `Started`. */
  lemma UnknownIsEarly(s: S.SubmitState)
    requires S.WellFormed(s) && |s.history| > 1 && s.Latest() == S.Unknown
    ensures S.Unknown !in s.history[..|s.history| - 1]
  {
    S.UnknownEntries(s);
    var h := s.history;
    assert S.ValidTransition(h[0], h[1]);
    assert S.ValidTransition(h[1], h[2]);
    assert |h| == 4 ==> S.ValidTransition(h[2], h[3]);
  }

  lemma UndoneIsValid(s: S.SubmitState)
    requires S.WellFormed(s) && !Unlisted(s) && |s.history| > 1
    ensures S.WellFormed(Undone(s).0) && !Unlisted(Undone(s).0)
    ensures Undone(s).0.op == s.op && Undone(s).0.config == s.config
    ensures |Undone(s).0.history| == |s.history| - 1
  {
    HistoryPrefix(s, S.Started);
    HistoryPrefix(s, S.TaskRecorded);
    HistoryPrefix(s, S.TaskAdopted);
    HistoryPrefix(s, S.ReconciliationObserved);
    OncePerHistory(s);
  }

  /** What a valid ledger says about its last entry, field by field. */
  lemma LastEntry(s: S.SubmitState)
    requires S.WellFormed(s) && |s.history| > 1
    ensures var t := s.(history := s.history[..|s.history| - 1]);
            && S.ValidTransition(t.Latest(), s.Latest())
            && |t.history| < S.MAX_HISTORY && s.history == t.history + [s.Latest()]
    ensures s.Latest() != S.Intent
    ensures s.Latest().Started? ==> s.process.Some?
    ensures s.Latest().TaskRecorded? ==> s.task.Some?
    ensures s.Latest().ReconciliationObserved? ==> s.complete.Some? && |s.candidates| <= 100 && Distinct(s.candidates)
    ensures s.Latest().TaskAdopted? ==> s.task.Some? && s.task.value in s.candidates
    ensures s.Latest().ExplicitlyAbandoned? ==> s.task.None?
  {
    var n := |s.history| - 1;
    assert S.ValidTransition(s.history[n - 1], s.history[n]);
    assert s.history[n] in s.history;
    S.LatestFixesShape(s);
  }

  lemma PhaseIsRecorded(s: S.SubmitState)
    requires S.WellFormed(s) && |s.history| > 1
    requires s.Latest().Authorized? || s.Latest().FailedBeforeSpawn? || s.Latest().Unknown?
    ensures Record(Undone(s).0, Undone(s).1) == Attempt(s, None)
  {
    LastEntry(s);
    hide S.WellFormed, S.ValidTransition, Distinct;
    assert Undone(s).0 == s.(history := s.history[..|s.history| - 1]);
  }

  lemma FieldIsRecorded(s: S.SubmitState)
    requires S.WellFormed(s) && |s.history| > 1
    requires s.Latest().Started? || s.Latest().TaskRecorded?
    ensures Record(Undone(s).0, Undone(s).1) == Attempt(s, None)
  {
    LastEntry(s);
    hide S.WellFormed, S.ValidTransition, Distinct;
    var t := s.(history := s.history[..|s.history| - 1]);
    assert S.Append(t, s.Latest()) == Attempt(s, None);
    assert Undone(s).0 == if s.Latest().Started? then t.(process := None) else t.(task := None);
  }

  lemma DecisionIsRecorded(s: S.SubmitState)
    requires S.WellFormed(s) && |s.history| > 1
    requires s.Latest().TaskAdopted? || s.Latest().ExplicitlyAbandoned?
    ensures Record(Undone(s).0, Undone(s).1) == Attempt(s, None)
  {
    LastEntry(s);
    var t := s.(history := s.history[..|s.history| - 1]);
    assert t.Latest() == S.ReconciliationObserved;
    hide S.WellFormed, S.ValidTransition, Distinct;
    assert Undone(s).0 == if s.Latest().TaskAdopted? then t.(task := None) else t;
  }

  lemma ListingIsRecorded(s: S.SubmitState)
    requires S.WellFormed(s) && |s.history| > 1 && s.Latest() == S.ReconciliationObserved
    ensures Record(Undone(s).0, Undone(s).1) == Attempt(s, None)
  {
    LastEntry(s);
    hide S.WellFormed, S.ValidTransition, Distinct;
    var t := s.(history := s.history[..|s.history| - 1]);
    var (u, r) := Undone(s);
    assert r == Reconcile(s.candidates, s.complete.Some? && s.complete.value);
    assert u.(candidates := s.candidates, complete := s.complete) == t;
    assert S.Append(t, S.ReconciliationObserved) == Attempt(s, None);
  }

  lemma UndoneIsRecorded(s: S.SubmitState)
    requires S.WellFormed(s) && !Unlisted(s) && |s.history| > 1
    ensures Record(Undone(s).0, Undone(s).1) == Attempt(s, None)
  {
    LastEntry(s);
    match s.Latest()
    case ReconciliationObserved => ListingIsRecorded(s);
    case Started | TaskRecorded => FieldIsRecorded(s);
    case TaskAdopted | ExplicitlyAbandoned => DecisionIsRecorded(s);
    case Authorized | FailedBeforeSpawn | Unknown => PhaseIsRecorded(s);
    case Intent =>
  }

  lemma {:induction false} ValidIsWritten(s: S.SubmitState) returns (rs: seq<SubmitRecord>)
    requires S.WellFormed(s) && !Unlisted(s)
    ensures Written(s, rs)
    decreases |s.history|
  {
    if |s.history| == 1 {
      rs := [];
      OneEntry(s);
    } else {
      UndoneIsValid(s);
      UndoneIsRecorded(s);
      hide S.WellFormed, Undone, Record;
      var before := ValidIsWritten(Undone(s).0);
      rs := before + [Undone(s).1];
      assert rs[..|rs| - 1] == before;
    }
  }

  lemma OneEntry(s: S.SubmitState)
    requires S.WellFormed(s) && !Unlisted(s) && |s.history| == 1
    ensures s == S.NewSubmit(s.op, s.config)
  {
    assert s.history == [S.Intent];
  }

  /**
   * A submit ledger passes validation and lists no candidates that were never reconciled if and
   * only if some sequence of records writes it.
   */
  lemma SubmitValidatesExactly(s: S.SubmitState)
    ensures S.WellFormed(s) && !Unlisted(s) <==> exists rs :: Written(s, rs)
  {
    if S.WellFormed(s) && !Unlisted(s) {
      var rs := ValidIsWritten(s);
    }
    forall rs | Written(s, rs) ensures S.WellFormed(s) && !Unlisted(s) {
      RecordsKeep(s.op, s.config, rs);
    }
  }

  /** The exception exists: validation takes candidates that no reconciliation listed. */
  lemma UnlistedPasses(config: Config)
    ensures var s := S.NewSubmit(1, config).(candidates := [7]);
            S.WellFormed(s) && !exists rs :: Written(s, rs)
  {
    SubmitValidatesExactly(S.NewSubmit(1, config).(candidates := [7]));
  }

  // ----- the lifecycle ledger

  /** Which records the lifecycle ledger takes, and when. */
  lemma LifecycleRecordsExactly(u: L.LifecycleState)
    requires L.WellFormed(u)
    ensures var room := |u.history| < L.MAX_HISTORY;
            && (L.Append(u, L.FailedBeforeSubmit).Ok() <==> u.phase == L.Submitting && room)
            && (L.Append(u, L.Unknown).Ok() <==> (u.phase == L.Submitting || u.phase == L.Unknown) && room)
            && (L.Append(u, L.AbandonedUnknown).Ok() <==> u.phase == L.Unknown && room)
            && (L.RecordCanceledWithoutTask(u).Ok() <==> u.phase == L.Submitting && room)
            && (L.RecordCanceledWithTask(u).Ok() <==> u.phase == L.Pending && room)
            && (forall task: TaskId, status :: L.RecordStatus(u, task, status).Ok() <==>
                  || (u.phase == L.Submitting && status == PendingStatus && room)
                  || (u.phase == L.Unknown && room)
                  || (u.phase == L.Pending && u.task == Some(task) && (status == PendingStatus || room)))
            && (forall ids: seq<TaskId>, complete :: L.RecordReconciliation(u, ids, complete).Ok() <==>
                  && u.phase == L.Unknown && u.generation < L.U64_MAX
                  && |ids| <= 100 && Distinct(ids))
  {
    assert u.phase.RequiresTask() <==> u.task.Some?;
    hide L.WellFormed, Distinct;
  }

  datatype LifecycleRecord =
    | FailBeforeSubmit
    | LoseOutcome
    | Abandon
    | CancelWithoutTask
    | CancelWithTask
    | ReadStatus(task: TaskId, status: TaskStatus)
    | ListTasks(ids: seq<TaskId>, complete: bool)

  function Note(u: L.LifecycleState, r: LifecycleRecord): Attempt<L.LifecycleState> {
    match r
    case FailBeforeSubmit => L.Append(u, L.FailedBeforeSubmit)
    case LoseOutcome => L.Append(u, L.Unknown)
    case Abandon => L.Append(u, L.AbandonedUnknown)
    case CancelWithoutTask => L.RecordCanceledWithoutTask(u)
    case CancelWithTask => L.RecordCanceledWithTask(u)
    case ReadStatus(task, status) => L.RecordStatus(u, task, status)
    case ListTasks(ids, complete) => L.RecordReconciliation(u, ids, complete)
  }

  function Notes(u: L.LifecycleState, rs: seq<LifecycleRecord>): Attempt<L.LifecycleState>
    decreases |rs|
  {
    if rs == [] then Attempt(u, None)
    else
      var before := Notes(u, rs[..|rs| - 1]);
      if before.Ok() then Note(before.state, rs[|rs| - 1]) else before
  }

  ghost predicate Noted(u: L.LifecycleState, rs: seq<LifecycleRecord>) {
    u.op != NIL_OPERATION && Notes(L.NewSubmitting(u.op), rs) == Attempt(u, None)
  }

  /** A pending status entered twice in a row: validation lets it pass, no record writes it. */
  ghost predicate Stutters(u: L.LifecycleState) {
    exists i :: 0 <= i < |u.history| - 1 && u.history[i] == L.Pending && u.history[i + 1] == L.Pending
  }

  /** One more entry, with the task that its phase calls for. */
  lemma EntryKeeps(u: L.LifecycleState, v: L.LifecycleState, phase: L.Phase)
    requires L.WellFormed(u) && !Stutters(u)
    requires |u.history| < L.MAX_HISTORY && L.ValidTransition(u.phase, phase)
    requires !(u.phase == L.Pending && phase == L.Pending)
    requires v == u.(history := u.history + [phase], phase := phase, task := v.task)
    requires v.task.Some? <==> phase.RequiresTask()
    ensures L.WellFormed(v) && !Stutters(v)
  {
    var n := |u.history|;
    forall i | 0 <= i < n ensures L.ValidTransition(v.history[i], v.history[i + 1]) {
      if i < n - 1 { assert L.ValidTransition(u.history[i], u.history[i + 1]); }
    }
    assert L.Unknown in u.history ==> L.Unknown in v.history;
    forall i | 0 <= i < n && v.history[i] == L.Pending ensures v.history[i + 1] != L.Pending {
      if i < n - 1 { assert u.history[i] == L.Pending && u.history[i + 1] == v.history[i + 1]; }
    }
  }

  lemma NoteKeeps(u: L.LifecycleState, r: LifecycleRecord)
    requires L.WellFormed(u) && !Stutters(u) && Note(u, r).Ok()
    ensures var v := Note(u, r).state; L.WellFormed(v) && !Stutters(v) && v.op == u.op
  {
    var v := Note(u, r).state;
    if v.history == u.history {
      assert u.phase == L.Unknown ==> u.history[|u.history| - 1] == L.Unknown;
    } else {
      EntryKeeps(u, v, v.phase);
    }
  }

  lemma {:induction false} NotesKeep(op: OperationId, rs: seq<LifecycleRecord>)
    requires op != NIL_OPERATION && Notes(L.NewSubmitting(op), rs).Ok()
    ensures var u := Notes(L.NewSubmitting(op), rs).state; L.WellFormed(u) && !Stutters(u) && u.op == op
    decreases |rs|
  {
    if rs == [] {
      L.NewSubmittingShaped(op);
    } else {
      NotesKeep(op, rs[..|rs| - 1]);
      NoteKeeps(Notes(L.NewSubmitting(op), rs[..|rs| - 1]).state, rs[|rs| - 1]);
    }
  }

  /** The last listing of an unknown outcome taken back. */
  function Unlist(u: L.LifecycleState): L.LifecycleState
    requires u.generation > 0
  {
    if u.generation == 1 then u.(generation := 0, candidates := [], complete := None)
    else u.(generation := u.generation - 1)
  }

  /** The last entry taken back. */
  function Erased(u: L.LifecycleState): L.LifecycleState
    requires |u.history| > 1
  {
    var n := |u.history| - 1;
    var before := u.history[n - 1];
    u.(history := u.history[..n], phase := before, task := if before == L.Pending then u.task else None)
  }

  function LastNote(u: L.LifecycleState): LifecycleRecord {
    var task := if u.task.Some? then u.task.value else 0;
    match u.phase
    case FailedBeforeSubmit => FailBeforeSubmit
    case AbandonedUnknown => Abandon
    case CanceledLocally(mayContinue) => if mayContinue then CancelWithTask else CancelWithoutTask
    case Pending => ReadStatus(task, PendingStatus)
    case Ready => ReadStatus(task, ReadyStatus)
    case Applied => ReadStatus(task, AppliedStatus)
    case ProviderError => ReadStatus(task, ErrorStatus)
    case _ => LoseOutcome
  }

  lemma UnlistIsNoted(u: L.LifecycleState)
    requires L.WellFormed(u) && !Stutters(u) && u.phase == L.Unknown && u.generation > 0
    ensures L.WellFormed(Unlist(u)) && !Stutters(Unlist(u)) && Unlist(u).op == u.op
    ensures Note(Unlist(u), ListTasks(u.candidates, u.complete.Some? && u.complete.value)) == Attempt(u, None)
  {
    assert Unlist(u).history == u.history;
  }

  lemma ErasedIsValid(u: L.LifecycleState)
    requires L.WellFormed(u) && !Stutters(u) && |u.history| > 1
    requires u.phase == L.Unknown ==> u.generation == 0
    ensures L.WellFormed(Erased(u)) && !Stutters(Erased(u)) && Erased(u).op == u.op
  {
    var n := |u.history| - 1;
    assert L.ValidTransition(u.history[n - 1], u.history[n]);
    assert u.history == u.history[..n] + [u.history[n]];
    assert n > 1 ==> L.ValidTransition(u.history[n - 2], u.history[n - 1]);
  }

  lemma ErasedIsNoted(u: L.LifecycleState)
    requires L.WellFormed(u) && !Stutters(u) && |u.history| > 1
    requires u.phase == L.Unknown ==> u.generation == 0
    ensures Note(Erased(u), LastNote(u)) == Attempt(u, None)
  {
    var n := |u.history| - 1;
    assert L.ValidTransition(u.history[n - 1], u.history[n]);
    assert u.history == u.history[..n] + [u.history[n]];
    assert u.phase.RequiresTask() <==> u.task.Some?;
    assert !(u.history[n - 1] == L.Pending && u.history[n - 1 + 1] == L.Pending);
  }

  lemma {:induction false} ValidIsNoted(u: L.LifecycleState) returns (rs: seq<LifecycleRecord>)
    requires L.WellFormed(u) && !Stutters(u)
    ensures Noted(u, rs)
    decreases |u.history|, u.generation
  {
    if u.phase == L.Unknown && u.generation > 0 {
      UnlistIsNoted(u);
      hide L.WellFormed, Stutters, Note;
      var before := ValidIsNoted(Unlist(u));
      rs := before + [ListTasks(u.candidates, u.complete.Some? && u.complete.value)];
      assert rs[..|rs| - 1] == before;
    } else if |u.history| == 1 {
      rs := [];
      assert u.history == [L.Submitting];
    } else {
      ErasedIsValid(u);
      ErasedIsNoted(u);
      hide L.WellFormed, Stutters, Note;
      var before := ValidIsNoted(Erased(u));
      rs := before + [LastNote(u)];
      assert rs[..|rs| - 1] == before;
    }
  }

  /**
   * A lifecycle ledger passes validation and never enters a pending status twice in a row if and
   * only if some sequence of records writes it.
   */
  lemma LifecycleValidatesExactly(u: L.LifecycleState)
    ensures L.WellFormed(u) && !Stutters(u) <==> exists rs :: Noted(u, rs)
  {
    if L.WellFormed(u) && !Stutters(u) {
      var rs := ValidIsNoted(u);
    }
    forall rs | Noted(u, rs) ensures L.WellFormed(u) && !Stutters(u) {
      NotesKeep(u.op, rs);
    }
  }

  /** The exception exists: validation takes a pending status entered twice. */
  lemma StutterPasses()
    ensures var u := L.LifecycleState(1, L.Pending, Some(7), 0, [], None, [L.Submitting, L.Pending, L.Pending]);
            L.WellFormed(u) && !exists rs :: Noted(u, rs)
  {
    var u := L.LifecycleState(1, L.Pending, Some(7), 0, [], None, [L.Submitting, L.Pending, L.Pending]);
    assert u.history[1] == L.Pending && u.history[1 + 1] == L.Pending;
    LifecycleValidatesExactly(u);
  }

  // ----- what the runner reads from a valid submit ledger

  /** Nothing is going on and nothing is unsettled. */
  ghost predicate Closed(phase: S.Phase) {
    phase in {S.TaskRecorded, S.FailedBeforeSpawn, S.TaskAdopted, S.ExplicitlyAbandoned}
  }

  /** How a submit is answered without a new execution, and when it goes on to one. */
  lemma DispatchesExactly(op: OperationId, s: S.SubmitState)
    requires S.WellFormed(s)
    ensures P.Dispatch(op, None) == None
    ensures var d, same := P.Dispatch(op, Some(s)), s.op == op;
            && (d == None <==> !same && Closed(s.Latest()))
            && (forall task: TaskId :: d == Some(Ok(task)) <==> same && s.task == Some(task))
            && (d == Some(Err(Error(PriorFailedBeforeSpawn, Some(op)))) <==> same && s.Latest() == S.FailedBeforeSpawn)
            && (d == Some(Err(Error(PriorExplicitlyAbandoned, Some(op)))) <==>
                  same && s.Latest() == S.ExplicitlyAbandoned)
            && (d == Some(Err(Error(OutcomeUnknown, Some(s.op)))) <==> !Closed(s.Latest()))
  {
    S.LatestFixesShape(s);
    hide S.WellFormed;
  }

  /** What one operation's submit ledger is reported as. */
  lemma ClassifiesExactly(op: OperationId, s: S.SubmitState)
    requires S.WellFormed(s)
    ensures P.Classify(op, None) == Ok(P.Absent)
    ensures var c, same := P.Classify(op, Some(s)), s.op == op;
            && (c == Ok(P.Absent) <==> !same && Closed(s.Latest()))
            && (c == Err(Error(OperationConflict, Some(s.op))) <==> !same && !Closed(s.Latest()))
            && (forall task: TaskId :: c == Ok(P.ObservedTask(task)) <==> same && s.task == Some(task))
            && (c == Ok(P.ObservedFailed) <==> same && s.Latest() == S.FailedBeforeSpawn)
            && (c == Ok(P.ObservedAbandoned) <==> same && s.Latest() == S.ExplicitlyAbandoned)
            && (c == Ok(P.ObservedUnknown) <==>
                  same && (s.Latest() == S.Unknown || s.Latest() == S.ReconciliationObserved))
            && (c == Err(Error(LedgerInvalid, None)) <==>
                  same && (s.Latest() == S.Intent || s.Latest() == S.Authorized || s.Latest() == S.Started))
  {
    S.LatestFixesShape(s);
    hide S.WellFormed;
  }
}
