/**
 * `CloudTaskRunner` (cloud_runner.rs) as it runs: each operation reads and replaces the durable
 * submit ledger, and its contract says that the worlds it passes through are a run of the
 * protocol. Whatever the environment does is a parameter.
 */
module CloudRunner {
  import opened CloudTypes
  import S = SubmitLedger
  import L = LifecycleLedger
  import opened SubmitProtocol
  import opened ProtocolInvariant
  import opened CloudListing

  /** The state directory, with the history of the whole system as seen from it. */
  class Host {
    var lower: Option<S.SubmitState>
    var upper: Option<L.LifecycleState>
    ghost var run: seq<World>
    ghost var steps: seq<Step>

    ghost predicate Valid()
      reads this
    {
      && IsRun(run, steps)
      && lower == run[|steps|].ground.lower
      && upper == run[|steps|].upper
    }

    ghost function Now(): World
      requires Valid()
      reads this
    {
      run[|steps|]
    }

    /** A fresh machine. */
    constructor (config: Config)
      ensures Valid() && Now() == World(config, Ground(None, [], false), None, false, None, Idle, {})
    {
      lower, upper := None, None;
      run, steps := [World(config, Ground(None, [], false), None, false, None, Idle, {})], [];
    }

    /** What every operation leaves: a longer run of the protocol. */
    twostate predicate Extends()
      requires old(Valid())
      reads this
    {
      Valid() && old(run) <= run && old(steps) <= steps
    }

    /** Records a step that writes no file. */
    ghost method Note(step: Step)
      requires Valid() && Enabled(Now(), step)
      requires Apply(Now(), step).ground.lower == lower && Apply(Now(), step).upper == upper
      modifies this`run, this`steps
      ensures Extends() && Now() == Apply(old(Now()), step)
    {
      RunExtends(run, steps, step);
      run, steps := run + [Apply(run[|steps|], step)], steps + [step];
    }

    /** `persist_cloud_ledger`: validates, then replaces the file. */
    method PersistSubmit(ledger: S.CloudSubmitLedger, write: Write, ghost step: Step) returns (ok: bool)
      requires Valid() && S.WellFormed(ledger.View()) && Enabled(Now(), step)
      requires Apply(Now(), step).ground.lower == Stored(lower, Some(ledger.View()), write)
      requires Apply(Now(), step).upper == upper
      modifies this
      ensures Extends() && Now() == Apply(old(Now()), step)
      ensures ok == write.Durable?
    {
      var valid := ledger.Validate();
      lower := if valid then Stored(lower, Some(ledger.View()), write) else lower;
      ok := valid && write.Durable?;
      RunExtends(run, steps, step);
      run, steps := run + [Apply(run[|steps|], step)], steps + [step];
    }

    /** `persist_lifecycle_ledger`. */
    method PersistLifecycle(ledger: L.CloudLifecycleLedger, write: Write, ghost step: Step) returns (ok: bool)
      requires Valid() && L.WellFormed(ledger.View()) && Enabled(Now(), step)
      requires Apply(Now(), step).upper == Stored(upper, Some(ledger.View()), write)
      requires Apply(Now(), step).ground.lower == lower
      modifies this
      ensures Extends() && Now() == Apply(old(Now()), step)
      ensures ok == write.Durable?
    {
      var valid := ledger.Validate();
      upper := if valid then Stored(upper, Some(ledger.View()), write) else upper;
      ok := valid && write.Durable?;
      RunExtends(run, steps, step);
      run, steps := run + [Apply(run[|steps|], step)], steps + [step];
    }
  }

  /** What starting the process reported. `spawned` is the truth a hedged failure leaves open. */
  datatype StartOutcome =
    | Supervised(process: ProcessIdentity)
    | MayHaveStarted(spawned: bool)
    | NotStarted(category: Category)

  /** Everything outside the runner that one `submit` depends on. */
  datatype SubmitEnv = SubmitEnv(
    leaseBusy: bool,
    recovery: Write,
    versionAccepted: bool,
    intent: Write,
    canceledEarly: bool,
    loginAndSentinel: Option<Category>,
    withdrawal: Write,
    authorized: Write,
    canceledLate: bool,
    start: StartOutcome,
    started: Write,
    completion: Option<TaskId>,
    task: Write,
    unknown: Write)

  datatype ReconcileEnv = ReconcileEnv(
    leaseBusy: bool,
    recovery: Write,
    versionAccepted: bool,
    provider: nat -> Answer,
    late: nat -> bool,
    record: Write)

  datatype ResolveEnv = ResolveEnv(leaseBusy: bool, recovery: Write, record: Write)

  /** How `start` reads the answer of `submit`. */
  function ResultOf(answer: Result<TaskId, Error>): SubmitResult {
    match answer
    case Ok(task) => TaskSubmitted(task)
    case Err(error) =>
      match error.category
      case CanceledBeforeStart => SubmitCanceled
      case OutcomeUnknown => SubmitUncertain
      case RecoveryRequired => SubmitUncertain
      case _ => SubmitFailed
  }

  /** Failure classes of the steps before the spawn; none of them speaks of the outcome. */
  predicate Plain(category: Category) {
    category != CanceledBeforeStart && category != OutcomeUnknown && category != RecoveryRequired
  }

  // ----- what a submit does, told from its environment

  /** Nobody cancelled before the authorization, and login and sentinel are in order. */
  ghost predicate Admitted(env: SubmitEnv) { !env.canceledEarly && env.loginAndSentinel.None? }

  /** From its intent on, the submit gets as far as a durable `Authorized` record. */
  ghost predicate GetsAuthorized(env: SubmitEnv) {
    env.intent.Durable? && Admitted(env) && env.authorized.Durable?
  }

  /** The provider command was spawned, whatever the start reported. */
  ghost predicate CommandRan(env: SubmitEnv) {
    !env.canceledLate && match env.start
                         case Supervised(_) => true
                         case MayHaveStarted(spawned) => spawned
                         case NotStarted(_) => false
  }

  /** The spawned command was supervised to its end and its task is on disk. */
  ghost predicate TaskStored(env: SubmitEnv) {
    && !env.canceledLate && env.start.Supervised? && env.started.Durable?
    && env.completion.Some? && env.task.Durable?
  }

  /** What withdrawing before the spawn answers. */
  ghost function Withdrawn(op: OperationId, category: Category, write: Write): Error {
    if write.Durable? then Error(category, Some(op)) else Error(LedgerUnavailable, None)
  }

  /** What an outcome that cannot be told answers. */
  ghost function Untold(op: OperationId, write: Write): Error {
    Error(if write.Durable? then OutcomeUnknown else RecoveryRequired, Some(op))
  }

  /** The answer of a submit that got its `Authorized` record and no task. */
  ghost function LateFailure(op: OperationId, env: SubmitEnv): Error
    requires !TaskStored(env)
  {
    if env.canceledLate || env.start.MayHaveStarted? then Untold(op, env.unknown)
    else if env.start.NotStarted? then Withdrawn(op, env.start.category, env.withdrawal)
    else if !env.started.Durable? then Error(RecoveryRequired, Some(op))
    else if env.completion.None? then Untold(op, env.unknown)
    else Error(RecoveryRequired, Some(op))
  }

  /** The answer of a submit that did not get that far. */
  ghost function EarlyFailure(op: OperationId, env: SubmitEnv): Error
    requires !GetsAuthorized(env)
  {
    if !env.intent.Durable? then Error(LedgerUnavailable, None)
    else if env.canceledEarly then Withdrawn(op, CanceledBeforeStart, env.withdrawal)
    else if env.loginAndSentinel.Some? then Withdrawn(op, env.loginAndSentinel.value, env.withdrawal)
    else Error(LedgerUnavailable, None)
  }

  /** The answer of a submit that meets no earlier one in its way. */
  ghost function SubmitAnswer(op: OperationId, env: SubmitEnv): Result<TaskId, Error> {
    if env.leaseBusy then Err(Error(Busy, None))
    else if !env.versionAccepted then Err(Error(Version, None))
    else if !GetsAuthorized(env) then Err(EarlyFailure(op, env))
    else if TaskStored(env) then Ok(env.completion.value)
    else Err(LateFailure(op, env))
  }

  /** Such a submit executes the provider command. */
  ghost predicate Executes(env: SubmitEnv) {
    !env.leaseBusy && env.versionAccepted && GetsAuthorized(env) && CommandRan(env)
  }

  /** The submit ledger of `op` durably names this task. */
  ghost predicate Holds(g: Ground, op: OperationId, task: TaskId) {
    OwnsAt(g, op, S.TaskRecorded) && g.lower.value.task == Some(task)
  }

  /** Nothing but the submit side and the flight differs. */
  predicate SameShell(w: World, w': World) {
    w' == w.(ground := w'.ground, flight := w'.flight)
  }

  /** A submit begins only over a ledger that is not interrupted, so its own recovery writes nothing. */
  lemma NothingInterrupted(run: seq<World>, steps: seq<Step>)
    requires IsRun(run, steps) && run[|steps|].flight.Running? && run[|steps|].flight.ledger.None?
    ensures !Interrupted(run[|steps|].ground.lower)
  {
    InvAlways(run, steps, |steps|);
  }

  lemma UnsettledMatches(run: seq<World>, steps: seq<Step>)
    requires IsRun(run, steps) && run[|steps|].up && MemIs(run[|steps|], L.Unknown)
    ensures Matches(run[|steps|])
  {
    InvAlways(run, steps, |steps|);
  }

  /** A submit ledger whose outcome is unknown, or becomes so when it is recovered. */
  ghost predicate Unsettled(lower: Option<S.SubmitState>) {
    lower.Some? && lower.value.Latest() in {S.Authorized, S.Started, S.Unknown, S.ReconciliationObserved}
  }

  ghost predicate Full(lower: Option<S.SubmitState>) { lower.Some? && |lower.value.history| >= S.MAX_HISTORY }

  /** What recovery makes of a ledger that a reconciliation meets. */
  lemma RecoveredUnsettled(s: S.SubmitState)
    requires S.WellFormed(s)
    ensures s.Latest().IsInterrupted() ==>
              && |s.history| < S.MAX_HISTORY && |S.Recovered(s).state.history| < S.MAX_HISTORY
              && S.Recovered(s).state.op == s.op
              && (S.Recovered(s).state.Latest().IsUnknown() <==> Unsettled(Some(s)))
  {
    S.LatestFixesShape(s);
    hide S.WellFormed;
    if s.Latest().IsInterrupted() {
      S.RecoveredKeeps(s);
    }
  }

  /** When a reconciliation succeeds. */
  ghost predicate Reconcilable(lower: Option<S.SubmitState>, env: ReconcileEnv, calls: nat) {
    && !env.leaseBusy && (Interrupted(lower) ==> env.recovery.Durable?) && Unsettled(lower)
    && env.versionAccepted && Lists(env.provider, calls) && !Full(lower) && env.record.Durable?
  }

  /** Why a reconciliation fails, when it does. */
  ghost function ListingRefusal(lower: Option<S.SubmitState>, env: ReconcileEnv, calls: nat): Error {
    var category := if env.leaseBusy then Busy
                    else if Interrupted(lower) && !env.recovery.Durable? then LedgerUnavailable
                    else if !Unsettled(lower) then NoUnknownOperation
                    else if !env.versionAccepted then Version
                    else if !Lists(env.provider, calls) then Refusal(env.provider, calls)
                    else if Full(lower) then LedgerInvalid
                    else LedgerUnavailable;
    Error(category, None)
  }

  predicate JustRecovered(s: S.SubmitState) { s.Latest() == S.FailedBeforeSpawn || s.Latest() == S.Unknown }

  /** The ledger was closed by this very decision. */
  ghost predicate Carries(s: S.SubmitState, decision: Decision) {
    if decision.AdoptListedTask? then s.Latest() == S.TaskAdopted && s.task == Some(decision.task)
    else s.Latest() == S.ExplicitlyAbandoned
  }

  /** Why `resolve_unknown` of the runner refuses, when it does. */
  ghost function ResolveRefusal(w: World, op: OperationId, decision: Decision, env: ResolveEnv): Error {
    if env.leaseBusy then Error(Busy, None)
    else if !Matches(w) then Error(LedgerInvalid, None)
    else if Interrupted(w.ground.lower) && !env.recovery.Durable? then Error(LedgerUnavailable, None)
    else if w.ground.lower.None? then Error(ResolutionUnavailable, None)
    else if w.ground.lower.value.op != op then Error(OperationConflict, Some(w.ground.lower.value.op))
    else DecisionRefusal(w.ground.lower.value, decision)
  }

  ghost function DecisionRefusal(s: S.SubmitState, decision: Decision): Error {
    if s.Latest() == S.TaskAdopted || s.Latest() == S.ExplicitlyAbandoned then Error(ResolutionConflict, Some(s.op))
    else if s.Latest() != S.ReconciliationObserved then Error(ResolutionUnavailable, Some(s.op))
    else if decision.AdoptListedTask? && decision.task !in s.candidates then Error(CandidateNotRecorded, None)
    else if |s.history| >= S.MAX_HISTORY then Error(LedgerInvalid, None)
    else Error(LedgerUnavailable, None)
  }

  /** When `resolve_unknown` of the runner succeeds. */
  ghost predicate Resolvable(w: World, op: OperationId, decision: Decision, env: ResolveEnv) {
    && !env.leaseBusy && Matches(w) && w.ground.lower.Some? && w.ground.lower.value.op == op
    && var s := w.ground.lower.value;
       || Carries(s, decision)
       || (s.Latest() == S.ReconciliationObserved && |s.history| < S.MAX_HISTORY && env.record.Durable?
           && (decision.AdoptListedTask? ==> decision.task in s.candidates))
  }

  /** What rewriting an interrupted ledger does to the world, up or restarting. */
  lemma RecoveryStep(w: World, write: Write)
    requires if w.up then OperationEnabled(w, Recover(write)) else RestartEnabled(w, RestartRecover(write))
    ensures var step := if w.up then Operation(Recover(write)) else Restarting(RestartRecover(write));
            && Enabled(w, step)
            && Apply(w, step).ground.lower
               == Stored(w.ground.lower, Some(S.Recovered(w.ground.lower.value).state), write)
            && Apply(w, step).upper == w.upper && Apply(w, step).ground.execs == w.ground.execs
            && Apply(w, step) == w.(ground := Apply(w, step).ground)
  {
  }

  /** What recording a listing does to the world. */
  lemma ListingStep(w: World, tasks: seq<TaskId>, complete: bool, write: Write)
    requires OperationEnabled(w, ReconcileLower(tasks, complete, write))
    ensures var step := Operation(ReconcileLower(tasks, complete, write));
            var after := S.RecordReconciliation(w.ground.lower.value, tasks, complete).state;
            && Enabled(w, step) && Apply(w, step).ground.lower == Stored(w.ground.lower, Some(after), write)
            && Apply(w, step).upper == w.upper && SameShell(w, Apply(w, step))
            && Apply(w, step).ground.execs == w.ground.execs
            && Apply(w, step).flight == if write.Durable? then Reconciled(tasks, complete) else w.flight
  {
  }

  /** What recording a decision does to the world. */
  lemma DecisionStep(w: World, decision: Decision, write: Write)
    requires Open(w) && Matches(w) && w.mem.Some? && DecisionAllowed(w.mem.value, decision)
    requires Owns(w.ground, w.mem.value.op) && S.RecordDecision(w.ground.lower.value, decision).Ok()
    ensures var step := Operation(ResolveLower(decision, write));
            var after := S.RecordDecision(w.ground.lower.value, decision).state;
            && Enabled(w, step) && Apply(w, step).ground.lower == Stored(w.ground.lower, Some(after), write)
            && Apply(w, step).upper == w.upper && SameShell(w, Apply(w, step))
            && Apply(w, step).ground.execs == w.ground.execs
            && Apply(w, step).flight == if write.Durable? then Resolved(decision) else w.flight
  {
    hide S.RecordDecision;
  }

  /** What the first steps of a submit do to the world. */
  lemma EarlyFailureStep(w: World)
    requires w.flight.Running? && w.flight.ledger.None?
    ensures Enabled(w, Submit(FailEarly))
    ensures Apply(w, Submit(FailEarly)) == w.(flight := Returned(w.flight.op, SubmitFailed))
  {
  }

  lemma IntentStep(w: World, op: OperationId, write: Write)
    requires w.flight == Running(op, None, false, false) && Dispatch(op, w.ground.lower).None? && Matches(w)
    ensures Enabled(w, Submit(WriteIntent(write)))
    ensures Apply(w, Submit(WriteIntent(write))) == SubmitWrite(w, S.NewSubmit(op, w.config), write, SubmitFailed)
  {
    hide Dispatch;
  }

  lemma AuthorizationStep(w: World, write: Write)
    requires LocalAt(w, S.Intent)
    ensures Enabled(w, Submit(WriteAuthorized(write)))
    ensures Apply(w, Submit(WriteAuthorized(write))) ==
            SubmitWrite(w, S.Append(w.flight.ledger.value, S.Authorized).state, write, SubmitFailed)
  {
    hide S.Append;
  }

  /** How `start` reads the answer of a withdrawal. */
  lemma WithdrawnMeans(op: OperationId, canceled: bool, category: Category, write: Write)
    requires if canceled then category == CanceledBeforeStart else Plain(category)
    ensures ResultOf(Err(Withdrawn(op, category, write))) ==
            if canceled && write.Durable? then SubmitCanceled else SubmitFailed
  {
  }

  lemma WithdrawalStep(w: World, canceled: bool, write: Write)
    requires LocalAt(w, S.Intent) || (LocalAt(w, S.Authorized) && !w.flight.spawned && !canceled)
    ensures Enabled(w, Submit(WriteFailedBeforeSpawn(canceled, write)))
    ensures Apply(w, Submit(WriteFailedBeforeSpawn(canceled, write))) ==
            PutLower(w, S.Append(w.flight.ledger.value, S.FailedBeforeSpawn).state, write).(
              flight := Returned(w.flight.op, if canceled && write.Durable? then SubmitCanceled else SubmitFailed))
  {
    hide S.Append;
  }

  lemma SpawnStep(w: World)
    requires LocalAt(w, S.Authorized) && !w.flight.spawned
    ensures Enabled(w, Submit(Spawn))
    ensures Apply(w, Submit(Spawn)) == w.(ground := w.ground.(execs := w.ground.execs + [w.flight.op]),
                                          flight := w.flight.(spawned := true))
  {
  }

  lemma UnknownStep(w: World, write: Write)
    requires LocalAt(w, S.Authorized) || LocalAt(w, S.Started)
    ensures Enabled(w, Submit(WriteUnknown(write)))
    ensures Apply(w, Submit(WriteUnknown(write))) ==
            PutLower(w, S.Append(w.flight.ledger.value, S.Unknown).state, write).(
              flight := Returned(w.flight.op, SubmitUncertain))
  {
    hide S.Append;
  }

  lemma StartedStep(w: World, process: ProcessIdentity, write: Write)
    requires LocalAt(w, S.Authorized) && w.flight.spawned
    ensures Enabled(w, Submit(WriteStarted(process, write)))
    ensures Apply(w, Submit(WriteStarted(process, write))) ==
            SubmitWrite(w, S.RecordStarted(w.flight.ledger.value, process).state, write, SubmitUncertain)
  {
    hide S.RecordStarted;
  }

  lemma CompletionStep(w: World, task: TaskId, write: Write)
    requires LocalAt(w, S.Started) && !w.flight.taskLost
    ensures Enabled(w, Submit(WriteTask(task, write)))
    ensures Apply(w, Submit(WriteTask(task, write))) ==
            PutLower(w, S.RecordTask(w.flight.ledger.value, task).state, write).(
              flight := if write.Durable? then Returned(w.flight.op, TaskSubmitted(task))
                        else w.flight.(taskLost := true))
  {
    hide S.RecordTask;
  }

  /** An unknown outcome over an interrupted ledger is recovered first. */
  lemma RecoverableUnknown(w: World, write: Write)
    requires Open(w) && MemIs(w, L.Unknown) && Matches(w) && Interrupted(w.ground.lower)
    ensures OperationEnabled(w, Recover(write))
  {
  }

  lemma ReplayStep(w: World, decision: Decision)
    requires Open(w) && Matches(w) && w.mem.Some? && DecisionAllowed(w.mem.value, decision)
    requires Owns(w.ground, w.mem.value.op) && AlreadyDecided(w.ground.lower.value, decision)
    ensures Enabled(w, Operation(ResolveReplay(decision)))
    ensures Apply(w, Operation(ResolveReplay(decision))) == w.(flight := Resolved(decision))
  {
  }

  class CloudTaskRunner {
    const config: Config
    const host: Host

    constructor (config: Config, host: Host)
      ensures this.config == config && this.host == host
    {
      this.config, this.host := config, host;
    }

    /**
     * `recover_current_ledger`: rewrites an interrupted ledger; only then is anything written.
     */
    method RecoverCurrentLedger(write: Write) returns (r: Result<Option<S.SubmitState>, Error>)
      requires host.Valid() && host.Now().config == config
      requires Interrupted(host.lower) && Matches(host.Now()) ==>
                 if host.Now().up then OperationEnabled(host.Now(), Recover(write))
                 else RestartEnabled(host.Now(), RestartRecover(write))
      modifies host
      ensures host.Extends()
      ensures host.Now() == old(host.Now()).(ground := host.Now().ground)
      ensures host.Now().ground.execs == old(host.Now()).ground.execs
      ensures r.Ok? <==> Matches(old(host.Now())) && (Interrupted(old(host.lower)) ==> write.Durable?)
      ensures r.Ok? ==> r.value == host.lower && !Interrupted(host.lower) && Matches(host.Now())
      ensures r.Err? ==> r.error == Error(if Matches(old(host.Now())) then LedgerUnavailable else LedgerInvalid, None)
      ensures !Matches(old(host.Now())) || !Interrupted(old(host.lower)) ==> host.Now() == old(host.Now())
      ensures r.Ok? && Interrupted(old(host.lower)) ==>
                r.value == Some(S.Recovered(old(host.lower).value).state) && JustRecovered(r.value.value)
    {
      if host.lower.None? {
        return Ok(None);
      }
      if host.lower.value.config != config {
        return Err(Error(LedgerInvalid, None));
      }
      if !host.lower.value.Latest().IsInterrupted() {
        return Ok(host.lower);
      }
      r := RecoverInterrupted(write);
    }

    method RecoverInterrupted(write: Write) returns (r: Result<Option<S.SubmitState>, Error>)
      requires host.Valid() && Interrupted(host.lower)
      requires if host.Now().up then OperationEnabled(host.Now(), Recover(write))
               else RestartEnabled(host.Now(), RestartRecover(write))
      modifies host
      ensures host.Extends()
      ensures host.Now() == old(host.Now()).(ground := host.Now().ground)
      ensures host.Now().ground.execs == old(host.Now()).ground.execs
      ensures r.Ok? == write.Durable?
      ensures r.Ok? ==> r.value == host.lower && host.lower.Some? && !Interrupted(host.lower)
      ensures r.Ok? ==> host.lower.value.config == old(host.lower).value.config && JustRecovered(host.lower.value)
      ensures r.Ok? ==> host.lower == Some(S.Recovered(old(host.lower).value).state)
      ensures r.Err? ==> r.error == Error(LedgerUnavailable, None)
    {
      hide IsRun, Inv, S.WellFormed, L.WellFormed, Enabled, Apply;
      InvAlways(host.run, host.steps, |host.steps|);
      LowerBelongs(host.Now());
      var ledger := new S.CloudSubmitLedger.FromState(host.lower.value);
      S.RecoveredWellFormed(host.lower.value);
      var error := ledger.AppendPhase(if host.lower.value.Latest() == S.Intent then S.FailedBeforeSpawn else S.Unknown);
      ghost var step := if host.Now().up then Operation(Recover(write)) else Restarting(RestartRecover(write));
      RecoveryStep(host.Now(), write);
      hide RestartEnabled, OperationEnabled, S.Recovered;
      var ok := host.PersistSubmit(ledger, write, step);
      if ok {
        r := Ok(Some(ledger.View()));
      } else {
        r := Err(Error(LedgerUnavailable, None));
      }
    }

    /**
     * `submit` from its intent to its authorization; the ledger it returns is on disk, and
     * nothing has been spawned.
     */
    method Authorize(op: OperationId, env: SubmitEnv) returns (failure: Option<Error>, ledger: S.CloudSubmitLedger)
      requires host.Valid() && host.Now().flight == Running(op, None, false, false) && host.Now().config == config
      requires op != NIL_OPERATION && Dispatch(op, host.lower).None? && Matches(host.Now())
      requires env.loginAndSentinel.Some? ==> Plain(env.loginAndSentinel.value)
      modifies host
      ensures host.Extends() && SameShell(old(host.Now()), host.Now()) && fresh(ledger)
      ensures host.Now().ground.execs == old(host.Now()).ground.execs
      ensures failure == if GetsAuthorized(env) then None else Some(EarlyFailure(op, env))
      ensures env.intent.Durable? && !Admitted(env) && env.withdrawal.Durable? ==>
                OwnsAt(host.Now().ground, op, S.FailedBeforeSpawn)
      ensures failure.None? ==>
                && S.WellFormed(ledger.View()) && ledger.View().op == op && ledger.View().Latest() == S.Authorized
                && host.Now().flight == Running(op, Some(ledger.View()), false, false)
      ensures failure.Some? ==> host.Now().flight == Returned(op, ResultOf(Err(failure.value)))
    {
      hide IsRun, S.WellFormed, L.WellFormed, Enabled, Apply, Dispatch;
      S.NewSubmitWellFormed(op, config);
      ledger := new S.CloudSubmitLedger(op, config);
      IntentStep(host.Now(), op, env.intent);
      var ok := host.PersistSubmit(ledger, env.intent, Submit(WriteIntent(env.intent)));
      if !ok {
        return Some(Error(LedgerUnavailable, None)), ledger;
      }
      if env.canceledEarly || env.loginAndSentinel.Some? {
        var category := if env.canceledEarly then CanceledBeforeStart else env.loginAndSentinel.value;
        var error := Withdraw(op, ledger, env.canceledEarly, category, env.withdrawal);
        return Some(error), ledger;
      }
      S.AppendWellFormed(ledger.View(), S.Authorized);
      var _ := ledger.AppendPhase(S.Authorized);
      AuthorizationStep(host.Now(), env.authorized);
      ok := host.PersistSubmit(ledger, env.authorized, Submit(WriteAuthorized(env.authorized)));
      failure := if ok then None else Some(Error(LedgerUnavailable, None));
    }

    /** Records that nothing was spawned, and the answer that goes with it. */
    method Withdraw(op: OperationId, ledger: S.CloudSubmitLedger, canceled: bool, category: Category, write: Write)
      returns (answer: Error)
      requires host.Valid() && host.Now().flight == Running(op, Some(ledger.View()), false, false)
      requires S.WellFormed(ledger.View()) && ledger.View().op == op
      requires ledger.View().Latest() == S.Intent || (ledger.View().Latest() == S.Authorized && !canceled)
      requires if canceled then category == CanceledBeforeStart else Plain(category)
      modifies host, ledger
      ensures host.Extends() && SameShell(old(host.Now()), host.Now())
      ensures host.Now().flight == Returned(op, ResultOf(Err(answer)))
      ensures host.Now().ground.execs == old(host.Now()).ground.execs
      ensures answer == Withdrawn(op, category, write)
      ensures write.Durable? ==> OwnsAt(host.Now().ground, op, S.FailedBeforeSpawn)
    {
      hide IsRun, S.WellFormed, L.WellFormed, Enabled, Apply, S.Append, ResultOf, Plain;
      WithdrawnMeans(op, canceled, category, write);
      S.AppendWellFormed(ledger.View(), S.FailedBeforeSpawn);
      S.AppendKeeps(ledger.View(), S.FailedBeforeSpawn);
      var _ := ledger.AppendPhase(S.FailedBeforeSpawn);
      WithdrawalStep(host.Now(), canceled, write);
      var ok := host.PersistSubmit(ledger, write, Submit(WriteFailedBeforeSpawn(canceled, write)));
      answer := if ok then Error(category, Some(op)) else Error(LedgerUnavailable, None);
    }

    /** `persist_unknown`, and the answer every caller gives after it. */
    method PersistUnknown(op: OperationId, ledger: S.CloudSubmitLedger, write: Write) returns (answer: Error)
      requires host.Valid() && host.Now().flight.Running? && host.Now().flight.op == op
      requires host.Now().flight.ledger == Some(ledger.View()) && S.WellFormed(ledger.View()) && ledger.View().op == op
      requires ledger.View().Latest() == S.Authorized || ledger.View().Latest() == S.Started
      modifies host, ledger
      ensures host.Extends() && SameShell(old(host.Now()), host.Now())
      ensures host.Now().flight == Returned(op, SubmitUncertain)
      ensures host.Now().ground.execs == old(host.Now()).ground.execs
      ensures answer == Untold(op, write)
      ensures write.Durable? ==> OwnsAt(host.Now().ground, op, S.Unknown)
    {
      hide IsRun, S.WellFormed, L.WellFormed, Enabled, Apply, S.Append;
      S.AppendWellFormed(ledger.View(), S.Unknown);
      S.AppendKeeps(ledger.View(), S.Unknown);
      UnknownStep(host.Now(), write);
      var _ := ledger.AppendPhase(S.Unknown);
      var ok := host.PersistSubmit(ledger, write, Submit(WriteUnknown(write)));
      answer := Error(if ok then OutcomeUnknown else RecoveryRequired, Some(op));
    }

    /** `submit` from the spawn on. */
    method ExecuteAuthorized(op: OperationId, ledger: S.CloudSubmitLedger, env: SubmitEnv)
      returns (answer: Result<TaskId, Error>)
      requires host.Valid() && host.Now().flight == Running(op, Some(ledger.View()), false, false)
      requires S.WellFormed(ledger.View()) && ledger.View().op == op && ledger.View().Latest() == S.Authorized
      requires env.start.NotStarted? ==> Plain(env.start.category)
      modifies host, ledger
      ensures host.Extends() && SameShell(old(host.Now()), host.Now())
      ensures host.Now().flight == Returned(op, ResultOf(answer))
      ensures answer == if TaskStored(env) then Ok(env.completion.value) else Err(LateFailure(op, env))
      ensures host.Now().ground.execs == old(host.Now()).ground.execs + if CommandRan(env) then [op] else []
      ensures answer.Ok? ==> Holds(host.Now().ground, op, answer.value)
    {
      hide IsRun, S.WellFormed, L.WellFormed, Enabled, Apply, OwnsAt;
      SpawnStep(host.Now());
      if env.canceledLate {
        var error := PersistUnknown(op, ledger, env.unknown);
        return Err(error);
      }
      match env.start {
        case NotStarted(category) =>
          var error := Withdraw(op, ledger, false, category, env.withdrawal);
          answer := Err(error);
        case MayHaveStarted(spawned) =>
          if spawned {
            host.Note(Submit(Spawn));
          }
          var error := PersistUnknown(op, ledger, env.unknown);
          answer := Err(error);
        case Supervised(process) =>
          host.Note(Submit(Spawn));
          answer := Supervise(op, ledger, process, env);
      }
    }

    /** `submit` while the spawned command runs. */
    method Supervise(op: OperationId, ledger: S.CloudSubmitLedger, process: ProcessIdentity, env: SubmitEnv)
      returns (answer: Result<TaskId, Error>)
      requires host.Valid() && host.Now().flight == Running(op, Some(ledger.View()), true, false)
      requires S.WellFormed(ledger.View()) && ledger.View().op == op && ledger.View().Latest() == S.Authorized
      modifies host, ledger
      ensures host.Extends() && SameShell(old(host.Now()), host.Now())
      ensures host.Now().flight == Returned(op, ResultOf(answer))
      ensures answer ==
              if env.started.Durable? && env.completion.Some? && env.task.Durable? then Ok(env.completion.value)
              else if env.started.Durable? && env.completion.None? then Err(Untold(op, env.unknown))
              else Err(Error(RecoveryRequired, Some(op)))
      ensures host.Now().ground.execs == old(host.Now()).ground.execs
      ensures answer.Ok? ==> Holds(host.Now().ground, op, answer.value)
    {
      hide IsRun, S.WellFormed, L.WellFormed, Enabled, Apply, S.RecordStarted, Holds;
      S.StartedWellFormed(ledger.View(), process);
      var _ := ledger.MarkStarted(process);
      StartedStep(host.Now(), process, env.started);
      var ok := host.PersistSubmit(ledger, env.started, Submit(WriteStarted(process, env.started)));
      if !ok {
        return Err(Error(RecoveryRequired, Some(op)));
      }
      if env.completion.None? {
        var error := PersistUnknown(op, ledger, env.unknown);
        return Err(error);
      }
      answer := RecordCompletion(op, ledger, env.completion.value, env);
    }

    /** The task is recorded in a copy of the ledger, so that a failed write can still fall back to unknown. */
    method RecordCompletion(op: OperationId, ledger: S.CloudSubmitLedger, task: TaskId, env: SubmitEnv)
      returns (answer: Result<TaskId, Error>)
      requires host.Valid() && host.Now().flight == Running(op, Some(ledger.View()), true, false)
      requires S.WellFormed(ledger.View()) && ledger.View().op == op && ledger.View().Latest() == S.Started
      modifies host, ledger
      ensures host.Extends() && SameShell(old(host.Now()), host.Now())
      ensures host.Now().flight == Returned(op, ResultOf(answer))
      ensures answer == if env.task.Durable? then Ok(task) else Err(Error(RecoveryRequired, Some(op)))
      ensures host.Now().ground.execs == old(host.Now()).ground.execs
      ensures answer.Ok? ==> Holds(host.Now().ground, op, task)
    {
      hide IsRun, S.WellFormed, L.WellFormed, Enabled, Apply, S.RecordTask;
      var recorded := new S.CloudSubmitLedger.FromState(ledger.View());
      S.TaskWellFormed(ledger.View(), task);
      var _ := recorded.MarkTask(task);
      CompletionStep(host.Now(), task, env.task);
      var ok := host.PersistSubmit(recorded, env.task, Submit(WriteTask(task, env.task)));
      if ok {
        answer := Ok(task);
      } else {
        var _ := PersistUnknown(op, ledger, env.unknown);
        answer := Err(Error(RecoveryRequired, Some(op)));
      }
    }

    /**
     * `submit`. When the ledger already answers the request nothing is written; otherwise the
     * execution is a run of the protocol that ends with this answer.
     */
    method SubmitRequest(op: OperationId, env: SubmitEnv) returns (answer: Result<TaskId, Error>)
      requires host.Valid() && host.Now().flight == Running(op, None, false, false) && host.Now().config == config
      requires op != NIL_OPERATION
      requires env.loginAndSentinel.Some? ==> Plain(env.loginAndSentinel.value)
      requires env.start.NotStarted? ==> Plain(env.start.category)
      modifies host
      ensures host.Extends() && SameShell(old(host.Now()), host.Now())
      ensures env.leaseBusy || !Matches(old(host.Now())) ==>
                && answer == Err(Error(if env.leaseBusy then Busy else LedgerInvalid, None))
                && host.Now().ground == old(host.Now()).ground
      ensures !env.leaseBusy && Matches(old(host.Now())) && Dispatch(op, old(host.lower)).Some? ==>
                answer == Dispatch(op, old(host.lower)).value && host.Now() == old(host.Now())
      // The command is executed exactly then, and once.
      ensures host.Now().ground.execs == old(host.Now()).ground.execs
              + if Matches(old(host.Now())) && Dispatch(op, old(host.lower)).None? && Executes(env) then [op] else []
      ensures Matches(old(host.Now())) && Dispatch(op, old(host.lower)).None? ==> answer == SubmitAnswer(op, env)
      ensures Dispatch(op, old(host.lower)).None? ==> host.Now().flight == Returned(op, ResultOf(answer))
      // A cancelled or refused submit says so, and leaves a ledger that says nothing was spawned.
      ensures !env.leaseBusy && Matches(old(host.Now())) && Dispatch(op, old(host.lower)).None?
              && env.versionAccepted && env.intent.Durable? && !Admitted(env) && env.withdrawal.Durable? ==>
                && answer == Err(Error(if env.canceledEarly then CanceledBeforeStart else env.loginAndSentinel.value,
                                       Some(op)))
                && OwnsAt(host.Now().ground, op, S.FailedBeforeSpawn)
      // Only a task that is on disk is returned.
      ensures answer.Ok? && Dispatch(op, old(host.lower)).None? ==> Holds(host.Now().ground, op, answer.value)
    {
      hide IsRun, S.WellFormed, L.WellFormed, RestartEnabled, OperationEnabled, Enabled, Apply, Dispatch, LateFailure,
        CommandRan, TaskStored, Holds;
      NothingInterrupted(host.run, host.steps);
      EarlyFailureStep(host.Now());
      if env.leaseBusy {
        host.Note(Submit(FailEarly));
        return Err(Error(Busy, None));
      }
      var existing := RecoverCurrentLedger(env.recovery);
      if existing.Err? {
        host.Note(Submit(FailEarly));
        return Err(existing.error);
      }
      var dispatched := Dispatch(op, existing.value);
      if dispatched.Some? {
        return dispatched.value;
      }
      if !env.versionAccepted {
        host.Note(Submit(FailEarly));
        return Err(Error(Version, None));
      }
      var failure, ledger := Authorize(op, env);
      if failure.Some? {
        return Err(failure.value);
      }
      answer := ExecuteAuthorized(op, ledger, env);
    }

    /** `observe_submit`: recovers, then classifies; it never executes a provider command. */
    method ObserveSubmit(op: OperationId, leaseBusy: bool, write: Write) returns (r: Result<Observation, Error>)
      requires host.Valid() && host.Now().config == config
      requires Interrupted(host.lower) && Matches(host.Now()) ==>
                 if host.Now().up then OperationEnabled(host.Now(), Recover(write))
                 else RestartEnabled(host.Now(), RestartRecover(write))
      modifies host
      ensures host.Extends()
      ensures host.Now() == old(host.Now()).(ground := host.Now().ground)
      ensures host.Now().ground.execs == old(host.Now()).ground.execs
      ensures leaseBusy || !Matches(old(host.Now())) ==>
                host.Now() == old(host.Now()) && r == Err(Error(if leaseBusy then Busy else LedgerInvalid, None))
      ensures !leaseBusy && Matches(old(host.Now())) ==>
                if Interrupted(old(host.lower)) && !write.Durable? then r == Err(Error(LedgerUnavailable, None))
                else
                  && r == Classify(op, host.lower) && !Interrupted(host.lower) && Matches(host.Now())
                  && host.lower == if Interrupted(old(host.lower)) then Some(S.Recovered(old(host.lower).value).state)
                                   else old(host.lower)
    {
      if leaseBusy {
        return Err(Error(Busy, None));
      }
      var recovered := RecoverCurrentLedger(write);
      if recovered.Err? {
        return Err(recovered.error);
      }
      r := Classify(op, recovered.value);
    }

    /**
     * `reconcile_unknown`: lists candidates and records them, leaving the projection to the
     * caller. Listing issues no write, and a refused listing leaves the ledger as recovered.
     */
    method ReconcileUnknown(env: ReconcileEnv)
      returns (r: Result<(OperationId, seq<TaskId>, bool), Error>, ghost calls: nat)
      requires host.Valid() && Open(host.Now()) && MemIs(host.Now(), L.Unknown) && host.Now().config == config
      modifies host
      ensures host.Extends()
      ensures host.Now().ground.execs == old(host.Now()).ground.execs
      ensures SameShell(old(host.Now()), host.Now())
      ensures r.Ok? <==> Reconcilable(old(host.lower), env, calls)
      ensures r.Ok? ==>
                && r.value.1 == Listed(env.provider, calls) && StopsAt(env.provider, env.late, calls, r.value.2)
                && host.Now().flight == Reconciled(r.value.1, r.value.2)
                && old(host.lower).Some? && r.value.0 == old(host.lower).value.op
                && OwnsAt(host.Now().ground, r.value.0, S.ReconciliationObserved)
                && host.lower.value.candidates == r.value.1 && host.lower.value.complete == Some(r.value.2)
                && |r.value.1| <= S.MAX_CANDIDATES && Distinct(r.value.1)
      ensures r.Err? ==>
                && host.Now().flight == old(host.Now()).flight
                && r.error == ListingRefusal(old(host.lower), env, calls)
    {
      hide IsRun, S.WellFormed, L.WellFormed, Distinct, RestartEnabled, SubmitEnabled, ApplyRestart, ApplySubmit, Inv,
        Lists, Listed, Cursors, StopsAt, Refusal;
      calls := 0;
      UnsettledMatches(host.run, host.steps);
      if env.leaseBusy {
        return Err(Error(Busy, None)), calls;
      }
      InvAlways(host.run, host.steps, |host.steps|);
      if host.lower.Some? {
        LowerBelongs(host.Now());
        RecoveredUnsettled(host.lower.value);
      }
      var recovered := RecoverCurrentLedger(env.recovery);
      if recovered.Err? {
        return Err(recovered.error), calls;
      }
      if recovered.value.None? || !recovered.value.value.Latest().IsUnknown() {
        return Err(Error(NoUnknownOperation, None)), calls;
      }
      if !env.versionAccepted {
        return Err(Error(Version, None)), calls;
      }
      var listing, pages := ListCandidates(env.provider, env.late);
      calls := pages;
      if listing.Err? {
        return Err(Error(listing.error, None)), calls;
      }
      r := RecordListing(recovered.value.value, listing.value.0, listing.value.1, env.record);
    }

    /** Records a listing; the ledger refuses it only when its history is full. */
    method RecordListing(s: S.SubmitState, tasks: seq<TaskId>, complete: bool, write: Write)
      returns (r: Result<(OperationId, seq<TaskId>, bool), Error>)
      requires host.Valid() && Open(host.Now()) && MemIs(host.Now(), L.Unknown)
      requires host.lower == Some(s) && s.Latest().IsUnknown() && Matches(host.Now())
      requires |tasks| <= S.MAX_CANDIDATES && Distinct(tasks)
      modifies host
      ensures host.Extends() && SameShell(old(host.Now()), host.Now())
      ensures host.Now().ground.execs == old(host.Now()).ground.execs
      ensures r.Ok? ==>
                && r.value == (s.op, tasks, complete) && host.Now().flight == Reconciled(tasks, complete)
                && OwnsAt(host.Now().ground, s.op, S.ReconciliationObserved)
                && host.lower.value.candidates == tasks && host.lower.value.complete == Some(complete)
      ensures r.Ok? <==> |s.history| < S.MAX_HISTORY && write.Durable?
      ensures r.Err? ==>
                && host.Now().flight == old(host.Now()).flight
                && r.error == Error(if |s.history| < S.MAX_HISTORY then LedgerUnavailable else LedgerInvalid, None)
      ensures r == Err(Error(LedgerInvalid, None)) ==> host.lower == old(host.lower)
    {
      hide IsRun, S.WellFormed, L.WellFormed, Distinct, Inv, Enabled, Apply, S.RecordReconciliation;
      InvAlways(host.run, host.steps, |host.steps|);
      LowerBelongs(host.Now());
      S.ListingCapacity(s, tasks, complete);
      var ledger := new S.CloudSubmitLedger.FromState(s);
      var error := ledger.MarkReconciliation(tasks, complete);
      if error.Some? {
        return Err(Error(error.value, None));
      }
      S.ReconciliationWellFormed(s, tasks, complete);
      ListingStep(host.Now(), tasks, complete, write);
      var ok := host.PersistSubmit(ledger, write, Operation(ReconcileLower(tasks, complete, write)));
      if !ok {
        return Err(Error(LedgerUnavailable, None));
      }
      r := Ok((s.op, tasks, complete));
    }

    /**
     * `resolve_unknown`: a decision the ledger already carries is answered without a write, any
     * other one is refused, and a reconciled ledger records it.
     */
    method ResolveUnknown(op: OperationId, decision: Decision, env: ResolveEnv) returns (r: Result<Observation, Error>)
      requires host.Valid() && Open(host.Now()) && host.Now().mem.Some? && host.Now().mem.value.op == op
      requires host.Now().config == config
      requires DecisionAllowed(host.Now().mem.value, decision)
      modifies host
      ensures host.Extends() && SameShell(old(host.Now()), host.Now())
      ensures host.Now().ground.execs == old(host.Now()).ground.execs
      ensures r.Ok? ==>
                && host.Now().flight == Resolved(decision)
                && r.value == (match decision
                               case AdoptListedTask(task) => ObservedTask(task)
                               case AbandonAfterReconciliation(_) => ObservedAbandoned)
      ensures r.Err? ==>
                && host.Now().flight == old(host.Now()).flight
                && r.error == ResolveRefusal(old(host.Now()), op, decision, env)
      ensures OwnsDecision(old(host.Now()).ground, op) ==> host.lower == old(host.lower)
      ensures r.Ok? <==> Resolvable(old(host.Now()), op, decision, env)
    {
      hide IsRun, S.WellFormed, L.WellFormed, Enabled, Apply, OperationEnabled, RestartEnabled;
      if env.leaseBusy {
        return Err(Error(Busy, None));
      }
      if Interrupted(host.lower) && Matches(host.Now()) {
        RecoverableUnknown(host.Now(), env.recovery);
      }
      var recovered := RecoverCurrentLedger(env.recovery);
      if recovered.Err? {
        return Err(recovered.error);
      }
      if recovered.value.None? {
        return Err(Error(ResolutionUnavailable, None));
      }
      var s := recovered.value.value;
      if s.op != op {
        return Err(Error(OperationConflict, Some(s.op)));
      }
      if s.Latest() == S.TaskAdopted || s.Latest() == S.ExplicitlyAbandoned {
        if !AlreadyDecided(s, decision) {
          return Err(Error(ResolutionConflict, Some(op)));
        }
        ReplayStep(host.Now(), decision);
        host.Note(Operation(ResolveReplay(decision)));
      } else if s.Latest() != S.ReconciliationObserved {
        return Err(Error(ResolutionUnavailable, Some(op)));
      } else {
        var failure := RecordDecisionBelow(s, decision, env.record);
        if failure.Some? {
          return Err(failure.value);
        }
      }
      match decision {
        case AdoptListedTask(task) => r := Ok(ObservedTask(task));
        case AbandonAfterReconciliation(_) => r := Ok(ObservedAbandoned);
      }
    }

    method RecordDecisionBelow(s: S.SubmitState, decision: Decision, write: Write) returns (failure: Option<Error>)
      requires host.Valid() && Open(host.Now()) && host.Now().mem.Some? && host.Now().mem.value.op == s.op
      requires DecisionAllowed(host.Now().mem.value, decision)
      requires host.lower == Some(s) && s.Latest() == S.ReconciliationObserved && Matches(host.Now())
      modifies host
      ensures host.Extends() && SameShell(old(host.Now()), host.Now())
      ensures host.Now().ground.execs == old(host.Now()).ground.execs
      ensures failure.None? ==> host.Now().flight == Resolved(decision)
      ensures failure.Some? ==>
                host.Now().flight == old(host.Now()).flight && failure.value == DecisionRefusal(s, decision)
      ensures failure.None? <==>
                && |s.history| < S.MAX_HISTORY && write.Durable?
                && (decision.AdoptListedTask? ==> decision.task in s.candidates)
    {
      hide IsRun, S.WellFormed, L.WellFormed, Inv, Enabled, Apply, DecisionAllowed, S.RecordAdopted, S.RecordAbandoned;
      InvAlways(host.run, host.steps, |host.steps|);
      LowerBelongs(host.Now());
      S.DecisionCapacity(s, decision);
      var ledger := new S.CloudSubmitLedger.FromState(s);
      var error: Option<Category>;
      match decision {
        case AdoptListedTask(task) => error := ledger.MarkAdopted(task);
        case AbandonAfterReconciliation(_) => error := ledger.MarkAbandoned();
      }
      if error.Some? {
        return Some(Error(error.value, None));
      }
      S.DecisionWellFormed(s, decision);
      DecisionStep(host.Now(), decision, write);
      var ok := host.PersistSubmit(ledger, write, Operation(ResolveLower(decision, write)));
      failure := if ok then None else Some(Error(LedgerUnavailable, None));
    }
  }
}
