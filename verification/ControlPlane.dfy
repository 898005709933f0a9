/**
 * The control plane as interleaved critical sections: requests with session leases and lifecycle admissions
 * (apps/control-plane/src/routes.rs), the session registry and shutdown gate (state.rs) and the idempotency
 * registry (idempotency.rs). Every step is one lock scope or one drop; any request may take the next one.
 */
module ControlPlane {
  import opened CloudTypes
  import A = AppSessions
  import I = IdempotencyRegistry
  import S = Shutdown

  datatype Lease = Lease(session: A.SessionSeq, token: A.Token)

  /** A waiter's loop: it arms the notification, checks the entry, and sleeps if nothing is there. */
  datatype Watch = Awake | Armed(seen: nat) | Asleep(seen: nat)

  datatype Stage =
    | Arriving
    | Serving
    | Waiting(key: I.Key, residency: nat, watch: Watch)
    | Answered(residency: nat, response: Option<I.Response>)
    | Leaving
    | Left

  datatype Worker =
    | Idle
    | Working(key: I.Key, residency: nat, logout: bool, loggedOut: bool)
    | Finished(residency: nat)
    | Dropped(residency: nat)

  /** The admission shared by handler and worker: dropping it ends the operation, then the lease, then cleans up. */
  datatype Hold = Held | LeaseOnly | Cleaning | Closed

  datatype Request = Request(lease: Option<Lease>, stage: Stage, worker: Worker, hold: Hold) {
    predicate LeasesAny() { lease.Some? && (hold.Held? || hold.LeaseOnly?) }
    predicate Leases(s: A.SessionSeq) { LeasesAny() && lease.value.session == s }
    predicate Operates() { hold.Held? }
    predicate WaitsOn(k: I.Key) { stage.Waiting? && stage.key == k }
    predicate WorksOn(k: I.Key) { worker.Working? && worker.key == k }
    predicate Owns(n: nat) { !worker.Idle? && worker.residency == n }
    predicate Cleans(s: A.SessionSeq) { hold.Cleaning? && lease.Some? && lease.value.session == s }
  }

  type Requests = map<nat, Request>

  datatype SessionState = SessionState(live: A.Sessions, issued: A.SessionSeq, cleared: bool)

  /** `answers[n]` lists the responses completed under residency `n`; its length counts the notifications. */
  datatype RegistryState = RegistryState(entries: I.Entries, answers: seq<seq<I.Response>>, cleared: bool)

  datatype Caller =
    | Draining
    | Leading
    | Cleaned(outcome: S.Outcome)
    | SessionsGone(outcome: S.Outcome)
    | RegistryGone(outcome: S.Outcome)
    | Following
    | Returned(outcome: S.Outcome)

  datatype LifeState = LifeState(
    gate: S.Gate, callers: map<nat, Caller>, leader: Option<nat>, cleanups: seq<S.Outcome>)

  datatype World = World(sessions: SessionState, registry: RegistryState, life: LifeState, requests: Requests)

  const START := World(SessionState(map[], 0, false), RegistryState(map[], [], false),
                       LifeState(S.Gate(S.Running, 0), map[], None, []), map[])

  datatype SessionStep =
    | Authenticate(r: nat, session: A.SessionSeq, now: A.Time)
    | CreateSession(r: nat, now: A.Time, lifetime: A.Time, token: A.Token)
    | PruneSessions(now: A.Time, burned: bool)
    | LogOut(r: nat)
    | ReleaseLease(r: nat)

  datatype OperationStep =
    | Bootstrap(r: nat)
    | AdmitOperation(r: nat)
    | DropHandler(r: nat)
    | DropWorker(r: nat)
    | ReleaseOperation(r: nat)

  datatype RegistryStep =
    | Join(r: nat, key: I.Key, identity: I.RequestIdentity, now: I.Time, trimmed: I.Entries)
    | RefuseJoin(r: nat, key: I.Key, identity: I.RequestIdentity, now: I.Time, trimmed: I.Entries)
    | Arm(r: nat)
    | Check(r: nat)
    | Wake(r: nat)
    | CancelWait(r: nat)
    | Complete(r: nat, response: I.Response, disposition: I.Disposition, number: nat, trimmed: I.Entries)
    | Cleanup(r: nat)

  datatype ShutdownStep =
    | Enter(c: nat)
    | Drained(c: nat)
    | LowerCleanup(c: nat, sessionOk: bool, loginOk: bool)
    | ClearSessions(c: nat)
    | ClearRegistry(c: nat)
    | Finish(c: nat)
    | Follow(c: nat)

  datatype Step =
    | OnSessions(session: SessionStep)
    | OnOperation(operation: OperationStep)
    | OnRegistry(registry: RegistryStep)
    | OnShutdown(shutdown: ShutdownStep)

  // ----- sessions

  ghost predicate SessionEnabled(w: World, s: SessionStep) {
    match s
    case Authenticate(r, session, now) =>
      r !in w.requests && session in w.sessions.live && A.Usable(w.sessions.live[session], now)
    case CreateSession(r, now, lifetime, token) =>
      && r in w.requests && w.requests[r].stage.Serving? && w.requests[r].lease.None?
      && |A.AllUsable(w.sessions.live, now)| < A.MAX_APP_SESSIONS
      && A.Unused(A.Pruned(w.sessions.live, now), token)
    case PruneSessions(now, burned) => true
    case LogOut(r) =>
      && r in w.requests && w.requests[r].lease.Some?
      && w.requests[r].worker.Working? && w.requests[r].worker.logout && !w.requests[r].worker.loggedOut
    case ReleaseLease(r) =>
      r in w.requests && w.requests[r].lease.Some? && w.requests[r].stage.Left? && w.requests[r].hold.LeaseOnly?
  }

  ghost function SessionApply(w: World, s: SessionStep): World
    requires SessionEnabled(w, s)
  {
    match s
    case Authenticate(r, session, now) =>
      var live := A.Pruned(w.sessions.live, now);
      w.(sessions := w.sessions.(live := A.Leased(live, session)),
         requests := w.requests[r := Request(Some(Lease(session, live[session].token)), Arriving, Idle, LeaseOnly)])
    case CreateSession(r, now, lifetime, token) =>
      var n := w.sessions.issued + 1;
      var live := A.Pruned(w.sessions.live, now)[n := A.AppSession(token, now + lifetime, n, false, 0)];
      w.(sessions := w.sessions.(live := live, issued := n))
    case PruneSessions(now, burned) =>
      w.(sessions := w.sessions.(live := A.Pruned(w.sessions.live, now),
                                 issued := w.sessions.issued + if burned then 1 else 0))
    case LogOut(r) =>
      var x := w.requests[r];
      w.(sessions := w.sessions.(live := A.Invalidated(w.sessions.live, x.lease.value.session, x.lease.value.token)),
         requests := w.requests[r := x.(worker := x.worker.(loggedOut := true))])
    case ReleaseLease(r) =>
      var x := w.requests[r];
      var hold := if A.NeedsCleanup(w.sessions.live, x.lease.value.session) then Cleaning else Closed;
      w.(sessions := w.sessions.(live := A.Released(w.sessions.live, x.lease.value.session)),
         requests := w.requests[r := x.(hold := hold)])
  }

  // ----- operations

  predicate OperationEnabled(w: World, s: OperationStep) {
    match s
    case Bootstrap(r) => r !in w.requests && w.life.gate.phase.Running?
    case AdmitOperation(r) => r in w.requests && w.requests[r].stage.Arriving?
    case DropHandler(r) =>
      r in w.requests && (w.requests[r].stage.Serving? || w.requests[r].stage.Answered? || w.requests[r].stage.Leaving?)
    case DropWorker(r) => r in w.requests && w.requests[r].worker.Finished?
    case ReleaseOperation(r) =>
      && r in w.requests && w.requests[r].hold.Held? && w.requests[r].stage.Left?
      && (w.requests[r].worker.Idle? || w.requests[r].worker.Dropped?)
  }

  function OperationApply(w: World, s: OperationStep): World
    requires OperationEnabled(w, s)
  {
    match s
    case Bootstrap(r) =>
      w.(life := w.life.(gate := S.Admitted(w.life.gate)),
         requests := w.requests[r := Request(None, Serving, Idle, Held)])
    case AdmitOperation(r) =>
      if w.life.gate.phase.Running? then
        w.(life := w.life.(gate := S.Admitted(w.life.gate)),
           requests := w.requests[r := w.requests[r].(stage := Serving, hold := Held)])
      else w.(requests := w.requests[r := w.requests[r].(stage := Left)])
    case DropHandler(r) => w.(requests := w.requests[r := w.requests[r].(stage := Left)])
    case DropWorker(r) =>
      w.(requests := w.requests[r := w.requests[r].(worker := Dropped(w.requests[r].worker.residency))])
    case ReleaseOperation(r) =>
      w.(life := w.life.(gate := S.Dropped(w.life.gate)),
         requests := w.requests[r := w.requests[r].(hold := if w.requests[r].lease.Some? then LeaseOnly else Closed)])
  }

  // ----- the idempotency registry

  ghost predicate RegistryEnabled(w: World, s: RegistryStep) {
    s.r in w.requests &&
    var x := w.requests[s.r];
    match s
    case Join(_, key, identity, now, trimmed) =>
      && x.stage.Serving? && x.worker.Idle? && x.lease.Some?
      && (identity.logoutSession.Some? ==> identity.logoutSession.value == x.lease.value.session)
      && I.Evicted(w.registry.entries, trimmed)
      && I.Trims(w.registry.entries, trimmed, now, key, identity.StorageBytes())
      && (if key in trimmed then trimmed[key].identity == identity else !I.Crowded(trimmed, identity.StorageBytes()))
    case RefuseJoin(_, key, identity, now, trimmed) =>
      && x.stage.Serving?
      && I.Evicted(w.registry.entries, trimmed)
      && I.Trims(w.registry.entries, trimmed, now, key, identity.StorageBytes())
      && (if key in trimmed then trimmed[key].identity != identity else I.Crowded(trimmed, identity.StorageBytes()))
    case Arm(_) => x.stage.Waiting? && x.stage.watch.Awake? && x.stage.residency < |w.registry.answers|
    case Check(_) => x.stage.Waiting? && x.stage.watch.Armed?
    case Wake(_) =>
      && x.stage.Waiting? && x.stage.watch.Asleep? && x.stage.residency < |w.registry.answers|
      && |w.registry.answers[x.stage.residency]| > x.stage.watch.seen
    case CancelWait(_) => x.stage.Waiting?
    case Complete(_, response, disposition, number, trimmed) =>
      && x.worker.Working? && x.lease.Some?
      && (disposition.RemoveAfterAuthSession? ==>
            x.worker.logout && x.worker.loggedOut && disposition.session == x.lease.value.session)
      && I.Evicted(I.Answered(w.registry.entries, x.worker.key, response, disposition, number), trimmed)
      && I.OnlyExcessWent(I.Answered(w.registry.entries, x.worker.key, response, disposition, number), trimmed)
      && (x.worker.key in w.registry.entries ==> x.worker.key in trimmed)
    case Cleanup(_) => x.hold.Cleaning? && x.lease.Some?
  }

  function Joined(g: RegistryState, key: I.Key, identity: I.RequestIdentity, trimmed: I.Entries): RegistryState {
    if key in trimmed then
      g.(entries := trimmed[key := trimmed[key].(waiters := trimmed[key].waiters + 1)])
    else
      g.(entries := trimmed[key := I.NewEntry(identity, |g.answers|)], answers := g.answers + [[]])
  }

  function Joining(x: Request, g: RegistryState, key: I.Key, identity: I.RequestIdentity, trimmed: I.Entries): Request {
    if key in trimmed then x.(stage := Waiting(key, trimmed[key].residency, Awake))
    else x.(stage := Waiting(key, |g.answers|, Awake),
            worker := Working(key, |g.answers|, identity.logoutSession.Some?, false))
  }

  /** The notifier that rings is the one found in the entry under the key. */
  function Rung(g: RegistryState, key: I.Key, response: I.Response): seq<seq<I.Response>> {
    if key in g.entries && g.entries[key].state.InFlight? && g.entries[key].residency < |g.answers| then
      var n := g.entries[key].residency;
      g.answers[n := g.answers[n] + [response]]
    else g.answers
  }

  function Checked(x: Request, entries: I.Entries): Request
    requires x.stage.Waiting? && x.stage.watch.Armed?
  {
    match I.Taken(entries, x.stage.key)
    case Pending => x.(stage := x.stage.(watch := Asleep(x.stage.watch.seen)))
    case Ready(response) => x.(stage := Answered(x.stage.residency, Some(response)))
    case Missing => x.(stage := Answered(x.stage.residency, None))
  }

  function RegistryApply(w: World, s: RegistryStep): World
    requires RegistryEnabled(w, s)
  {
    var x, g := w.requests[s.r], w.registry;
    match s
    case Join(r, key, identity, _, trimmed) =>
      w.(registry := Joined(g, key, identity, trimmed),
         requests := w.requests[r := Joining(x, g, key, identity, trimmed)])
    case RefuseJoin(r, _, _, _, trimmed) =>
      w.(registry := g.(entries := trimmed), requests := w.requests[r := x.(stage := Leaving)])
    case Arm(r) =>
      w.(requests := w.requests[r := x.(stage := x.stage.(watch := Armed(|g.answers[x.stage.residency]|)))])
    case Check(r) =>
      w.(registry := if I.Taken(g.entries, x.stage.key).Ready? then
                       g.(entries := I.WaiterLeaves(g.entries, x.stage.key))
                     else g,
         requests := w.requests[r := Checked(x, g.entries)])
    case Wake(r) => w.(requests := w.requests[r := x.(stage := x.stage.(watch := Awake))])
    case CancelWait(r) =>
      w.(registry := g.(entries := I.WaiterLeaves(g.entries, x.stage.key)),
         requests := w.requests[r := x.(stage := Leaving)])
    case Complete(r, response, disposition, number, trimmed) =>
      w.(registry := g.(entries := trimmed, answers := Rung(g, x.worker.key, response)),
         requests := w.requests[r := x.(worker := Finished(x.worker.residency))])
    case Cleanup(r) =>
      w.(registry := g.(entries := g.entries - I.BoundToSession(g.entries, x.lease.value.session)),
         requests := w.requests[r := x.(hold := Closed)])
  }

  // ----- shutdown

  predicate ShutdownEnabled(w: World, s: ShutdownStep) {
    var l := w.life;
    match s
    case Enter(c) => c !in l.callers
    case Drained(c) => c in l.callers && l.callers[c].Draining? && l.gate.active == 0
    case LowerCleanup(c, _, _) => c in l.callers && l.callers[c].Leading?
    case ClearSessions(c) => c in l.callers && l.callers[c].Cleaned?
    case ClearRegistry(c) => c in l.callers && l.callers[c].SessionsGone?
    case Finish(c) => c in l.callers && l.callers[c].RegistryGone?
    case Follow(c) => c in l.callers && l.callers[c].Following? && l.gate.phase.Complete?
  }

  ghost function ShutdownLife(l: LifeState, s: ShutdownStep): LifeState
    requires match s
             case Enter(c) => true
             case Drained(c) => true
             case LowerCleanup(c, _, _) => true
             case ClearSessions(c) => c in l.callers && l.callers[c].Cleaned?
             case ClearRegistry(c) => c in l.callers && l.callers[c].SessionsGone?
             case Finish(c) => c in l.callers && l.callers[c].RegistryGone?
             case Follow(c) => l.gate.phase.Complete?
  {
    match s
    case Enter(c) =>
      (match l.gate.phase
       case Running =>
         l.(gate := l.gate.(phase := S.Draining), callers := l.callers[c := Draining], leader := Some(c))
       case Draining => l.(callers := l.callers[c := Following])
       case Complete(outcome) => l.(callers := l.callers[c := Returned(outcome)]))
    case Drained(c) => l.(callers := l.callers[c := Leading])
    case LowerCleanup(c, sessionOk, loginOk) =>
      l.(callers := l.callers[c := Cleaned(S.Combined(sessionOk, loginOk))],
         cleanups := l.cleanups + [S.Combined(sessionOk, loginOk)])
    case ClearSessions(c) => l.(callers := l.callers[c := SessionsGone(l.callers[c].outcome)])
    case ClearRegistry(c) => l.(callers := l.callers[c := RegistryGone(l.callers[c].outcome)])
    case Finish(c) =>
      l.(gate := l.gate.(phase := S.Complete(l.callers[c].outcome)),
         callers := l.callers[c := Returned(l.callers[c].outcome)])
    case Follow(c) => l.(callers := l.callers[c := Returned(l.gate.phase.outcome)])
  }

  ghost function ShutdownApply(w: World, s: ShutdownStep): World
    requires ShutdownEnabled(w, s)
  {
    var next := w.(life := ShutdownLife(w.life, s));
    match s
    case ClearSessions(_) => next.(sessions := w.sessions.(live := map[], cleared := true))
    case ClearRegistry(_) => next.(registry := w.registry.(entries := map[], cleared := true))
    case _ => next
  }

  // ----- runs

  ghost predicate Enabled(w: World, s: Step) {
    match s
    case OnSessions(t) => SessionEnabled(w, t)
    case OnOperation(t) => OperationEnabled(w, t)
    case OnRegistry(t) => RegistryEnabled(w, t)
    case OnShutdown(t) => ShutdownEnabled(w, t)
  }

  ghost function Apply(w: World, s: Step): World
    requires Enabled(w, s)
  {
    match s
    case OnSessions(t) => SessionApply(w, t)
    case OnOperation(t) => OperationApply(w, t)
    case OnRegistry(t) => RegistryApply(w, t)
    case OnShutdown(t) => ShutdownApply(w, t)
  }

  ghost predicate IsRun(run: seq<World>, steps: seq<Step>) {
    && |run| == |steps| + 1 && run[0] == START
    && forall i :: 0 <= i < |steps| ==> Enabled(run[i], steps[i]) && run[i + 1] == Apply(run[i], steps[i])
  }
}
