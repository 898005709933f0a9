/**
 * The three registries at work: every lock scope of a request, a worker or a shutdown caller, carried
 * out on the mutable registries, is exactly one step of `ControlPlane`. So whatever the server does in
 * any interleaving is a run, and what is proved of runs holds of the registries themselves.
 */
module ControlPlaneServer {
  import opened CloudTypes
  import opened ControlPlane
  import opened ControlPlaneInvariant
  import opened ControlPlaneSteps
  import opened ControlPlaneTheorems
  import A = AppSessions
  import I = IdempotencyRegistry
  import S = Shutdown

  lemma RefusalIsStep(w: World, s: RegistryStep)
    requires s.RefuseJoin? && s.r in w.requests && w.requests[s.r].stage.Serving?
    requires I.Evicted(w.registry.entries, s.trimmed)
    requires I.Trims(w.registry.entries, s.trimmed, s.now, s.key, s.identity.StorageBytes())
    requires if s.key in s.trimmed then s.trimmed[s.key].identity != s.identity
             else I.Crowded(s.trimmed, s.identity.StorageBytes())
    ensures Enabled(w, OnRegistry(s))
    ensures var d := Apply(w, OnRegistry(s));
            && d.registry == w.registry.(entries := s.trimmed) && d.sessions == w.sessions && d.life == w.life
  {
    hide I.Evicted, I.Trims, I.Crowded;
  }

  lemma JoiningIsStep(w: World, s: RegistryStep)
    requires s.Join? && s.r in w.requests && w.requests[s.r].lease.Some?
    requires w.requests[s.r].stage.Serving? && w.requests[s.r].worker.Idle?
    requires s.identity.logoutSession.Some? ==>
               s.identity.logoutSession.value == w.requests[s.r].lease.value.session
    requires I.Evicted(w.registry.entries, s.trimmed)
    requires I.Trims(w.registry.entries, s.trimmed, s.now, s.key, s.identity.StorageBytes())
    requires if s.key in s.trimmed then s.trimmed[s.key].identity == s.identity
             else !I.Crowded(s.trimmed, s.identity.StorageBytes())
    ensures Enabled(w, OnRegistry(s))
    ensures var d, r, key := Apply(w, OnRegistry(s)), s.r, s.key;
            && d.registry == Joined(w.registry, key, s.identity, s.trimmed)
            && d.sessions == w.sessions && d.life == w.life
            && |d.registry.answers| == |w.registry.answers| + (if key in s.trimmed then 0 else 1)
            && r in d.requests && key in d.registry.entries
            && d.requests[r].stage == Waiting(key, d.registry.entries[key].residency, Awake)
            && (key !in s.trimmed <==> d.requests[r].worker.Working?)
  {
    hide I.Evicted, I.Trims, I.Crowded;
  }

  lemma CreationIsStep(w: World, r: nat, now: A.Time, lifetime: A.Time, token: A.Token)
    requires r in w.requests && w.requests[r].stage.Serving? && w.requests[r].lease.None?
    requires |A.AllUsable(w.sessions.live, now)| < A.MAX_APP_SESSIONS
    requires A.Unused(A.Pruned(w.sessions.live, now), token)
    ensures Enabled(w, OnSessions(SessionStep.CreateSession(r, now, lifetime, token)))
    ensures var n := w.sessions.issued + 1;
            Apply(w, OnSessions(SessionStep.CreateSession(r, now, lifetime, token))) ==
            w.(sessions := w.sessions.(
                 live := A.Pruned(w.sessions.live, now)[n := A.AppSession(token, now + lifetime, n, false, 0)],
                 issued := n))
  {
    hide A.Pruned, A.Unused, A.AllUsable;
  }

  lemma PruningIsStep(w: World, now: A.Time, burned: bool)
    ensures Enabled(w, OnSessions(PruneSessions(now, burned)))
    ensures Apply(w, OnSessions(PruneSessions(now, burned))) ==
            w.(sessions := w.sessions.(live := A.Pruned(w.sessions.live, now),
                                       issued := w.sessions.issued + if burned then 1 else 0))
  {
    hide A.Pruned;
  }

  class Server {
    const idempotency: I.Idempotency
    const sessions: A.AppSessionRegistry
    const lifecycle: S.Lifecycle
    ghost var run: seq<World>
    ghost var steps: seq<Step>

    /** The world is what the three registries hold. */
    ghost predicate Mirrors(w: World)
      reads idempotency, sessions, lifecycle
    {
      && w.registry.entries == idempotency.entries && |w.registry.answers| == idempotency.residencies
      && w.sessions.live == sessions.View() && w.sessions.issued == sessions.issuanceSeq
      && w.life.gate == lifecycle.View()
    }

    ghost predicate Valid()
      reads this, idempotency, sessions, lifecycle
    {
      && IsRun(run, steps) && idempotency.Valid() && sessions.Valid() && Mirrors(run[|steps|])
    }

    ghost function Now(): World
      requires Valid()
      reads this, idempotency, sessions, lifecycle
    {
      run[|steps|]
    }

    constructor ()
      ensures Valid() && Now() == START
    {
      idempotency := new I.Idempotency();
      sessions := new A.AppSessionRegistry();
      lifecycle := new S.Lifecycle();
      run, steps := [START], [];
    }

    ghost method Note(step: Step)
      requires IsRun(run, steps) && Enabled(run[|steps|], step)
      modifies this`run, this`steps
      ensures IsRun(run, steps) && steps == old(steps) + [step]
      ensures run == old(run) + [Apply(old(run[|steps|]), step)]
    {
      hide Enabled, Apply;
      run, steps := run + [Apply(run[|steps|], step)], steps + [step];
    }

    // ----- the lifecycle gate

    /** `bootstrap_session` up to its admission. */
    method Bootstrap(r: nat) returns (ok: bool)
      requires Valid() && r !in Now().requests
      modifies this, lifecycle
      ensures Valid() && ok == old(lifecycle.phase).Running?
      ensures steps == old(steps) + if ok then [OnOperation(OperationStep.Bootstrap(r))] else []
    {
      ok := lifecycle.Admit();
      if ok {
        Note(OnOperation(OperationStep.Bootstrap(r)));
      }
    }

    method AdmitOperation(r: nat) returns (ok: bool)
      requires Valid() && OperationEnabled(Now(), OperationStep.AdmitOperation(r))
      modifies this, lifecycle
      ensures Valid() && ok == old(lifecycle.phase).Running?
      ensures steps == old(steps) + [OnOperation(OperationStep.AdmitOperation(r))]
    {
      ok := lifecycle.Admit();
      Note(OnOperation(OperationStep.AdmitOperation(r)));
    }

    method ReleaseOperation(r: nat)
      requires Valid() && OperationEnabled(Now(), OperationStep.ReleaseOperation(r))
      modifies this, lifecycle
      ensures Valid() && steps == old(steps) + [OnOperation(OperationStep.ReleaseOperation(r))]
    {
      lifecycle.DropOperation();
      Note(OnOperation(OperationStep.ReleaseOperation(r)));
    }

    // ----- sessions

    method Authenticate(r: nat, candidate: A.Token, wellFormed: bool, now: A.Time) returns (s: Option<A.SessionSeq>)
      requires Valid() && r !in Now().requests
      modifies this, sessions
      ensures Valid()
      ensures steps == old(steps) + [OnSessions(if s.Some? then SessionStep.Authenticate(r, s.value, now)
                                                else PruneSessions(now, false))]
      ensures s.Some? ==> r in Now().requests && Now().requests[r].lease == Some(Lease(s.value, candidate))
      ensures s.Some? ==>
                && s.value in old(sessions.View()) && old(sessions.View())[s.value].token == candidate
                && A.Usable(old(sessions.View())[s.value], now)
      ensures s.Some? <==> wellFormed && A.Recognized(old(sessions.View()), candidate, now)
    {
      s := sessions.Authenticate(candidate, wellFormed, now);
      Note(OnSessions(if s.Some? then SessionStep.Authenticate(r, s.value, now) else PruneSessions(now, false)));
    }

    method CreateSession(r: nat, now: A.Time, lifetime: A.Time, draws: seq<A.Token>)
      returns (c: A.Created, ghost step: SessionStep)
      requires Valid() && |draws| <= A.MAX_COOKIE_DRAWS
      requires r in Now().requests && Now().requests[r].stage.Serving? && Now().requests[r].lease.None?
      modifies this, sessions
      ensures Valid() && steps == old(steps) + [OnSessions(step)]
      ensures if c.Created? then step.CreateSession? && step == SessionStep.CreateSession(r, now, lifetime, step.token)
              else step.PruneSessions? && step == PruneSessions(now, step.burned)
      ensures c == A.NotCreated(A.SessionLimit) <==> |A.AllUsable(old(sessions.View()), now)| >= A.MAX_APP_SESSIONS
    {
      hide A.Pruned, A.Sound, A.Unused, A.AllUsable, Enabled, Apply;
      ghost var w, live, issued := Now(), sessions.View(), sessions.issuanceSeq;
      c := sessions.Create(now, lifetime, draws);
      if c.Created? {
        ghost var i: nat :| A.FirstUnused(A.Pruned(live, now), draws, i)
          && sessions.View() == A.Pruned(live, now)[c.session :=
                                   A.AppSession(draws[i], now + lifetime, c.session, false, 0)];
        step := SessionStep.CreateSession(r, now, lifetime, draws[i]);
        CreationIsStep(w, r, now, lifetime, draws[i]);
      } else {
        step := PruneSessions(now, sessions.issuanceSeq != issued);
        PruningIsStep(w, now, sessions.issuanceSeq != issued);
      }
      Note(OnSessions(step));
    }

    method LogOut(r: nat, lease: Lease)
      requires Valid() && SessionEnabled(Now(), SessionStep.LogOut(r)) && Now().requests[r].lease == Some(lease)
      modifies this, sessions
      ensures Valid() && steps == old(steps) + [OnSessions(SessionStep.LogOut(r))]
    {
      sessions.Invalidate(lease.token, lease.session);
      Note(OnSessions(SessionStep.LogOut(r)));
    }

    /** The first critical section of a lease's drop, and whether the second follows. */
    method ReleaseLease(r: nat, lease: Lease) returns (cleanup: bool)
      requires Valid() && SessionEnabled(Now(), SessionStep.ReleaseLease(r)) && Now().requests[r].lease == Some(lease)
      modifies this, sessions
      ensures Valid() && steps == old(steps) + [OnSessions(SessionStep.ReleaseLease(r))]
      ensures r in Now().requests && (cleanup <==> Now().requests[r].hold == Cleaning)
    {
      cleanup := sessions.Release(lease.session);
      Note(OnSessions(SessionStep.ReleaseLease(r)));
    }

    /** The second critical section. */
    method Cleanup(r: nat, lease: Lease)
      requires Valid() && RegistryEnabled(Now(), RegistryStep.Cleanup(r)) && Now().requests[r].lease == Some(lease)
      modifies this, idempotency
      ensures Valid() && steps == old(steps) + [OnRegistry(RegistryStep.Cleanup(r))]
    {
      idempotency.ReleaseAuthSession(lease.session);
      Note(OnRegistry(RegistryStep.Cleanup(r)));
    }

    // ----- the idempotency registry

    /** Admission of a key: an owner or a waiter joins, anyone else is refused. */
    method Admit(r: nat, key: I.Key, identity: I.RequestIdentity, now: I.Time) returns (a: I.Admission)
      requires Valid() && r in Now().requests && Now().requests[r].lease.Some?
      requires Now().requests[r].stage.Serving? && Now().requests[r].worker.Idle?
      requires identity.logoutSession.Some? ==> identity.logoutSession.value == Now().requests[r].lease.value.session
      modifies this, idempotency
      ensures Valid()
      ensures a.Refused? ==>
                exists trimmed :: steps == old(steps) + [OnRegistry(RefuseJoin(r, key, identity, now, trimmed))]
      ensures a.Admission? ==>
                && (exists trimmed :: steps == old(steps) + [OnRegistry(Join(r, key, identity, now, trimmed))])
                && r in Now().requests && Now().requests[r].stage == Waiting(key, a.residency, Awake)
                && (a.owner <==> Now().requests[r].worker.Working?)
    {
      hide I.ExistingKey, I.NewKey, I.Expired, I.Evicted, I.Accounted, I.Trims, I.Crowded, I.Lapsed, I.LostToRoom,
        Enabled, Apply;
      ghost var w := Now();
      idempotency.StatesMatch();
      assert StatesMatch(w.registry.entries);
      hide StatesMatch;
      a := idempotency.Admit(key, identity, now);
      ghost var trimmed := AdmissionIsJoin(w.registry, idempotency.entries, now, key, identity, a);
      if a.Refused? {
        RefusalIsStep(w, RefuseJoin(r, key, identity, now, trimmed));
        Note(OnRegistry(RefuseJoin(r, key, identity, now, trimmed)));
      } else {
        JoiningIsStep(w, Join(r, key, identity, now, trimmed));
        Note(OnRegistry(Join(r, key, identity, now, trimmed)));
      }
    }

    /** The worker stores its response. */
    method Complete(r: nat, key: I.Key, response: I.Response, disposition: I.Disposition)
      requires Valid() && r in Now().requests && Now().requests[r].lease.Some?
      requires Now().requests[r].worker.Working? && Now().requests[r].worker.key == key
      requires disposition.RemoveAfterAuthSession? ==>
                 && Now().requests[r].worker.logout && Now().requests[r].worker.loggedOut
                 && disposition.session == Now().requests[r].lease.value.session
      requires response.StorageBytes() <= I.MAX_RESPONSE_BYTES
      modifies this, idempotency
      ensures Valid()
      ensures exists n, trimmed ::
                steps == old(steps) + [OnRegistry(RegistryStep.Complete(r, response, disposition, n, trimmed))]
    {
      hide I.Evicted, I.OldestFirst, I.OnlyExcessWent, I.Accounted, I.Answered;
      idempotency.Complete(key, response, disposition);
      Note(OnRegistry(RegistryStep.Complete(r, response, disposition, idempotency.completionSeq, idempotency.entries)));
    }

    /** One look of a waiter whose notification is armed. */
    method Check(r: nat, key: I.Key) returns (state: I.WaitState)
      requires Valid() && RegistryEnabled(Now(), RegistryStep.Check(r)) && Now().requests[r].stage.key == key
      modifies this, idempotency
      ensures Valid() && steps == old(steps) + [OnRegistry(RegistryStep.Check(r))]
      ensures r in Now().requests
      ensures state.Ready? ==>
                Now().requests[r].stage == Answered(old(Now()).requests[r].stage.residency, Some(state.response))
      ensures state.Pending? ==> Now().requests[r].stage.Waiting? && Now().requests[r].stage.watch.Asleep?
      ensures !state.Missing?
    {
      AnswerIsThere(run, steps, r);
      state := idempotency.TakeResponse(key);
      Note(OnRegistry(RegistryStep.Check(r)));
    }

    method CancelWait(r: nat, key: I.Key)
      requires Valid() && RegistryEnabled(Now(), RegistryStep.CancelWait(r)) && Now().requests[r].stage.key == key
      modifies this, idempotency
      ensures Valid() && steps == old(steps) + [OnRegistry(RegistryStep.CancelWait(r))]
    {
      idempotency.DropWaiter(key);
      Note(OnRegistry(RegistryStep.CancelWait(r)));
    }

    // ----- shutdown

    /** A caller's pass through `begin_shutdown`: the first one drains, later ones follow or return. */
    method EnterShutdown(c: nat) returns (role: S.Role)
      requires Valid() && c !in Now().life.callers
      modifies this, lifecycle
      ensures Valid() && steps == old(steps) + [OnShutdown(Enter(c))]
      ensures c in Now().life.callers
      ensures role.Drains? || role.Leads? <==> Now().life.callers[c] == Draining
      ensures role.Follows? <==> Now().life.callers[c] == Following
      ensures role.Completed? ==> Now().life.callers[c] == Returned(role.outcome)
    {
      role := lifecycle.BeginShutdown(false);
      Note(OnShutdown(Enter(c)));
    }

    /** The drainer looks again; it leads once nothing is active. */
    method Drain(c: nat) returns (role: S.Role)
      requires Valid() && c in Now().life.callers && Now().life.callers[c].Draining?
      modifies this, lifecycle
      ensures Valid() && (role.Leads? || role.Drains?)
      ensures steps == old(steps) + if role.Leads? then [OnShutdown(Drained(c))] else []
    {
      DrainerDrains(run, steps, c);
      role := lifecycle.BeginShutdown(true);
      if role.Leads? {
        Note(OnShutdown(Drained(c)));
      }
    }

    /** A follower looks again; it returns what the leader stored. */
    method FollowUp(c: nat) returns (role: S.Role)
      requires Valid() && c in Now().life.callers && Now().life.callers[c].Following?
      modifies this, lifecycle
      ensures Valid() && (role.Follows? || role.Completed?)
      ensures steps == old(steps) + if role.Completed? then [OnShutdown(Follow(c))] else []
      ensures role.Completed? ==> c in Now().life.callers && Now().life.callers[c] == Returned(role.outcome)
    {
      FollowerWaits(run, steps, c);
      role := lifecycle.BeginShutdown(false);
      if role.Completed? {
        Note(OnShutdown(Follow(c)));
      }
    }

    /** The leader's four sections, with other threads free to run in between. */
    method CleanUpBelow(c: nat, sessionOk: bool, loginOk: bool) returns (outcome: S.Outcome)
      requires Valid() && c in Now().life.callers && Now().life.callers[c].Leading?
      modifies this
      ensures Valid() && steps == old(steps) + [OnShutdown(LowerCleanup(c, sessionOk, loginOk))]
      ensures c in Now().life.callers && Now().life.callers[c] == Cleaned(outcome)
      ensures ToldBy(outcome, sessionOk, loginOk)
    {
      outcome := S.Clean;
      if !sessionOk {
        outcome := S.Failed(S.SessionFailed);
      } else if !loginOk {
        outcome := S.Failed(S.LoginFailed);
      }
      Note(OnShutdown(LowerCleanup(c, sessionOk, loginOk)));
    }

    method ForgetSessions(c: nat)
      requires Valid() && c in Now().life.callers && Now().life.callers[c].Cleaned?
      modifies this, sessions
      ensures Valid() && steps == old(steps) + [OnShutdown(ClearSessions(c))] && sessions.View() == map[]
    {
      sessions.Clear();
      Note(OnShutdown(ClearSessions(c)));
    }

    method ForgetEntries(c: nat)
      requires Valid() && c in Now().life.callers && Now().life.callers[c].SessionsGone?
      modifies this, idempotency
      ensures Valid() && steps == old(steps) + [OnShutdown(ClearRegistry(c))] && idempotency.entries == map[]
    {
      idempotency.Clear();
      Note(OnShutdown(ClearRegistry(c)));
    }

    method StoreOutcome(c: nat, outcome: S.Outcome)
      requires Valid() && c in Now().life.callers && Now().life.callers[c] == RegistryGone(outcome)
      modifies this, lifecycle
      ensures Valid() && steps == old(steps) + [OnShutdown(Finish(c))]
      ensures lifecycle.phase == S.Phase.Complete(outcome)
    {
      lifecycle.ForceComplete(outcome);
      Note(OnShutdown(Finish(c)));
    }
  }

  /** A waiter that looks finds its own entry. */
  lemma AnswerIsThere(run: seq<World>, steps: seq<Step>, r: nat)
    requires IsRun(run, steps) && r in run[|steps|].requests && run[|steps|].requests[r].stage.Waiting?
    ensures run[|steps|].requests[r].stage.key in run[|steps|].registry.entries
  {
    InvAlways(run, steps, |steps|);
    WaiterFacts(run[|steps|], r);
  }

  lemma DrainerDrains(run: seq<World>, steps: seq<Step>, c: nat)
    requires IsRun(run, steps) && c in run[|steps|].life.callers && run[|steps|].life.callers[c].Draining?
    ensures run[|steps|].life.gate.phase.Draining?
  {
    var w := run[|steps|];
    InvAlways(run, steps, |steps|);
    DrainPart(w);
    hide Inv, IsRun;
    OnlyLeaderActs(w.life, c, w.sessions.cleared, w.registry.cleared);
  }

  lemma FollowerWaits(run: seq<World>, steps: seq<Step>, c: nat)
    requires IsRun(run, steps) && c in run[|steps|].life.callers && run[|steps|].life.callers[c].Following?
    ensures !run[|steps|].life.gate.phase.Running?
  {
    InvAlways(run, steps, |steps|);
    DrainPart(run[|steps|]);
  }
}
