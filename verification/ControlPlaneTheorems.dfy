/** What the control plane promises over whole runs: single flight, logout cleanup and one shutdown. */
module ControlPlaneTheorems {
  import opened CloudTypes
  import opened ControlPlane
  import opened ControlPlaneInvariant
  import opened ControlPlaneSteps
  import A = AppSessions
  import I = IdempotencyRegistry
  import S = Shutdown

  // ----- single flight

  /** Residencies, their answers and their owners only ever accumulate. */
  predicate Grows(w: World, w': World) {
    && |w.registry.answers| <= |w'.registry.answers|
    && (forall n :: 0 <= n < |w.registry.answers| ==> w.registry.answers[n] <= w'.registry.answers[n])
    && (forall r :: r in w.requests ==> r in w'.requests && Keeps(w.requests[r], w'.requests[r]))
  }

  predicate Keeps(x: Request, y: Request) {
    !x.worker.Idle? ==> !y.worker.Idle? && y.worker.residency == x.worker.residency
  }

  /** Changing one request, or adding one, without letting go of what it owns. */
  lemma ChangeGrows(w: World, w': World, r: nat, x: Request)
    requires w'.registry.answers == w.registry.answers && w'.requests == w.requests[r := x]
    requires r in w.requests ==> Keeps(w.requests[r], x)
    ensures Grows(w, w')
  {
  }

  lemma RegistryGrows(w: World, w': World, s: RegistryStep)
    requires RegistryEnabled(w, s) && w' == RegistryApply(w, s)
    ensures Grows(w, w')
  {
    hide I.Evicted, I.Answered, I.BoundToSession, I.WaiterLeaves, I.Trims, I.Crowded, I.OnlyExcessWent;
    match s {
      case Join(_, _, _, _, _) =>
      case Complete(_, _, _, _, _) =>
      case _ => ChangeGrows(w, w', s.r, w'.requests[s.r]);
    }
  }

  lemma StepGrows(w: World, w': World, s: Step)
    requires Enabled(w, s) && w' == Apply(w, s)
    ensures Grows(w, w')
  {
    match s {
      case OnSessions(t) =>
        hide A.Pruned, A.Leased, A.Invalidated, A.Released, A.Alive, A.Unused;
        match t {
          case CreateSession(_, _, _, _) =>
          case PruneSessions(_, _) =>
          case _ => ChangeGrows(w, w', t.r, w'.requests[t.r]);
        }
      case OnOperation(t) => ChangeGrows(w, w', t.r, w'.requests[t.r]);
      case OnRegistry(t) =>
        hide RegistryEnabled, RegistryApply;
        RegistryGrows(w, w', t);
      case OnShutdown(t) => hide ShutdownLife;
    }
  }

  lemma RunStep(run: seq<World>, steps: seq<Step>, i: nat)
    requires IsRun(run, steps) && i < |steps|
    ensures Enabled(run[i], steps[i]) && run[i + 1] == Apply(run[i], steps[i])
  {
    hide Enabled, Apply;
  }

  lemma GrowsOn(a: World, b: World, c: World)
    requires Grows(a, b) && Grows(b, c)
    ensures Grows(a, c)
  {
    forall n | 0 <= n < |a.registry.answers| ensures a.registry.answers[n] <= c.registry.answers[n] {
      assert a.registry.answers[n] <= b.registry.answers[n] <= c.registry.answers[n];
    }
    forall r | r in a.requests ensures r in c.requests && Keeps(a.requests[r], c.requests[r]) {
      assert Keeps(a.requests[r], b.requests[r]) && Keeps(b.requests[r], c.requests[r]);
    }
  }

  lemma {:induction false} RunGrows(run: seq<World>, steps: seq<Step>, i: nat, j: nat)
    requires IsRun(run, steps) && i <= j < |run|
    ensures Grows(run[i], run[j])
    decreases j - i
  {
    hide Apply, Enabled;
    if i < j {
      RunGrows(run, steps, i, j - 1);
      RunStep(run, steps, j - 1);
      hide IsRun, Grows;
      StepGrows(run[j - 1], run[j], steps[j - 1]);
      GrowsOn(run[i], run[j - 1], run[j]);
    }
  }

  /** At any moment a residency has exactly one owner and at most one answer. */
  lemma OneOwnerOneAnswer(run: seq<World>, steps: seq<Step>, i: nat, n: nat)
    requires IsRun(run, steps) && i < |run| && n < |run[i].registry.answers|
    ensures exists r :: r in run[i].requests && run[i].requests[r].Owns(n)
    ensures |run[i].registry.answers[n]| <= 1
  {
    InvAlways(run, steps, i);
    assert Owned(run[i].requests, n);
  }

  /** Two owners of one residency, at whatever two moments, are the same request. */
  lemma OwnerIsUnique(run: seq<World>, steps: seq<Step>, i: nat, j: nat, r: nat, p: nat, n: nat)
    requires IsRun(run, steps) && i <= j < |run|
    requires r in run[i].requests && run[i].requests[r].Owns(n)
    requires p in run[j].requests && run[j].requests[p].Owns(n)
    ensures r == p
  {
    RunGrows(run, steps, i, j);
    InvAlways(run, steps, j);
    assert Keeps(run[i].requests[r], run[j].requests[r]);
    hide IsRun;
  }

  /** Everybody who is answered under one residency, whenever that is, gets the same response. */
  lemma SameAnswer(run: seq<World>, steps: seq<Step>, i: nat, j: nat, r: nat, p: nat)
    requires IsRun(run, steps) && i <= j < |run|
    requires r in run[i].requests && run[i].requests[r].stage.Answered?
    requires p in run[j].requests && run[j].requests[p].stage.Answered?
    requires run[i].requests[r].stage.residency == run[j].requests[p].stage.residency
    ensures run[i].requests[r].stage.response == run[j].requests[p].stage.response
    ensures run[i].requests[r].stage.response.Some?
  {
    AnsweredFacts(run, steps, i, r);
    AnsweredFacts(run, steps, j, p);
    RunGrows(run, steps, i, j);
    hide IsRun;
    var n := run[i].requests[r].stage.residency;
    assert run[i].registry.answers[n] <= run[j].registry.answers[n];
    OnlyElement(run[i].requests[r].stage.response.value, run[j].requests[p].stage.response.value);
  }

  lemma OnlyElement<T>(a: T, b: T)
    requires [a] <= [b]
    ensures a == b
  {
    assert [a][0] == [b][0];
  }

  lemma AnsweredFacts(run: seq<World>, steps: seq<Step>, i: nat, r: nat)
    requires IsRun(run, steps) && i < |run| && r in run[i].requests && run[i].requests[r].stage.Answered?
    ensures WaiterSound(run[i].registry, run[i].requests[r])
  {
    InvAlways(run, steps, i);
  }

  /** No step removes, or replaces, an entry that is in flight or waited on: not even the clear at shutdown. */
  lemma BusyEntryStays(w: World, w': World, s: Step, k: I.Key)
    requires Inv(w) && Enabled(w, s) && w' == Apply(w, s)
    requires k in w.registry.entries && (w.registry.entries[k].state.InFlight? || w.registry.entries[k].waiters > 0)
    ensures k in w'.registry.entries && w'.registry.entries[k].residency == w.registry.entries[k].residency
  {
    hide Inv, RegistryEnabled, RegistryApply, SessionEnabled, SessionApply, OperationEnabled, OperationApply;
    BusyMeansNoClear(w, k);
    if s.OnRegistry? {
      BusyIsNotEvictable(w, k);
      BusySurvivesRegistry(w, w', s.registry, k);
    } else {
      EntriesUntouched(w, w', s);
    }
  }

  lemma EntriesUntouched(w: World, w': World, s: Step)
    requires Enabled(w, s) && w' == Apply(w, s) && !s.OnRegistry? && (s.OnShutdown? ==> !s.shutdown.ClearRegistry?)
    ensures w'.registry.entries == w.registry.entries
  {
  }

  lemma BusyIsNotEvictable(w: World, k: I.Key)
    requires Inv(w) && k in w.registry.entries
    requires w.registry.entries[k].state.InFlight? || w.registry.entries[k].waiters > 0
    ensures !w.registry.entries[k].Evictable()
  {
    assert EntryAnswered(w.registry.entries[k], w.registry.answers);
  }

  lemma BusySurvivesRegistry(w: World, w': World, s: RegistryStep, k: I.Key)
    requires RegistryEnabled(w, s) && w' == RegistryApply(w, s) && k in w.registry.entries
    requires w.registry.entries[k].state.InFlight? || w.registry.entries[k].waiters > 0
    requires !w.registry.entries[k].Evictable()
    ensures k in w'.registry.entries && w'.registry.entries[k].residency == w.registry.entries[k].residency
  {
  }

  lemma BusyMeansNoClear(w: World, k: I.Key)
    requires Inv(w) && k in w.registry.entries
    requires w.registry.entries[k].state.InFlight? || w.registry.entries[k].waiters > 0
    ensures forall c :: c in w.life.callers ==> !w.life.callers[c].SessionsGone?
  {
    hide Inv;
    BusyMeansActive(w, k);
    DrainPart(w);
    forall c | c in w.life.callers ensures !w.life.callers[c].SessionsGone? {
      assert w.life.leader != Some(c) ==> FollowerSound(w.life, w.life.callers[c]);
    }
  }

  /** A busy entry means an active operation. */
  lemma BusyMeansActive(w: World, k: I.Key)
    requires Inv(w) && k in w.registry.entries
    requires w.registry.entries[k].state.InFlight? || w.registry.entries[k].waiters > 0
    ensures w.life.gate.active > 0
  {
    hide Inv, LeaseInv, ActiveInv, EntriesInv, OwnersInv, LogoutInv, DrainInv;
    Parts(w);
    if w.registry.entries[k].state.InFlight? {
      hide WaitInv;
      assert InHand(w.requests, k);
      var r :| r in w.requests && w.requests[r].WorksOn(k);
      assert Shaped(w.requests[r]);
      OperatingMeansUncleared(w, r);
    } else {
      hide WorkInv;
      assert Waiters(w.requests, k) != {};
      var r :| r in Waiters(w.requests, k);
      assert Shaped(w.requests[r]);
      OperatingMeansUncleared(w, r);
    }
  }

  /** An entry in flight has its owner at work on it. */
  lemma OwnerAtWork(w: World, key: I.Key) returns (p: nat)
    requires Inv(w) && key in w.registry.entries && w.registry.entries[key].state.InFlight?
    ensures p in w.requests && w.requests[p].worker.Working? && w.requests[p].worker.key == key
    ensures w.requests[p].worker.residency == w.registry.entries[key].residency
  {
    hide Inv, AllShaped, LeaseInv, ActiveInv, EntriesInv, WaitInv, OwnersInv, LogoutInv, DrainInv;
    Parts(w);
    assert InHand(w.requests, key);
    p :| p in w.requests && w.requests[p].WorksOn(key);
    assert WorkerSound(w.registry, w.requests[p]);
  }

  /** A sleeping waiter either can wake now, or its entry is in flight and the owner is at work on it. */
  lemma NoLostWakeup(run: seq<World>, steps: seq<Step>, i: nat, r: nat)
    requires IsRun(run, steps) && i < |run| && r in run[i].requests
    requires run[i].requests[r].stage.Waiting? && run[i].requests[r].stage.watch.Asleep?
    ensures RegistryEnabled(run[i], Wake(r))
         || exists p :: p in run[i].requests && run[i].requests[p].worker.Working?
                        && run[i].requests[p].worker.key == run[i].requests[r].stage.key
                        && run[i].requests[p].worker.residency == run[i].requests[r].stage.residency
  {
    hide Inv;
    InvAlways(run, steps, i);
    hide IsRun;
    WaiterFacts(run[i], r);
    if run[i].registry.entries[run[i].requests[r].stage.key].state.InFlight? {
      var p := OwnerAtWork(run[i], run[i].requests[r].stage.key);
    }
  }

  // ----- the registry's own admission is the step of the runs

  predicate StatesMatch(m: I.Entries) { forall k :: k in m ==> (m[k].state.InFlight? <==> m[k].completedSeq.None?) }

  lemma ExpiredIsEvicted(m: I.Entries, now: I.Time)
    requires StatesMatch(m)
    ensures I.Evicted(m, m - I.Expired(m, now))
  {
  }

  /** What `Idempotency.Admit` promises is exactly a join, with the residency and ownership of the runs. */
  lemma AdmissionIsJoin(g: RegistryState, after: I.Entries, now: I.Time, key: I.Key, identity: I.RequestIdentity,
                        r: I.Admission)
    returns (trimmed: I.Entries)
    requires StatesMatch(g.entries)
    requires I.ExistingKey(g.entries - I.Expired(g.entries, now), after, key, identity, r)
    requires I.NewKey(g.entries - I.Expired(g.entries, now), after, key, identity, r, |g.answers|)
    ensures I.Evicted(g.entries, trimmed) && I.Trims(g.entries, trimmed, now, key, identity.StorageBytes())
    ensures r.Refused? ==>
              && after == trimmed
              && if key in trimmed then trimmed[key].identity != identity
                 else I.Crowded(trimmed, identity.StorageBytes())
    ensures r.Admission? ==>
              && (if key in trimmed then trimmed[key].identity == identity
                  else !I.Crowded(trimmed, identity.StorageBytes()))
              && after == Joined(g, key, identity, trimmed).entries && after[key].residency == r.residency
              && (r.owner <==> key !in trimmed)
  {
    var pruned := g.entries - I.Expired(g.entries, now);
    hide I.Expired, I.MadeRoom, I.Evicted, I.Trims, I.Crowded, StatesMatch;
    ExpiredIsEvicted(g.entries, now);
    if key in pruned {
      trimmed := pruned;
      I.PruningTrims(g.entries, now, key, identity.StorageBytes());
    } else {
      trimmed := after - {key};
      WithAndWithout(after, key);
      I.RoomTrims(g.entries, trimmed, now, key, identity.StorageBytes(), key in after);
      RoomIsEvicted(g.entries, pruned, trimmed, identity.StorageBytes(), key in after);
    }
  }

  lemma WithAndWithout(m: I.Entries, key: I.Key)
    ensures key in m ==> m == (m - {key})[key := m[key]]
    ensures key !in m ==> m - {key} == m
  {
  }

  lemma RoomIsEvicted(before: I.Entries, pruned: I.Entries, kept: I.Entries, request: nat, ok: bool)
    requires I.Evicted(before, pruned) && I.MadeRoom(pruned, kept, request, ok)
    ensures I.Evicted(before, kept)
  {
  }

  // ----- sessions and logout cleanup

  /** Before shutdown a completed logout answer exists only while its session is leased or being cleaned up. */
  lemma LogoutAnswerIsTransient(run: seq<World>, steps: seq<Step>, i: nat, k: I.Key)
    requires IsRun(run, steps) && i < |run| && !run[i].sessions.cleared && k in run[i].registry.entries
    requires run[i].registry.entries[k].state.Complete?
    requires run[i].registry.entries[k].state.disposition.RemoveAfterAuthSession?
    ensures var s, w := run[i].registry.entries[k].state.disposition.session, run[i];
            || (s in w.sessions.live && w.sessions.live[s].invalidated
                && exists r :: r in w.requests && w.requests[r].Leases(s))
            || (exists r :: r in w.requests && w.requests[r].Cleans(s))
  {
    hide Inv, AllShaped, ActiveInv, EntriesInv, WaitInv, OwnersInv, WorkInv, DrainInv;
    InvAlways(run, steps, i);
    hide IsRun;
    var s, w := run[i].registry.entries[k].state.disposition.session, run[i];
    Parts(w);
    assert Covered(w.sessions.live, w.requests, s);
    hide LogoutInv;
    if !(exists r :: r in w.requests && w.requests[r].Cleans(s)) {
      assert Holders(w.requests, s) != {};
      var r :| r in Holders(w.requests, s);
    }
  }

  /** The cleanup that follows the last release leaves no completed answer bound to the session. */
  lemma CleanupLeavesNone(w: World, r: nat, k: I.Key)
    requires Inv(w) && RegistryEnabled(w, Cleanup(r))
    ensures var w', s := RegistryApply(w, Cleanup(r)), w.requests[r].lease.value.session;
            k in w'.registry.entries && w'.registry.entries[k].state.Complete?
            ==> w'.registry.entries[k].state.disposition != I.RemoveAfterAuthSession(s)
  {
    hide Inv;
    CleanupEvicts(w, r);
    hide I.Evicted;
  }

  /** Lease counts are exact and at most four sessions are alive, in every reachable state. */
  lemma LeaseCountsAreExact(run: seq<World>, steps: seq<Step>, i: nat)
    requires IsRun(run, steps) && i < |run|
    ensures |A.Alive(run[i].sessions.live)| <= A.MAX_APP_SESSIONS
    ensures forall s :: s in run[i].sessions.live ==>
              run[i].sessions.live[s].active == |Holders(run[i].requests, s)|
    ensures !run[i].sessions.cleared ==>
              forall r :: r in run[i].requests && run[i].requests[r].LeasesAny()
                          ==> run[i].requests[r].lease.value.session in run[i].sessions.live
  {
    InvAlways(run, steps, i);
  }

  /** The session was issued and is not usable: invalidated, or gone. */
  predicate Dead(t: SessionState, s: A.SessionSeq) { s <= t.issued && (s in t.live ==> t.live[s].invalidated) }

  lemma DeadStays(w: World, w': World, step: Step, s: A.SessionSeq)
    requires Enabled(w, step) && w' == Apply(w, step) && Dead(w.sessions, s)
    ensures Dead(w'.sessions, s)
  {
  }

  lemma {:induction false} DeadForever(run: seq<World>, steps: seq<Step>, i: nat, j: nat, s: A.SessionSeq)
    requires IsRun(run, steps) && i <= j < |run| && Dead(run[i].sessions, s)
    ensures Dead(run[j].sessions, s)
    decreases j - i
  {
    hide Apply, Enabled, Dead;
    if i < j {
      DeadForever(run, steps, i, j - 1, s);
      RunStep(run, steps, j - 1);
      hide IsRun;
      DeadStays(run[j - 1], run[j], steps[j - 1], s);
    }
  }

  /** An invalidated session never authenticates again. */
  lemma InvalidatedNeverAuthenticates(run: seq<World>, steps: seq<Step>, i: nat, j: nat, s: A.SessionSeq)
    requires IsRun(run, steps) && i <= j < |steps| && Dead(run[i].sessions, s)
    ensures !(steps[j].OnSessions? && steps[j].session.Authenticate? && steps[j].session.session == s)
  {
    DeadForever(run, steps, i, j, s);
    assert Enabled(run[j], steps[j]);
    hide IsRun;
  }

  // ----- shutdown

  predicate Leads(c: Caller) { c.Leading? || c.Cleaned? || c.SessionsGone? || c.RegistryGone? }

  /** At most one caller ever drains or leads, and the lower cleanup has run at most once. */
  lemma OneLeader(run: seq<World>, steps: seq<Step>, i: nat, c: nat, d: nat)
    requires IsRun(run, steps) && i < |run| && c in run[i].life.callers && d in run[i].life.callers
    requires !run[i].life.callers[c].Following? && !run[i].life.callers[c].Returned?
    requires !run[i].life.callers[d].Following? && !run[i].life.callers[d].Returned?
    ensures c == d && |run[i].life.cleanups| <= 1
  {
    InvAlways(run, steps, i);
    var w := run[i];
    hide IsRun, Inv;
    DrainPart(w);
    OnlyLeaderActs(w.life, c, w.sessions.cleared, w.registry.cleared);
  }

  lemma DrainPart(w: World)
    requires Inv(w)
    ensures DrainInv(w.life, w.sessions.cleared, w.registry.cleared)
  {
    hide DrainInv;
  }

  /** From the moment a caller leads, no operation is active and none ever starts again. */
  predicate Quiescent(w: World) { !w.life.gate.phase.Running? && w.life.gate.active == 0 }

  lemma QuiescentStays(w: World, w': World, s: Step)
    requires Inv(w) && Enabled(w, s) && w' == Apply(w, s) && Quiescent(w)
    ensures Quiescent(w')
  {
    hide Inv;
    QuietOnceDrained(w);
    match s {
      case OnSessions(t) => hide SessionEnabled;
      case OnOperation(t) =>
      case OnRegistry(t) => hide RegistryEnabled;
      case OnShutdown(t) =>
    }
  }

  lemma {:induction false} LeaderIsAlone(run: seq<World>, steps: seq<Step>, i: nat, j: nat, c: nat)
    requires IsRun(run, steps) && i <= j < |run| && c in run[i].life.callers && Leads(run[i].life.callers[c])
    ensures Quiescent(run[j]) && forall r :: r in run[j].requests ==> !run[j].requests[r].Operates()
    decreases j - i
  {
    hide Inv, Apply, Enabled;
    InvAlways(run, steps, j);
    if i == j {
      DrainPart(run[i]);
      OnlyLeaderActs(run[i].life, c, run[i].sessions.cleared, run[i].registry.cleared);
    } else {
      LeaderIsAlone(run, steps, i, j - 1, c);
      InvAlways(run, steps, j - 1);
      RunStep(run, steps, j - 1);
      hide IsRun;
      QuiescentStays(run[j - 1], run[j], steps[j - 1]);
    }
    QuietOnceDrained(run[j]);
  }

  /** Whoever returns, whenever, returns the result of the one lower cleanup. */
  lemma ReturnsTheCleanup(run: seq<World>, steps: seq<Step>, i: nat, c: nat)
    requires IsRun(run, steps) && i < |run| && c in run[i].life.callers && run[i].life.callers[c].Returned?
    ensures run[i].life.cleanups == [run[i].life.callers[c].outcome]
  {
    hide Inv;
    InvAlways(run, steps, i);
    hide IsRun;
    var w := run[i];
    DrainPart(w);
    assert w.life.leader != Some(c) ==> FollowerSound(w.life, w.life.callers[c]);
  }

  lemma {:induction false} CleanupsGrow(run: seq<World>, steps: seq<Step>, i: nat, j: nat)
    requires IsRun(run, steps) && i <= j < |run|
    ensures run[i].life.cleanups <= run[j].life.cleanups
    decreases j - i
  {
    hide Apply, Enabled;
    if i < j {
      CleanupsGrow(run, steps, i, j - 1);
      RunStep(run, steps, j - 1);
      hide IsRun;
      CleanupStep(run[j - 1], run[j], steps[j - 1]);
    }
  }

  lemma CleanupStep(w: World, w': World, s: Step)
    requires Enabled(w, s) && w' == Apply(w, s)
    ensures w.life.cleanups <= w'.life.cleanups
  {
  }

  /** Clean exactly if both cleanups were, and the session's failure goes first. */
  predicate ToldBy(outcome: S.Outcome, sessionOk: bool, loginOk: bool) {
    && (outcome == S.Clean <==> sessionOk && loginOk)
    && (outcome == S.Failed(S.SessionFailed) <==> !sessionOk)
    && (outcome == S.Failed(S.LoginFailed) <==> sessionOk && !loginOk)
  }

  lemma CleanupRecords(w: World, s: Step)
    requires Enabled(w, s) && w.life.cleanups == [] && Apply(w, s).life.cleanups != []
    ensures s.OnShutdown? && s.shutdown.LowerCleanup?
    ensures ToldBy(Apply(w, s).life.cleanups[0], s.shutdown.sessionOk, s.shutdown.loginOk)
  {
  }

  /** The recorded result goes back to the one lower cleanup of the run, and says how it went. */
  lemma {:induction false} CleanupWasRun(run: seq<World>, steps: seq<Step>, i: nat) returns (k: nat)
    requires IsRun(run, steps) && i < |run| && run[i].life.cleanups != []
    ensures k < i && steps[k].OnShutdown? && steps[k].shutdown.LowerCleanup?
    ensures ToldBy(run[i].life.cleanups[0], steps[k].shutdown.sessionOk, steps[k].shutdown.loginOk)
  {
    hide Apply, Enabled, ToldBy;
    k := i - 1;
    RunStep(run, steps, k);
    if run[k].life.cleanups == [] {
      CleanupRecords(run[k], steps[k]);
    } else {
      CleanupsGrow(run, steps, k, i);
      k := CleanupWasRun(run, steps, k);
    }
  }

  /** Whoever returns, returns how the two lower cleanups of the run went. */
  lemma ReturnsHowItWent(run: seq<World>, steps: seq<Step>, i: nat, c: nat) returns (k: nat)
    requires IsRun(run, steps) && i < |run| && c in run[i].life.callers && run[i].life.callers[c].Returned?
    ensures k < i && steps[k].OnShutdown? && steps[k].shutdown.LowerCleanup?
    ensures ToldBy(run[i].life.callers[c].outcome, steps[k].shutdown.sessionOk, steps[k].shutdown.loginOk)
  {
    hide Apply, Enabled, ToldBy;
    ReturnsTheCleanup(run, steps, i, c);
    k := CleanupWasRun(run, steps, i);
  }

  lemma AllReturnTheSame(run: seq<World>, steps: seq<Step>, i: nat, j: nat, c: nat, d: nat)
    requires IsRun(run, steps) && i <= j < |run|
    requires c in run[i].life.callers && run[i].life.callers[c].Returned?
    requires d in run[j].life.callers && run[j].life.callers[d].Returned?
    ensures run[i].life.callers[c].outcome == run[j].life.callers[d].outcome
  {
    ReturnsTheCleanup(run, steps, i, c);
    ReturnsTheCleanup(run, steps, j, d);
    CleanupsGrow(run, steps, i, j);
    OnlyElement(run[i].life.callers[c].outcome, run[j].life.callers[d].outcome);
  }

  function NextStep(l: LifeState, c: nat): ShutdownStep
    requires c in l.callers
  {
    match l.callers[c]
    case Draining => Drained(c)
    case Leading => LowerCleanup(c, true, true)
    case Cleaned(_) => ClearSessions(c)
    case SessionsGone(_) => ClearRegistry(c)
    case RegistryGone(_) => Finish(c)
    case Following => Follow(c)
    case Returned(_) => Follow(c)
  }

  lemma SomeOperation(w: World) returns (r: nat)
    requires Inv(w) && w.life.gate.active > 0
    ensures r in w.requests && w.requests[r].Operates()
  {
    hide Inv, AllShaped, LeaseInv, EntriesInv, WaitInv, OwnersInv, WorkInv, LogoutInv, DrainInv;
    Parts(w);
    assert Operating(w.requests) != {};
    r :| r in Operating(w.requests);
  }

  /** No caller is stuck: while one has not returned, an operation is still active or some caller can move. */
  lemma ShutdownProgresses(run: seq<World>, steps: seq<Step>, i: nat, c: nat)
    requires IsRun(run, steps) && i < |run| && c in run[i].life.callers && !run[i].life.callers[c].Returned?
    ensures (exists r :: r in run[i].requests && run[i].requests[r].Operates())
         || (exists d :: d in run[i].life.callers && ShutdownEnabled(run[i], NextStep(run[i].life, d)))
  {
    hide Inv;
    InvAlways(run, steps, i);
    hide IsRun;
    var w := run[i];
    DrainPart(w);
    if w.life.gate.active > 0 {
      hide DrainInv;
      var r := SomeOperation(w);
    } else {
      var d := w.life.leader.value;
      assert w.life.callers[d].Returned? ==> ShutdownEnabled(w, NextStep(w.life, c)) by {
        assert w.life.leader != Some(c) ==> FollowerSound(w.life, w.life.callers[c]);
      }
      assert !w.life.callers[d].Returned? ==> ShutdownEnabled(w, NextStep(w.life, d));
    }
  }
}
