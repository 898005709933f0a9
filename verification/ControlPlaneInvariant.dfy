/** What every interleaving of the control plane's critical sections keeps. */
module ControlPlaneInvariant {
  import opened CloudTypes
  import opened ControlPlane
  import A = AppSessions
  import I = IdempotencyRegistry
  import S = Shutdown

  // ----- counted sets of requests

  function Holders(q: Requests, s: A.SessionSeq): set<nat> { set r | r in q && q[r].Leases(s) }
  function Operating(q: Requests): set<nat> { set r | r in q && q[r].Operates() }
  function Waiters(q: Requests, k: I.Key): set<nat> { set r | r in q && q[r].WaitsOn(k) }

  function One(b: bool): nat { if b then 1 else 0 }

  lemma HoldersChange(q: Requests, r: nat, x: Request, s: A.SessionSeq)
    ensures |Holders(q[r := x], s)| + One(r in q && q[r].Leases(s)) == |Holders(q, s)| + One(x.Leases(s))
  {
    if x.Leases(s) {
      assert Holders(q[r := x], s) == Holders(q, s) + {r};
    } else {
      assert Holders(q[r := x], s) == Holders(q, s) - {r};
    }
  }

  lemma OperatingChange(q: Requests, r: nat, x: Request)
    ensures |Operating(q[r := x])| + One(r in q && q[r].Operates()) == |Operating(q)| + One(x.Operates())
  {
    if x.Operates() {
      assert Operating(q[r := x]) == Operating(q) + {r};
    } else {
      assert Operating(q[r := x]) == Operating(q) - {r};
    }
  }

  lemma WaitersChange(q: Requests, r: nat, x: Request, k: I.Key)
    ensures |Waiters(q[r := x], k)| + One(r in q && q[r].WaitsOn(k)) == |Waiters(q, k)| + One(x.WaitsOn(k))
  {
    if x.WaitsOn(k) {
      assert Waiters(q[r := x], k) == Waiters(q, k) + {r};
    } else {
      assert Waiters(q[r := x], k) == Waiters(q, k) - {r};
    }
  }

  // ----- the parts of the invariant

  /** Which stage, worker and hold go together in one request. */
  predicate Shaped(x: Request) {
    && (x.stage.Arriving? ==> x.hold.LeaseOnly? && x.worker.Idle?)
    && (!x.stage.Arriving? && !x.stage.Left? ==> x.hold.Held?)
    && (x.worker.Working? || x.worker.Finished? ==> x.hold.Held?)
    && (!x.worker.Idle? || x.stage.Waiting? || !x.hold.Held? ==> x.lease.Some? || x.hold.Closed?)
    && (!x.worker.Idle? || x.stage.Waiting? ==> x.lease.Some?)
  }

  predicate AllShaped(q: Requests) { forall r :: r in q ==> Shaped(q[r]) }

  /** A session's request count is the number of leases on it, and a leased session is retained. */
  predicate LeaseInv(t: SessionState, q: Requests) {
    && A.Sound(t.live, t.issued)
    && (forall s :: s in t.live ==> t.live[s].active == |Holders(q, s)|)
    && (forall r :: r in q && q[r].lease.Some? ==> q[r].lease.value.session <= t.issued)
    && (!t.cleared ==> forall r :: r in q && q[r].LeasesAny() ==> LeaseBacked(t.live, q[r].lease.value))
    && (t.cleared ==> t.live == map[])
    && (forall r :: r in q && q[r].hold.Cleaning? && q[r].lease.Some? ==> q[r].lease.value.session !in t.live)
  }

  predicate LeaseBacked(live: A.Sessions, lease: Lease) {
    lease.session in live && live[lease.session].token == lease.token
  }

  predicate ActiveInv(l: LifeState, q: Requests) { l.gate.active == |Operating(q)| }

  /** Entries, residencies and their answers agree. */
  predicate EntriesInv(g: RegistryState) {
    && (forall k :: k in g.entries ==> EntryAnswered(g.entries[k], g.answers))
    && (forall k, j :: k in g.entries && j in g.entries && g.entries[k].residency == g.entries[j].residency ==> k == j)
    && (forall n :: 0 <= n < |g.answers| ==> |g.answers[n]| <= 1)
    && (g.cleared ==> g.entries == map[])
  }

  predicate EntryAnswered(e: I.Entry, answers: seq<seq<I.Response>>) {
    && e.residency < |answers|
    && (e.state.InFlight? <==> e.completedSeq.None?)
    && answers[e.residency] == if e.state.InFlight? then [] else [e.state.response]
  }

  /** Waiter counts are exact, and every waiter's entry is still its own. */
  predicate WaitInv(g: RegistryState, q: Requests) {
    && (forall k :: k in g.entries ==> g.entries[k].waiters == |Waiters(q, k)|)
    && (forall r :: r in q ==> WaiterSound(g, q[r]))
  }

  predicate WaiterSound(g: RegistryState, x: Request) {
    && (x.stage.Waiting? ==>
          && x.stage.key in g.entries && g.entries[x.stage.key].residency == x.stage.residency
          && LeaseMatches(g.entries[x.stage.key].identity, x)
          && (x.stage.watch.Asleep? ==> x.stage.watch.seen == 0)
          && (x.stage.watch.Armed? && g.entries[x.stage.key].state.InFlight? ==> x.stage.watch.seen == 0))
    && (x.stage.Answered? ==>
          x.stage.residency < |g.answers| && x.stage.response.Some?
          && g.answers[x.stage.residency] == [x.stage.response.value])
  }

  /** Only leaseholders of a session can be behind its logout entry. */
  predicate LeaseMatches(identity: I.RequestIdentity, x: Request) {
    identity.logoutSession.Some? ==> x.lease.Some? && x.lease.value.session == identity.logoutSession.value
  }

  /** Every residency has exactly one owner. */
  ghost predicate OwnersInv(residencies: nat, q: Requests) {
    && (forall n :: 0 <= n < residencies ==> Owned(q, n))
    && (forall r, p :: (r in q && p in q && !q[r].worker.Idle? && !q[p].worker.Idle?
                        && q[r].worker.residency == q[p].worker.residency) ==> r == p)
    && (forall r :: r in q && !q[r].worker.Idle? ==> q[r].worker.residency < residencies)
  }

  ghost predicate Owned(q: Requests, n: nat) { exists r :: r in q && q[r].Owns(n) }

  /** An entry in flight has its owner at work on it. */
  ghost predicate WorkInv(g: RegistryState, q: Requests) {
    && (forall r :: r in q ==> WorkerSound(g, q[r]))
    && (forall k :: k in g.entries && g.entries[k].state.InFlight? ==> InHand(q, k))
  }

  ghost predicate InHand(q: Requests, k: I.Key) { exists r :: r in q && q[r].WorksOn(k) }

  predicate WorkerSound(g: RegistryState, x: Request) {
    x.worker.Working? ==>
          && x.worker.key in g.entries && g.entries[x.worker.key].residency == x.worker.residency
          && g.entries[x.worker.key].state.InFlight?
          && LeaseMatches(g.entries[x.worker.key].identity, x)
          && (x.worker.logout <==> g.entries[x.worker.key].identity.logoutSession.Some?)
  }

  /** A logout answer is kept only for an invalidated session with a live lease, or one about to be cleaned up. */
  ghost predicate LogoutInv(t: SessionState, g: RegistryState, q: Requests) {
    && (forall k :: k in g.entries ==> BoundRight(g.entries[k]))
    && (!t.cleared ==> forall k :: k in g.entries && g.entries[k].state.Complete?
                                   && g.entries[k].state.disposition.RemoveAfterAuthSession?
                                   ==> Covered(t.live, q, g.entries[k].state.disposition.session))
    && (!t.cleared ==> forall r :: r in q && q[r].worker.Working? && q[r].worker.loggedOut ==> SignedOut(t.live, q[r]))
  }

  predicate BoundRight(e: I.Entry) {
    e.state.Complete? && e.state.disposition.RemoveAfterAuthSession? ==>
      e.identity.logoutSession == Some(e.state.disposition.session)
  }

  ghost predicate Covered(live: A.Sessions, q: Requests, s: A.SessionSeq) {
    || (s in live && live[s].invalidated && live[s].active > 0)
    || exists r :: r in q && q[r].Cleans(s)
  }

  predicate SignedOut(live: A.Sessions, x: Request) {
    x.lease.Some? && x.lease.value.session in live && live[x.lease.value.session].invalidated
  }

  /** One caller leads; it moves on only once nothing is active; everyone else returns what it returned. */
  predicate DrainInv(l: LifeState, sessionsCleared: bool, registryCleared: bool) {
    && (l.gate.phase.Running? <==> l.leader.None?)
    && (l.leader.None? ==> l.callers == map[] && l.cleanups == [] && !sessionsCleared && !registryCleared)
    && (l.leader.Some? ==> l.leader.value in l.callers
                           && LeaderSound(l, l.callers[l.leader.value], sessionsCleared, registryCleared))
    && (forall c :: c in l.callers && l.leader != Some(c) ==> FollowerSound(l, l.callers[c]))
  }

  predicate LeaderSound(l: LifeState, c: Caller, sessionsCleared: bool, registryCleared: bool) {
    && !c.Following?
    && (!c.Draining? ==> l.gate.active == 0)
    && (sessionsCleared <==> c.SessionsGone? || c.RegistryGone? || c.Returned?)
    && (registryCleared <==> c.RegistryGone? || c.Returned?)
    && l.cleanups == (if c.Draining? || c.Leading? then [] else [c.outcome])
    && l.gate.phase == (if c.Returned? then S.Complete(c.outcome) else S.Draining)
  }

  predicate FollowerSound(l: LifeState, c: Caller) {
    c.Following? || (c.Returned? && l.gate.phase == S.Complete(c.outcome))
  }

  ghost predicate Inv(w: World) {
    && AllShaped(w.requests)
    && LeaseInv(w.sessions, w.requests)
    && ActiveInv(w.life, w.requests)
    && EntriesInv(w.registry)
    && WaitInv(w.registry, w.requests)
    && OwnersInv(|w.registry.answers|, w.requests)
    && WorkInv(w.registry, w.requests)
    && LogoutInv(w.sessions, w.registry, w.requests)
    && DrainInv(w.life, w.sessions.cleared, w.registry.cleared)
  }

  lemma Parts(w: World)
    requires Inv(w)
    ensures AllShaped(w.requests) && LeaseInv(w.sessions, w.requests) && ActiveInv(w.life, w.requests)
    ensures EntriesInv(w.registry) && WaitInv(w.registry, w.requests)
    ensures OwnersInv(|w.registry.answers|, w.requests) && WorkInv(w.registry, w.requests)
    ensures LogoutInv(w.sessions, w.registry, w.requests)
    ensures DrainInv(w.life, w.sessions.cleared, w.registry.cleared)
  {
    hide AllShaped, LeaseInv, ActiveInv, EntriesInv, WaitInv, OwnersInv, WorkInv, LogoutInv, DrainInv;
  }

  lemma StartInv()
    ensures Inv(START)
  {
  }

  // ----- changing one request

  lemma LeaseFrame(t: SessionState, q: Requests, r: nat, x: Request)
    requires LeaseInv(t, q) && r in q && x.lease == q[r].lease && x.LeasesAny() == q[r].LeasesAny()
    requires x.hold.Cleaning? ==> q[r].hold.Cleaning?
    ensures LeaseInv(t, q[r := x])
  {
    forall s ensures |Holders(q[r := x], s)| == |Holders(q, s)| {
      HoldersChange(q, r, x, s);
    }
  }

  lemma ActiveFrame(l: LifeState, q: Requests, r: nat, x: Request)
    requires ActiveInv(l, q) && (if r in q then x.Operates() == q[r].Operates() else !x.Operates())
    ensures ActiveInv(l, q[r := x])
  {
    OperatingChange(q, r, x);
  }

  lemma WaitFrame(g: RegistryState, q: Requests, r: nat, x: Request)
    requires WaitInv(g, q)
    requires r in q ==> (x.stage == q[r].stage && x.lease == q[r].lease) || !q[r].stage.Waiting?
    requires r !in q || x.stage != q[r].stage ==> !x.stage.Waiting? && !x.stage.Answered?
    ensures WaitInv(g, q[r := x])
  {
    forall k ensures |Waiters(q[r := x], k)| == |Waiters(q, k)| {
      WaitersChange(q, r, x, k);
    }
  }

  lemma OwnersFrame(n: nat, q: Requests, r: nat, x: Request)
    requires OwnersInv(n, q)
    requires if r in q then x.worker.Idle? == q[r].worker.Idle? else x.worker.Idle?
    requires r in q && !x.worker.Idle? ==> x.worker.residency == q[r].worker.residency
    ensures OwnersInv(n, q[r := x])
  {
    var m := q[r := x];
    forall i | 0 <= i < n ensures Owned(m, i) {
      assert Owned(q, i);
      var p :| p in q && q[p].Owns(i);
      assert m[p].Owns(i);
    }
  }

  lemma WorkFrame(g: RegistryState, q: Requests, r: nat, x: Request)
    requires WorkInv(g, q)
    requires if r in q then x.worker == q[r].worker && x.lease == q[r].lease else x.worker.Idle?
    ensures WorkInv(g, q[r := x])
  {
    forall k | InHand(q, k) ensures InHand(q[r := x], k) {
      var p :| p in q && q[p].WorksOn(k);
      assert q[r := x][p].WorksOn(k);
    }
  }

  lemma CoveredFrame(live: A.Sessions, q: Requests, r: nat, x: Request, s: A.SessionSeq)
    requires Covered(live, q, s)
    requires r in q && q[r].Cleans(s) ==> x.Cleans(s)
    ensures Covered(live, q[r := x], s)
  {
    if !(s in live && live[s].invalidated && live[s].active > 0) {
      var p :| p in q && q[p].Cleans(s);
      assert q[r := x][p].Cleans(s);
    }
  }

  lemma LogoutFrame(t: SessionState, g: RegistryState, q: Requests, r: nat, x: Request)
    requires LogoutInv(t, g, q)
    requires if r in q then x.worker == q[r].worker && x.lease == q[r].lease else x.worker.Idle?
    requires r in q && q[r].hold.Cleaning? ==> x.hold.Cleaning?
    ensures LogoutInv(t, g, q[r := x])
  {
    forall s | Covered(t.live, q, s) ensures Covered(t.live, q[r := x], s) {
      CoveredFrame(t.live, q, r, x, s);
    }
  }

  // ----- session steps

  lemma LeasedIsActive(t: SessionState, q: Requests, r: nat)
    requires LeaseInv(t, q) && r in q && q[r].LeasesAny() && !t.cleared
    ensures t.live[q[r].lease.value.session].active > 0
  {
    assert r in Holders(q, q[r].lease.value.session);
  }

  lemma PruneKeepsLeases(t: SessionState, q: Requests, now: A.Time, burned: bool)
    requires LeaseInv(t, q)
    ensures LeaseInv(t.(live := A.Pruned(t.live, now), issued := t.issued + if burned then 1 else 0), q)
  {
    hide A.Sound, Holders;
    A.PruneKeepsSound(t.live, t.issued, now);
    A.SoundLater(A.Pruned(t.live, now), t.issued, t.issued + if burned then 1 else 0);
    forall r | r in q && q[r].LeasesAny() && !t.cleared ensures LeaseBacked(A.Pruned(t.live, now), q[r].lease.value) {
      LeasedIsActive(t, q, r);
    }
  }

  lemma PruneKeepsLogout(t: SessionState, g: RegistryState, q: Requests, now: A.Time, issued: A.SessionSeq)
    requires LogoutInv(t, g, q) && LeaseInv(t, q) && AllShaped(q)
    ensures LogoutInv(t.(live := A.Pruned(t.live, now), issued := issued), g, q)
  {
    forall r | r in q && q[r].worker.Working? && q[r].worker.loggedOut && !t.cleared
      ensures SignedOut(A.Pruned(t.live, now), q[r])
    {
      LeasedIsActive(t, q, r);
    }
    forall s | Covered(t.live, q, s) ensures Covered(A.Pruned(t.live, now), q, s) {
    }
  }

  lemma LeasingCounts(live: A.Sessions, q: Requests, r: nat, s: A.SessionSeq, x: Request, j: A.SessionSeq)
    requires r !in q && s in live && j in live && x.LeasesAny() && x.lease.value.session == s
    requires live[j].active == |Holders(q, j)|
    ensures A.Leased(live, s)[j].active == |Holders(q[r := x], j)|
  {
    HoldersChange(q, r, x, j);
    hide Holders;
  }

  lemma LeasingBacks(live: A.Sessions, s: A.SessionSeq)
    requires s in live
    ensures A.Leased(live, s).Keys == live.Keys
    ensures forall lease :: LeaseBacked(live, lease) ==> LeaseBacked(A.Leased(live, s), lease)
    ensures LeaseBacked(A.Leased(live, s), Lease(s, live[s].token))
  {
  }

  lemma LeasingKeepsLeases(t: SessionState, q: Requests, r: nat, s: A.SessionSeq)
    requires LeaseInv(t, q) && r !in q && s in t.live
    ensures LeaseInv(t.(live := A.Leased(t.live, s)),
                     q[r := Request(Some(Lease(s, t.live[s].token)), Arriving, Idle, LeaseOnly)])
  {
    var x := Request(Some(Lease(s, t.live[s].token)), Arriving, Idle, LeaseOnly);
    assert t.live[s].issued == s <= t.issued;
    hide A.Sound, Holders;
    A.ChangeKeepsSound(t.live, t.issued, s, t.live[s].(active := t.live[s].active + 1));
    LeasingBacks(t.live, s);
    assert A.Sound(A.Leased(t.live, s), t.issued);
    hide LeaseBacked, A.Leased;
    forall j | j in t.live ensures A.Leased(t.live, s)[j].active == |Holders(q[r := x], j)| {
      LeasingCounts(t.live, q, r, s, x, j);
    }
  }

  lemma AuthenticateKeepsInv(w: World, w': World, r: nat, s: A.SessionSeq, now: A.Time)
    requires Inv(w) && SessionEnabled(w, Authenticate(r, s, now))
    requires w' == SessionApply(w, Authenticate(r, s, now))
    ensures Inv(w')
  {
    hide LeaseInv, ActiveInv, EntriesInv, WaitInv, OwnersInv, WorkInv, LogoutInv, DrainInv;
    var t := w.sessions.(live := A.Pruned(w.sessions.live, now));
    var x := w'.requests[r];
    PruneKeepsLeases(w.sessions, w.requests, now, false);
    PruneKeepsLogout(w.sessions, w.registry, w.requests, now, w.sessions.issued);
    LeasingKeepsLeases(t, w.requests, r, s);
    ActiveFrame(w.life, w.requests, r, x);
    WaitFrame(w.registry, w.requests, r, x);
    OwnersFrame(|w.registry.answers|, w.requests, r, x);
    WorkFrame(w.registry, w.requests, r, x);
    LogoutFrame(t, w.registry, w.requests, r, x);
    LiveGrowsLogout(t, w'.sessions, w.registry, w'.requests);
  }

  /** More leases, or more invalidated sessions, leave every logout entry covered. */
  lemma LiveGrowsLogout(t: SessionState, t': SessionState, g: RegistryState, q: Requests)
    requires LogoutInv(t, g, q) && t'.cleared == t.cleared
    requires forall s :: s in t.live ==>
               && s in t'.live && t'.live[s].active >= t.live[s].active
               && (t.live[s].invalidated ==> t'.live[s].invalidated)
    ensures LogoutInv(t', g, q)
  {
  }

  lemma CreateKeepsInv(w: World, w': World, r: nat, now: A.Time, lifetime: A.Time, token: A.Token)
    requires Inv(w) && SessionEnabled(w, CreateSession(r, now, lifetime, token))
    requires w' == SessionApply(w, CreateSession(r, now, lifetime, token))
    ensures Inv(w')
  {
    hide LeaseInv, ActiveInv, EntriesInv, WaitInv, OwnersInv, WorkInv, LogoutInv, DrainInv;
    var t := w.sessions.(live := A.Pruned(w.sessions.live, now));
    var n := t.issued + 1;
    PruneKeepsLeases(w.sessions, w.requests, now, false);
    PruneKeepsLogout(w.sessions, w.registry, w.requests, now, w.sessions.issued);
    OperatingMeansUncleared(w, r);
    A.PruningTrims(w.sessions.live, now);
    CreatingKeepsLeases(t, w.requests, A.AppSession(token, now + lifetime, n, false, 0));
    LiveGrowsLogout(t, w'.sessions, w.registry, w.requests);
  }

  lemma CreatingKeepsLeases(t: SessionState, q: Requests, x: A.AppSession)
    requires LeaseInv(t, q) && !t.cleared && x.issued == t.issued + 1 && !x.invalidated && x.active == 0
    requires A.Unused(t.live, x.token) && |A.Alive(t.live)| < A.MAX_APP_SESSIONS
    ensures LeaseInv(t.(live := t.live[x.issued := x], issued := x.issued), q) && x.issued !in t.live
  {
    A.AddKeepsSound(t.live, t.issued, x);
    assert Holders(q, x.issued) == {};
  }

  /** Nothing is cleared while an operation is active. */
  lemma OperatingMeansUncleared(w: World, r: nat)
    requires Inv(w) && r in w.requests && w.requests[r].Operates()
    ensures !w.sessions.cleared && !w.registry.cleared && w.life.gate.active > 0
  {
    assert r in Operating(w.requests);
  }

  lemma PruneKeepsInv(w: World, w': World, now: A.Time, burned: bool)
    requires Inv(w) && w' == SessionApply(w, PruneSessions(now, burned))
    ensures Inv(w')
  {
    hide LeaseInv, ActiveInv, EntriesInv, WaitInv, OwnersInv, WorkInv, LogoutInv, DrainInv;
    PruneKeepsLeases(w.sessions, w.requests, now, burned);
    PruneKeepsLogout(w.sessions, w.registry, w.requests, now, w'.sessions.issued);
  }

  lemma LogOutKeepsInv(w: World, w': World, r: nat)
    requires Inv(w) && SessionEnabled(w, LogOut(r)) && w' == SessionApply(w, LogOut(r))
    ensures Inv(w')
  {
    hide LeaseInv, ActiveInv, EntriesInv, WaitInv, OwnersInv, WorkInv, LogoutInv, DrainInv;
    var x := w'.requests[r];
    OperatingMeansUncleared(w, r);
    InvalidatingKeepsLeases(w.sessions, w.requests, r);
    LeaseFrame(w'.sessions, w.requests, r, x);
    ActiveFrame(w.life, w.requests, r, x);
    WaitFrame(w.registry, w.requests, r, x);
    OwnersFrame(|w.registry.answers|, w.requests, r, x);
    SigningOutKeepsWork(w.registry, w.requests, r, x);
    LiveGrowsLogout(w.sessions, w'.sessions, w.registry, w.requests);
    SigningOutKeepsLogout(w'.sessions, w.registry, w.requests, r, x);
  }

  lemma InvalidatingKeepsLeases(t: SessionState, q: Requests, r: nat)
    requires LeaseInv(t, q) && r in q && q[r].LeasesAny() && !t.cleared
    ensures var l := q[r].lease.value;
            LeaseInv(t.(live := A.Invalidated(t.live, l.session, l.token)), q)
            && SignedOut(A.Invalidated(t.live, l.session, l.token), q[r])
  {
    var s := q[r].lease.value.session;
    assert t.live[s].issued == s;
    hide A.Sound, Holders;
    A.ChangeKeepsSound(t.live, t.issued, s, t.live[s].(invalidated := true));
  }

  lemma SigningOutKeepsWork(g: RegistryState, q: Requests, r: nat, x: Request)
    requires WorkInv(g, q) && r in q && q[r].worker.Working? && x == q[r].(worker := q[r].worker.(loggedOut := true))
    ensures WorkInv(g, q[r := x])
  {
    forall k | InHand(q, k) ensures InHand(q[r := x], k) {
      var p :| p in q && q[p].WorksOn(k);
      assert q[r := x][p].WorksOn(k);
    }
  }

  lemma SigningOutKeepsLogout(t: SessionState, g: RegistryState, q: Requests, r: nat, x: Request)
    requires LogoutInv(t, g, q) && r in q && q[r].worker.Working? && SignedOut(t.live, q[r])
    requires x == q[r].(worker := q[r].worker.(loggedOut := true))
    ensures LogoutInv(t, g, q[r := x])
  {
    forall s | Covered(t.live, q, s) ensures Covered(t.live, q[r := x], s) {
      CoveredFrame(t.live, q, r, x, s);
    }
  }

  lemma ReleaseLeaseKeepsInv(w: World, w': World, r: nat)
    requires Inv(w) && SessionEnabled(w, ReleaseLease(r)) && w' == SessionApply(w, ReleaseLease(r))
    ensures Inv(w')
  {
    hide LeaseInv, ActiveInv, EntriesInv, WaitInv, OwnersInv, WorkInv, LogoutInv, DrainInv;
    var x := w'.requests[r];
    ReleasingKeepsLeases(w.sessions, w.requests, r, x);
    ActiveFrame(w.life, w.requests, r, x);
    WaitFrame(w.registry, w.requests, r, x);
    OwnersFrame(|w.registry.answers|, w.requests, r, x);
    WorkFrame(w.registry, w.requests, r, x);
    ReleasingKeepsLogout(w.sessions, w.registry, w.requests, r, x);
  }

  lemma ReleasingKeepsLeases(t: SessionState, q: Requests, r: nat, x: Request)
    requires LeaseInv(t, q) && r in q && q[r].LeasesAny() && x.lease == q[r].lease && !x.LeasesAny()
    requires x.hold.Cleaning? ==> A.NeedsCleanup(t.live, x.lease.value.session)
    ensures LeaseInv(t.(live := A.Released(t.live, x.lease.value.session)), q[r := x])
  {
    var s := x.lease.value.session;
    A.ReleaseKeepsSound(t.live, t.issued, s);
    hide A.Sound;
    forall j ensures |Holders(q[r := x], j)| + One(j == s) == |Holders(q, j)| {
      HoldersChange(q, r, x, j);
    }
    forall p | p in q && p != r && q[p].LeasesAny() && !t.cleared
      ensures LeaseBacked(A.Released(t.live, s), q[p].lease.value)
    {
      OtherLeaseKeeps(t, q, r, p);
    }
    hide Holders;
  }

  /** When the last lease of a session goes, its logout entries pass to the release that is still to clean up. */
  lemma ReleasingKeepsLogout(t: SessionState, g: RegistryState, q: Requests, r: nat, x: Request)
    requires LogoutInv(t, g, q) && LeaseInv(t, q) && AllShaped(q) && r in q && q[r].hold.LeaseOnly? && q[r].lease.Some?
    requires x == q[r].(hold := if A.NeedsCleanup(t.live, q[r].lease.value.session) then Cleaning else Closed)
    ensures LogoutInv(t.(live := A.Released(t.live, x.lease.value.session)), g, q[r := x])
  {
    var s := x.lease.value.session;
    var t' := t.(live := A.Released(t.live, s));
    forall j | Covered(t.live, q, j) ensures Covered(t'.live, q[r := x], j) {
      CoveredFrame(t.live, q, r, x, j);
      if j == s && A.NeedsCleanup(t.live, s) {
        assert q[r := x][r].Cleans(s);
      }
    }
    forall p | p in q && q[p].worker.Working? && q[p].worker.loggedOut && !t.cleared
      ensures SignedOut(t'.live, q[p])
    {
      OtherLeaseKeeps(t, q, r, p);
    }
  }

  lemma OtherLeaseKeeps(t: SessionState, q: Requests, r: nat, p: nat)
    requires LeaseInv(t, q) && r in q && p in q && r != p && q[r].LeasesAny() && q[p].LeasesAny() && !t.cleared
    ensures var s, j := q[r].lease.value.session, q[p].lease.value.session;
            && j in A.Released(t.live, s) && A.Released(t.live, s)[j].token == t.live[j].token
            && A.Released(t.live, s)[j].invalidated == t.live[j].invalidated
  {
    hide A.Sound;
    var s, j := q[r].lease.value.session, q[p].lease.value.session;
    if s == j {
      assert {r, p} <= Holders(q, s);
      assert |Holders(q, s)| >= 2 by {
        assert Holders(q, s) == {r, p} + (Holders(q, s) - {r, p});
      }
    }
  }

  // ----- operation steps

  lemma AdmittingKeepsDrain(l: LifeState, sessionsCleared: bool, registryCleared: bool)
    requires DrainInv(l, sessionsCleared, registryCleared) && l.gate.phase.Running?
    ensures DrainInv(l.(gate := S.Admitted(l.gate)), sessionsCleared, registryCleared)
  {
  }

  lemma DroppingKeepsDrain(l: LifeState, sessionsCleared: bool, registryCleared: bool)
    requires DrainInv(l, sessionsCleared, registryCleared)
    ensures DrainInv(l.(gate := S.Dropped(l.gate)), sessionsCleared, registryCleared)
  {
    var l' := l.(gate := S.Dropped(l.gate));
    assert forall c: Caller :: FollowerSound(l, c) ==> FollowerSound(l', c);
  }

  lemma StartingKeepsActive(l: LifeState, q: Requests, r: nat, x: Request)
    requires ActiveInv(l, q) && (r in q ==> !q[r].Operates()) && x.Operates()
    ensures ActiveInv(l.(gate := S.Admitted(l.gate)), q[r := x])
  {
    OperatingChange(q, r, x);
  }

  lemma EndingKeepsActive(l: LifeState, q: Requests, r: nat, x: Request)
    requires ActiveInv(l, q) && r in q && q[r].Operates() && !x.Operates()
    ensures ActiveInv(l.(gate := S.Dropped(l.gate)), q[r := x])
  {
    OperatingChange(q, r, x);
  }

  lemma NewUnleasedKeepsLeases(t: SessionState, q: Requests, r: nat, x: Request)
    requires LeaseInv(t, q) && r !in q && x.lease.None?
    ensures LeaseInv(t, q[r := x])
  {
    forall s ensures |Holders(q[r := x], s)| == |Holders(q, s)| {
      HoldersChange(q, r, x, s);
    }
  }

  /** A request that changes neither its lease, its worker nor what it waits for. */
  lemma QuietChange(w: World, r: nat, x: Request)
    requires Inv(w) && r in w.requests && Shaped(x)
    requires x.lease == w.requests[r].lease && x.worker == w.requests[r].worker
    requires x.LeasesAny() == w.requests[r].LeasesAny()
    requires w.requests[r].hold.Cleaning? <==> x.hold.Cleaning?
    requires x.stage == w.requests[r].stage
             || (!x.stage.Waiting? && !x.stage.Answered? && !w.requests[r].stage.Waiting?)
    ensures var q := w.requests[r := x];
            && AllShaped(q) && LeaseInv(w.sessions, q) && WaitInv(w.registry, q)
            && OwnersInv(|w.registry.answers|, q) && WorkInv(w.registry, q) && LogoutInv(w.sessions, w.registry, q)
  {
    hide LeaseInv, ActiveInv, EntriesInv, WaitInv, OwnersInv, WorkInv, LogoutInv, DrainInv;
    LeaseFrame(w.sessions, w.requests, r, x);
    WaitFrame(w.registry, w.requests, r, x);
    OwnersFrame(|w.registry.answers|, w.requests, r, x);
    WorkFrame(w.registry, w.requests, r, x);
    LogoutFrame(w.sessions, w.registry, w.requests, r, x);
  }

  lemma BootstrapKeepsInv(w: World, w': World, r: nat)
    requires Inv(w) && OperationEnabled(w, Bootstrap(r)) && w' == OperationApply(w, Bootstrap(r))
    ensures Inv(w')
  {
    hide LeaseInv, ActiveInv, EntriesInv, WaitInv, OwnersInv, WorkInv, LogoutInv, DrainInv;
    var x := w'.requests[r];
    NewUnleasedKeepsLeases(w.sessions, w.requests, r, x);
    StartingKeepsActive(w.life, w.requests, r, x);
    AdmittingKeepsDrain(w.life, w.sessions.cleared, w.registry.cleared);
    WaitFrame(w.registry, w.requests, r, x);
    OwnersFrame(|w.registry.answers|, w.requests, r, x);
    WorkFrame(w.registry, w.requests, r, x);
    LogoutFrame(w.sessions, w.registry, w.requests, r, x);
  }

  lemma AdmitOperationKeepsInv(w: World, w': World, r: nat)
    requires Inv(w) && OperationEnabled(w, AdmitOperation(r)) && w' == OperationApply(w, AdmitOperation(r))
    ensures Inv(w')
  {
    hide LeaseInv, ActiveInv, EntriesInv, WaitInv, OwnersInv, WorkInv, LogoutInv, DrainInv;
    var x := w'.requests[r];
    QuietChange(w, r, x);
    if w.life.gate.phase.Running? {
      StartingKeepsActive(w.life, w.requests, r, x);
      AdmittingKeepsDrain(w.life, w.sessions.cleared, w.registry.cleared);
    } else {
      ActiveFrame(w.life, w.requests, r, x);
    }
  }

  lemma DropHandlerKeepsInv(w: World, w': World, r: nat)
    requires Inv(w) && OperationEnabled(w, DropHandler(r)) && w' == OperationApply(w, DropHandler(r))
    ensures Inv(w')
  {
    hide LeaseInv, ActiveInv, EntriesInv, WaitInv, OwnersInv, WorkInv, LogoutInv, DrainInv;
    QuietChange(w, r, w'.requests[r]);
    ActiveFrame(w.life, w.requests, r, w'.requests[r]);
  }

  lemma ReleaseOperationKeepsInv(w: World, w': World, r: nat)
    requires Inv(w) && OperationEnabled(w, ReleaseOperation(r)) && w' == OperationApply(w, ReleaseOperation(r))
    ensures Inv(w')
  {
    hide LeaseInv, ActiveInv, EntriesInv, WaitInv, OwnersInv, WorkInv, LogoutInv, DrainInv;
    QuietChange(w, r, w'.requests[r]);
    EndingKeepsActive(w.life, w.requests, r, w'.requests[r]);
    DroppingKeepsDrain(w.life, w.sessions.cleared, w.registry.cleared);
  }

  lemma DropWorkerKeepsInv(w: World, w': World, r: nat)
    requires Inv(w) && OperationEnabled(w, DropWorker(r)) && w' == OperationApply(w, DropWorker(r))
    ensures Inv(w')
  {
    hide LeaseInv, ActiveInv, EntriesInv, WaitInv, OwnersInv, WorkInv, LogoutInv, DrainInv;
    var x := w'.requests[r];
    LeaseFrame(w.sessions, w.requests, r, x);
    ActiveFrame(w.life, w.requests, r, x);
    WaitFrame(w.registry, w.requests, r, x);
    OwnersFrame(|w.registry.answers|, w.requests, r, x);
    RestingKeepsWork(w.sessions, w.registry, w.requests, r, x);
  }

  lemma RestingKeepsWork(t: SessionState, g: RegistryState, q: Requests, r: nat, x: Request)
    requires WorkInv(g, q) && LogoutInv(t, g, q) && r in q && !q[r].worker.Working? && !x.worker.Working?
    requires x.hold == q[r].hold && x.lease == q[r].lease
    ensures WorkInv(g, q[r := x]) && LogoutInv(t, g, q[r := x])
  {
    forall k | InHand(q, k) ensures InHand(q[r := x], k) {
      var p :| p in q && q[p].WorksOn(k);
      assert q[r := x][p].WorksOn(k);
    }
    forall s | Covered(t.live, q, s) ensures Covered(t.live, q[r := x], s) {
      CoveredFrame(t.live, q, r, x, s);
    }
  }
}
