/** Every registry and shutdown step keeps the control plane's invariant, and so every run does. */
module ControlPlaneSteps {
  import opened CloudTypes
  import opened ControlPlane
  import opened ControlPlaneInvariant
  import A = AppSessions
  import I = IdempotencyRegistry

  // ----- evicting

  lemma WaitedIsNotEvictable(g: RegistryState, q: Requests, r: nat)
    requires WaitInv(g, q) && r in q && q[r].stage.Waiting?
    ensures g.entries[q[r].stage.key].waiters > 0
  {
    assert r in Waiters(q, q[r].stage.key);
  }

  lemma EvictKeepsEntries(g: RegistryState, trimmed: I.Entries)
    requires EntriesInv(g) && I.Evicted(g.entries, trimmed)
    ensures EntriesInv(g.(entries := trimmed))
  {
  }

  lemma EvictKeepsWaits(g: RegistryState, q: Requests, trimmed: I.Entries)
    requires WaitInv(g, q) && I.Evicted(g.entries, trimmed)
    ensures WaitInv(g.(entries := trimmed), q)
  {
    forall r | r in q ensures WaiterSound(g.(entries := trimmed), q[r]) {
      if q[r].stage.Waiting? {
        WaitedIsNotEvictable(g, q, r);
      }
    }
  }

  lemma EvictKeepsWork(t: SessionState, g: RegistryState, q: Requests, trimmed: I.Entries)
    requires EntriesInv(g) && WorkInv(g, q) && LogoutInv(t, g, q) && I.Evicted(g.entries, trimmed)
    ensures WorkInv(g.(entries := trimmed), q) && LogoutInv(t, g.(entries := trimmed), q)
  {
  }

  lemma EvictKeepsInv(w: World, trimmed: I.Entries)
    requires Inv(w) && I.Evicted(w.registry.entries, trimmed)
    ensures Inv(w.(registry := w.registry.(entries := trimmed)))
  {
    hide LeaseInv, ActiveInv, EntriesInv, WaitInv, OwnersInv, WorkInv, LogoutInv, DrainInv;
    EvictKeepsEntries(w.registry, trimmed);
    EvictKeepsWaits(w.registry, w.requests, trimmed);
    EvictKeepsWork(w.sessions, w.registry, w.requests, trimmed);
  }

  lemma RefuseJoinKeepsInv(w: World, w': World, s: RegistryStep)
    requires Inv(w) && s.RefuseJoin? && RegistryEnabled(w, s) && w' == RegistryApply(w, s)
    ensures Inv(w')
  {
    var r, trimmed := s.r, s.trimmed;
    hide I.Trims, I.Crowded, LeaseInv, ActiveInv, EntriesInv, WaitInv, OwnersInv, WorkInv, LogoutInv, DrainInv;
    var v := w.(registry := w.registry.(entries := trimmed));
    EvictKeepsInv(w, trimmed);
    QuietChange(v, r, w'.requests[r]);
    ActiveFrame(v.life, v.requests, r, w'.requests[r]);
  }

  // ----- waiting

  /** A change of stage alone leaves everything but the waiters as it was. */
  lemma StageChange(w: World, r: nat, x: Request)
    requires Inv(w) && r in w.requests && Shaped(x) && x == w.requests[r].(stage := x.stage)
    ensures var q := w.requests[r := x];
            && AllShaped(q) && LeaseInv(w.sessions, q) && ActiveInv(w.life, q)
            && OwnersInv(|w.registry.answers|, q) && WorkInv(w.registry, q) && LogoutInv(w.sessions, w.registry, q)
  {
    hide LeaseInv, ActiveInv, EntriesInv, WaitInv, OwnersInv, WorkInv, LogoutInv, DrainInv;
    LeaseFrame(w.sessions, w.requests, r, x);
    ActiveFrame(w.life, w.requests, r, x);
    OwnersFrame(|w.registry.answers|, w.requests, r, x);
    WorkFrame(w.registry, w.requests, r, x);
    LogoutFrame(w.sessions, w.registry, w.requests, r, x);
  }

  lemma WatchKeepsWaits(g: RegistryState, q: Requests, r: nat, x: Request)
    requires WaitInv(g, q) && r in q && q[r].stage.Waiting? && x.stage.Waiting? && WaiterSound(g, x)
    requires x.stage.key == q[r].stage.key
    ensures WaitInv(g, q[r := x])
  {
    forall k ensures |Waiters(q[r := x], k)| == |Waiters(q, k)| {
      WaitersChange(q, r, x, k);
    }
  }

  lemma WatchKeepsInv(w: World, w': World, r: nat, watch: Watch)
    requires Inv(w) && r in w.requests && w.requests[r].stage.Waiting?
    requires w' == w.(requests := w.requests[r :=
                        w.requests[r].(stage := w.requests[r].stage.(watch := watch))])
    requires WaiterSound(w.registry, w'.requests[r])
    ensures Inv(w')
  {
    hide LeaseInv, ActiveInv, EntriesInv, WaitInv, OwnersInv, WorkInv, LogoutInv, DrainInv, WaiterSound;
    StageChange(w, r, w'.requests[r]);
    WatchKeepsWaits(w.registry, w.requests, r, w'.requests[r]);
  }

  lemma WaiterFacts(w: World, r: nat)
    requires Inv(w) && r in w.requests && w.requests[r].stage.Waiting?
    ensures var x, g := w.requests[r], w.registry;
            && WaiterSound(g, x) && x.stage.key in g.entries && EntryAnswered(g.entries[x.stage.key], g.answers)
            && g.entries[x.stage.key].waiters > 0 && x.hold.Held? && Shaped(x)
  {
    WaitedIsNotEvictable(w.registry, w.requests, r);
  }

  lemma ArmKeepsInv(w: World, w': World, r: nat)
    requires Inv(w) && RegistryEnabled(w, Arm(r)) && w' == RegistryApply(w, Arm(r))
    ensures Inv(w')
  {
    hide Inv;
    WaiterFacts(w, r);
    WatchKeepsInv(w, w', r, w'.requests[r].stage.watch);
  }

  lemma WakeKeepsInv(w: World, w': World, r: nat)
    requires Inv(w) && RegistryEnabled(w, Wake(r)) && w' == RegistryApply(w, Wake(r))
    ensures Inv(w')
  {
    hide Inv;
    WaiterFacts(w, r);
    WatchKeepsInv(w, w', r, Awake);
  }

  /** A waiter leaves: its entry loses one from its count and nothing else. */
  lemma LeaveKeepsWaits(g: RegistryState, q: Requests, r: nat, x: Request)
    requires WaitInv(g, q) && r in q && q[r].stage.Waiting? && !x.stage.Waiting? && WaiterSound(g, x)
    ensures WaitInv(g.(entries := I.WaiterLeaves(g.entries, q[r].stage.key)), q[r := x])
  {
    var key := q[r].stage.key;
    WaitedIsNotEvictable(g, q, r);
    forall k ensures |Waiters(q[r := x], k)| + One(k == key) == |Waiters(q, k)| {
      WaitersChange(q, r, x, k);
    }
    var g' := g.(entries := I.WaiterLeaves(g.entries, key));
    forall p | p in q && p != r ensures WaiterSound(g', q[p]) {
      assert WaiterSound(g, q[p]);
    }
  }

  lemma CountOnlyKeepsEntries(g: RegistryState, key: I.Key, n: nat)
    requires EntriesInv(g) && key in g.entries
    ensures EntriesInv(g.(entries := g.entries[key := g.entries[key].(waiters := n)]))
  {
  }

  lemma CountOnlyKeepsWork(t: SessionState, g: RegistryState, q: Requests, key: I.Key, n: nat)
    requires WorkInv(g, q) && LogoutInv(t, g, q) && key in g.entries
    ensures var g' := g.(entries := g.entries[key := g.entries[key].(waiters := n)]);
            WorkInv(g', q) && LogoutInv(t, g', q)
  {
    var g' := g.(entries := g.entries[key := g.entries[key].(waiters := n)]);
    forall r | r in q ensures WorkerSound(g', q[r]) {
      assert WorkerSound(g, q[r]);
    }
  }

  lemma LeaveKeepsInv(w: World, w': World, r: nat, x: Request)
    requires Inv(w) && r in w.requests && w.requests[r].stage.Waiting?
    requires x == w.requests[r].(stage := x.stage) && x.hold.Held? && Shaped(x)
    requires !x.stage.Waiting? && WaiterSound(w.registry, x)
    requires w' == w.(registry := w.registry.(entries := I.WaiterLeaves(w.registry.entries, w.requests[r].stage.key)),
                      requests := w.requests[r := x])
    ensures Inv(w')
  {
    WaiterFacts(w, r);
    hide LeaseInv, ActiveInv, EntriesInv, WaitInv, OwnersInv, WorkInv, LogoutInv, DrainInv, WaiterSound, EntryAnswered;
    var key := w.requests[r].stage.key;
    var n := w.registry.entries[key].waiters - 1;
    StageChange(w, r, x);
    LeaveKeepsWaits(w.registry, w.requests, r, x);
    CountOnlyKeepsEntries(w.registry, key, n);
    CountOnlyKeepsWork(w.sessions, w.registry, w'.requests, key, n);
    EmptyStaysEmpty(w.registry, key);
  }

  lemma EmptyStaysEmpty(g: RegistryState, key: I.Key)
    requires EntriesInv(g) && key in g.entries
    ensures !g.cleared
  {
  }

  lemma CancelWaitKeepsInv(w: World, w': World, r: nat)
    requires Inv(w) && RegistryEnabled(w, CancelWait(r)) && w' == RegistryApply(w, CancelWait(r))
    ensures Inv(w')
  {
    hide Inv;
    WaiterFacts(w, r);
    LeaveKeepsInv(w, w', r, w'.requests[r]);
  }

  lemma CheckKeepsInv(w: World, w': World, r: nat)
    requires Inv(w) && RegistryEnabled(w, Check(r)) && w' == RegistryApply(w, Check(r))
    ensures Inv(w')
  {
    hide Inv;
    WaiterFacts(w, r);
    if I.Taken(w.registry.entries, w.requests[r].stage.key).Ready? {
      LeaveKeepsInv(w, w', r, w'.requests[r]);
    } else {
      WatchKeepsInv(w, w', r, w'.requests[r].stage.watch);
    }
  }

  // ----- joining

  lemma JoinExistingKeepsWaits(g: RegistryState, q: Requests, r: nat, key: I.Key)
    requires WaitInv(g, q) && r in q && q[r].stage.Serving? && key in g.entries
    requires LeaseMatches(g.entries[key].identity, q[r])
    ensures var e := g.entries[key];
            WaitInv(g.(entries := g.entries[key := e.(waiters := e.waiters + 1)]),
                    q[r := q[r].(stage := Waiting(key, e.residency, Awake))])
  {
    var e := g.entries[key];
    var x := q[r].(stage := Waiting(key, e.residency, Awake));
    forall k ensures |Waiters(q[r := x], k)| == |Waiters(q, k)| + One(k == key) {
      WaitersChange(q, r, x, k);
    }
    var g' := g.(entries := g.entries[key := e.(waiters := e.waiters + 1)]);
    forall p | p in q && p != r ensures WaiterSound(g', q[p]) {
      assert WaiterSound(g, q[p]);
    }
  }

  lemma JoinExistingKeepsInv(w: World, w': World, r: nat, key: I.Key)
    requires Inv(w) && r in w.requests && w.requests[r].stage.Serving? && w.requests[r].lease.Some?
    requires key in w.registry.entries && LeaseMatches(w.registry.entries[key].identity, w.requests[r])
    requires var e := w.registry.entries[key];
             w' == w.(registry := w.registry.(entries := w.registry.entries[key := e.(waiters := e.waiters + 1)]),
                      requests := w.requests[r := w.requests[r].(stage := Waiting(key, e.residency, Awake))])
    ensures Inv(w')
  {
    hide LeaseInv, ActiveInv, EntriesInv, WaitInv, OwnersInv, WorkInv, LogoutInv, DrainInv, LeaseMatches;
    var e := w.registry.entries[key];
    StageChange(w, r, w'.requests[r]);
    JoinExistingKeepsWaits(w.registry, w.requests, r, key);
    CountOnlyKeepsEntries(w.registry, key, e.waiters + 1);
    CountOnlyKeepsWork(w.sessions, w.registry, w'.requests, key, e.waiters + 1);
  }

  /** The insertion of a new in-flight entry under a fresh residency. */
  function Inserted(g: RegistryState, key: I.Key, identity: I.RequestIdentity): RegistryState {
    g.(entries := g.entries[key := I.NewEntry(identity, |g.answers|)], answers := g.answers + [[]])
  }

  lemma InsertKeepsEntries(g: RegistryState, key: I.Key, identity: I.RequestIdentity)
    requires EntriesInv(g) && key !in g.entries && !g.cleared
    ensures EntriesInv(Inserted(g, key, identity))
  {
    var g' := Inserted(g, key, identity);
    forall k | k in g.entries ensures EntryAnswered(g'.entries[k], g'.answers) {
      assert EntryAnswered(g.entries[k], g.answers);
    }
  }

  lemma NobodyWaits(g: RegistryState, q: Requests, key: I.Key)
    requires WaitInv(g, q) && key !in g.entries
    ensures |Waiters(q, key)| == 0
  {
    assert Waiters(q, key) == {} by {
      assert forall p :: p in q ==> WaiterSound(g, q[p]);
    }
  }

  lemma InsertedWaiter(q: Requests, r: nat, x: Request, key: I.Key, k: I.Key)
    requires r in q && q[r].stage.Serving? && x.stage.Waiting? && x.stage.key == key
    ensures |Waiters(q[r := x], k)| == |Waiters(q, k)| + One(k == key)
  {
    WaitersChange(q, r, x, k);
    hide Waiters;
  }

  lemma InsertKeepsWaits(g: RegistryState, q: Requests, r: nat, x: Request, key: I.Key, identity: I.RequestIdentity)
    requires EntriesInv(g) && WaitInv(g, q) && r in q && q[r].stage.Serving? && key !in g.entries
    requires x.stage == Waiting(key, |g.answers|, Awake) && LeaseMatches(identity, x)
    ensures WaitInv(Inserted(g, key, identity), q[r := x])
  {
    var g' := Inserted(g, key, identity);
    hide EntriesInv, Waiters;
    NobodyWaits(g, q, key);
    forall k ensures |Waiters(q[r := x], k)| == |Waiters(q, k)| + One(k == key) {
      InsertedWaiter(q, r, x, key, k);
    }
    forall p | p in q && p != r ensures WaiterSound(g', q[p]) {
      assert WaiterSound(g, q[p]);
    }
  }

  lemma InsertKeepsOwners(n: nat, q: Requests, r: nat, x: Request)
    requires OwnersInv(n, q) && r in q && q[r].worker.Idle? && x.worker.Working? && x.worker.residency == n
    ensures OwnersInv(n + 1, q[r := x])
  {
    var m := q[r := x];
    forall i | 0 <= i < n + 1 ensures Owned(m, i) {
      if i == n {
        assert m[r].Owns(i);
      } else {
        assert Owned(q, i);
        var p :| p in q && q[p].Owns(i);
        assert m[p].Owns(i);
      }
    }
  }

  lemma InsertKeepsWork(g: RegistryState, q: Requests, r: nat, x: Request, key: I.Key, identity: I.RequestIdentity)
    requires EntriesInv(g) && WorkInv(g, q) && r in q && q[r].worker.Idle? && key !in g.entries
    requires x.worker == Working(key, |g.answers|, identity.logoutSession.Some?, false) && LeaseMatches(identity, x)
    ensures WorkInv(Inserted(g, key, identity), q[r := x])
  {
    var m := q[r := x];
    assert m[r].WorksOn(key);
    forall k | InHand(q, k) ensures InHand(m, k) {
      var p :| p in q && q[p].WorksOn(k);
      assert m[p].WorksOn(k);
    }
    forall p | p in q && p != r ensures WorkerSound(Inserted(g, key, identity), q[p]) {
      assert WorkerSound(g, q[p]);
    }
  }

  lemma InsertKeepsLogout(t: SessionState, g: RegistryState, q: Requests, r: nat, x: Request, key: I.Key,
                          identity: I.RequestIdentity)
    requires LogoutInv(t, g, q) && r in q && key !in g.entries && x.hold == q[r].hold && x.lease == q[r].lease
    requires x.worker == Working(key, |g.answers|, identity.logoutSession.Some?, false)
    ensures LogoutInv(t, Inserted(g, key, identity), q[r := x])
  {
    forall s | Covered(t.live, q, s) ensures Covered(t.live, q[r := x], s) {
      CoveredFrame(t.live, q, r, x, s);
    }
  }

  lemma InsertKeepsInv(w: World, w': World, r: nat, key: I.Key, identity: I.RequestIdentity)
    requires Inv(w) && r in w.requests && w.requests[r].stage.Serving? && w.requests[r].worker.Idle?
    requires w.requests[r].lease.Some? && key !in w.registry.entries && LeaseMatches(identity, w.requests[r])
    requires w' == w.(registry := Inserted(w.registry, key, identity),
                      requests := w.requests[r := w.requests[r].(
                        stage := Waiting(key, |w.registry.answers|, Awake),
                        worker := Working(key, |w.registry.answers|, identity.logoutSession.Some?, false))])
    ensures Inv(w')
  {
    hide LeaseInv, ActiveInv, EntriesInv, WaitInv, OwnersInv, WorkInv, LogoutInv, DrainInv;
    var x, q, g := w'.requests[r], w.requests, w.registry;
    assert Shaped(q[r]);
    OperatingMeansUncleared(w, r);
    LeaseFrame(w.sessions, q, r, x);
    ActiveFrame(w.life, q, r, x);
    InsertKeepsEntries(g, key, identity);
    InsertKeepsWaits(g, q, r, x, key, identity);
    InsertKeepsOwners(|g.answers|, q, r, x);
    InsertKeepsWork(g, q, r, x, key, identity);
    InsertKeepsLogout(w.sessions, g, q, r, x, key, identity);
  }

  lemma JoinKeepsInv(w: World, w': World, s: RegistryStep)
    requires Inv(w) && s.Join? && RegistryEnabled(w, s) && w' == RegistryApply(w, s)
    ensures Inv(w')
  {
    hide Inv, I.Trims, I.Crowded;
    var r, key, identity, trimmed := s.r, s.key, s.identity, s.trimmed;
    EvictKeepsInv(w, trimmed);
    var v := w.(registry := w.registry.(entries := trimmed));
    if key in trimmed {
      JoinExistingKeepsInv(v, w', r, key);
    } else {
      InsertKeepsInv(v, w', r, key, identity);
    }
  }

  // ----- completing

  function Filled(g: RegistryState, key: I.Key, response: I.Response, disposition: I.Disposition, n: nat): RegistryState
  {
    g.(entries := I.Answered(g.entries, key, response, disposition, n), answers := Rung(g, key, response))
  }

  lemma FillKeepsEntry(g: RegistryState, key: I.Key, response: I.Response, disposition: I.Disposition, n: nat, k: I.Key)
    requires key in g.entries && g.entries[key].state.InFlight? && k in g.entries
    requires EntryAnswered(g.entries[key], g.answers) && EntryAnswered(g.entries[k], g.answers)
    requires g.entries[k].residency == g.entries[key].residency ==> k == key
    ensures var g' := Filled(g, key, response, disposition, n);
            && k in g'.entries && EntryAnswered(g'.entries[k], g'.answers)
            && g'.entries[k].residency == g.entries[k].residency
  {
  }

  lemma FilledShape(g: RegistryState, key: I.Key, response: I.Response, disposition: I.Disposition, n: nat)
    requires key in g.entries && g.entries[key].state.InFlight? && EntryAnswered(g.entries[key], g.answers)
    ensures var g' := Filled(g, key, response, disposition, n);
            && g'.entries.Keys == g.entries.Keys && g'.cleared == g.cleared
            && g.entries[key].residency < |g.answers|
            && g'.answers == g.answers[g.entries[key].residency := [response]]
  {
    assert g.answers[g.entries[key].residency] + [response] == [response];
  }

  lemma FillKeepsEntries(g: RegistryState, key: I.Key, response: I.Response, disposition: I.Disposition, n: nat)
    requires EntriesInv(g) && key in g.entries && g.entries[key].state.InFlight?
    ensures EntriesInv(Filled(g, key, response, disposition, n))
  {
    hide Filled, EntryAnswered;
    var g' := Filled(g, key, response, disposition, n);
    FilledShape(g, key, response, disposition, n);
    forall k | k in g.entries
      ensures EntryAnswered(g'.entries[k], g'.answers) && g'.entries[k].residency == g.entries[k].residency
    {
      FillKeepsEntry(g, key, response, disposition, n, k);
    }
  }

  lemma FillKeepsWaits(g: RegistryState, q: Requests, key: I.Key, response: I.Response, disposition: I.Disposition,
                       n: nat)
    requires EntriesInv(g) && WaitInv(g, q) && key in g.entries && g.entries[key].state.InFlight?
    ensures WaitInv(Filled(g, key, response, disposition, n), q)
  {
    var g' := Filled(g, key, response, disposition, n);
    assert EntryAnswered(g.entries[key], g.answers);
    forall p | p in q ensures WaiterSound(g', q[p]) {
      assert WaiterSound(g, q[p]);
    }
  }

  lemma FillKeepsWork(g: RegistryState, q: Requests, r: nat, x: Request, response: I.Response,
                      disposition: I.Disposition, n: nat)
    requires WorkInv(g, q) && OwnersInv(|g.answers|, q) && r in q && q[r].worker.Working?
    requires x == q[r].(worker := Finished(q[r].worker.residency))
    ensures WorkInv(Filled(g, q[r].worker.key, response, disposition, n), q[r := x])
  {
    var key := q[r].worker.key;
    var g', m := Filled(g, key, response, disposition, n), q[r := x];
    assert WorkerSound(g, q[r]);
    forall p | p in q && p != r ensures WorkerSound(g', q[p]) && !q[p].WorksOn(key) {
      assert WorkerSound(g, q[p]);
    }
    forall k | k in g'.entries && g'.entries[k].state.InFlight? ensures InHand(m, k) {
      assert InHand(q, k);
      var p :| p in q && q[p].WorksOn(k);
      assert m[p].WorksOn(k);
    }
  }

  /** A logout's answer is filled in by a worker that has invalidated the session and still holds its lease. */
  lemma FillKeepsLogout(t: SessionState, g: RegistryState, q: Requests, r: nat, x: Request, response: I.Response,
                        disposition: I.Disposition, n: nat)
    requires LogoutInv(t, g, q) && LeaseInv(t, q) && WorkInv(g, q) && r in q && q[r].worker.Working?
    requires q[r].LeasesAny() && x == q[r].(worker := Finished(q[r].worker.residency))
    requires disposition.RemoveAfterAuthSession? ==>
               q[r].worker.logout && q[r].worker.loggedOut && disposition.session == q[r].lease.value.session
    ensures LogoutInv(t, Filled(g, q[r].worker.key, response, disposition, n), q[r := x])
  {
    assert WorkerSound(g, q[r]);
    if !t.cleared {
      LeasedIsActive(t, q, r);
    }
    assert disposition.RemoveAfterAuthSession? && !t.cleared ==> Covered(t.live, q, disposition.session);
    forall s | Covered(t.live, q, s) ensures Covered(t.live, q[r := x], s) {
      CoveredFrame(t.live, q, r, x, s);
    }
  }

  lemma FillKeepsInv(w: World, w': World, r: nat, response: I.Response, disposition: I.Disposition, n: nat)
    requires Inv(w) && r in w.requests && w.requests[r].worker.Working? && w.requests[r].lease.Some?
    requires disposition.RemoveAfterAuthSession? ==>
               && w.requests[r].worker.logout && w.requests[r].worker.loggedOut
               && disposition.session == w.requests[r].lease.value.session
    requires w' == w.(registry := Filled(w.registry, w.requests[r].worker.key, response, disposition, n),
                      requests := w.requests[r := w.requests[r].(worker := Finished(w.requests[r].worker.residency))])
    ensures Inv(w')
  {
    hide LeaseInv, ActiveInv, EntriesInv, WaitInv, OwnersInv, WorkInv, LogoutInv, DrainInv;
    WorkerFacts(w, r);
    hide LeaseMatches;
    var x, q, g, key := w'.requests[r], w.requests, w.registry, w.requests[r].worker.key;
    assert Shaped(q[r]);
    LeaseFrame(w.sessions, q, r, x);
    ActiveFrame(w.life, q, r, x);
    FillKeepsEntries(g, key, response, disposition, n);
    FillKeepsWaits(g, q, key, response, disposition, n);
    WaitFrame(w'.registry, q, r, x);
    OwnersFrame(|g.answers|, q, r, x);
    FillKeepsWork(g, q, r, x, response, disposition, n);
    FillKeepsLogout(w.sessions, g, q, r, x, response, disposition, n);
  }

  lemma WorkerFacts(w: World, r: nat)
    requires Inv(w) && r in w.requests && w.requests[r].worker.Working?
    ensures WorkerSound(w.registry, w.requests[r])
  {
  }

  lemma CompleteKeepsInv(w: World, w': World, r: nat, response: I.Response, disposition: I.Disposition, n: nat,
                         trimmed: I.Entries)
    requires Inv(w) && RegistryEnabled(w, ControlPlane.Complete(r, response, disposition, n, trimmed))
    requires w' == RegistryApply(w, ControlPlane.Complete(r, response, disposition, n, trimmed))
    ensures Inv(w')
  {
    hide Inv;
    var x := w.requests[r];
    var v := w.(registry := Filled(w.registry, x.worker.key, response, disposition, n),
                requests := w.requests[r := x.(worker := Finished(x.worker.residency))]);
    FillKeepsInv(w, v, r, response, disposition, n);
    EvictKeepsInv(v, trimmed);
  }

  // ----- cleaning up

  /** Whoever waits on a logout entry of a session keeps that session in the registry. */
  lemma LogoutWaiterBacks(w: World, p: nat, s: A.SessionSeq)
    requires Inv(w) && p in w.requests && w.requests[p].stage.Waiting?
    requires w.registry.entries[w.requests[p].stage.key].identity.logoutSession == Some(s)
    ensures s in w.sessions.live
  {
    WaiterFacts(w, p);
    OperatingMeansUncleared(w, p);
    assert w.requests[p].LeasesAny();
  }

  lemma LogoutWaitersBack(w: World, k: I.Key)
    requires Inv(w) && k in w.registry.entries && w.registry.entries[k].identity.logoutSession.Some?
    ensures forall p :: p in w.requests && w.requests[p].WaitsOn(k)
                        ==> w.registry.entries[k].identity.logoutSession.value in w.sessions.live
  {
    forall p | p in w.requests && w.requests[p].WaitsOn(k)
      ensures w.registry.entries[k].identity.logoutSession.value in w.sessions.live
    {
      LogoutWaiterBacks(w, p, w.registry.entries[k].identity.logoutSession.value);
    }
  }

  /** Nobody waits on a logout entry of a session whose release is cleaning up. */
  lemma CleanedIsUnwaited(w: World, r: nat, k: I.Key)
    requires Inv(w) && r in w.requests && w.requests[r].hold.Cleaning? && w.requests[r].lease.Some?
    requires k in w.registry.entries
    requires w.registry.entries[k].identity.logoutSession == Some(w.requests[r].lease.value.session)
    ensures w.registry.entries[k].waiters == 0
  {
    LogoutWaitersBack(w, k);
    assert Waiters(w.requests, k) == {};
  }

  lemma CleaningKeepsLogout(t: SessionState, g: RegistryState, q: Requests, r: nat, x: Request, s: A.SessionSeq)
    requires LogoutInv(t, g, q) && r in q && q[r].Cleans(s) && x == q[r].(hold := Closed)
    requires forall k :: k in g.entries && g.entries[k].state.Complete? ==>
               g.entries[k].state.disposition != I.RemoveAfterAuthSession(s)
    ensures LogoutInv(t, g, q[r := x])
  {
    forall j | Covered(t.live, q, j) && j != s ensures Covered(t.live, q[r := x], j) {
      CoveredFrame(t.live, q, r, x, j);
    }
  }

  lemma CleanupEvicts(w: World, r: nat)
    requires Inv(w) && r in w.requests && w.requests[r].hold.Cleaning? && w.requests[r].lease.Some?
    ensures var s, m := w.requests[r].lease.value.session, w.registry.entries;
            && I.Evicted(m, m - I.BoundToSession(m, s))
            && forall k :: k in m && k !in I.BoundToSession(m, s) && m[k].state.Complete?
                           ==> m[k].state.disposition != I.RemoveAfterAuthSession(s)
  {
    var s, m := w.requests[r].lease.value.session, w.registry.entries;
    forall k | k in m ensures EntryAnswered(m[k], w.registry.answers) && BoundRight(m[k]) {
    }
    forall k | k in m && m[k].identity.logoutSession == Some(s) ensures m[k].waiters == 0 {
      CleanedIsUnwaited(w, r, k);
    }
  }

  lemma CleanupKeepsInv(w: World, w': World, r: nat)
    requires Inv(w) && RegistryEnabled(w, Cleanup(r)) && w' == RegistryApply(w, Cleanup(r))
    ensures Inv(w')
  {
    hide LeaseInv, ActiveInv, EntriesInv, WaitInv, OwnersInv, WorkInv, LogoutInv, DrainInv;
    var x, s := w'.requests[r], w.requests[r].lease.value.session;
    CleanupEvicts(w, r);
    var v := w.(registry := w'.registry);
    EvictKeepsInv(w, v.registry.entries);
    assert Shaped(w.requests[r]);
    LeaseFrame(v.sessions, v.requests, r, x);
    ActiveFrame(v.life, v.requests, r, x);
    WaitFrame(v.registry, v.requests, r, x);
    OwnersFrame(|v.registry.answers|, v.requests, r, x);
    WorkFrame(v.registry, v.requests, r, x);
    CleaningKeepsLogout(v.sessions, v.registry, v.requests, r, x, s);
  }

  // ----- shutdown

  lemma EnterKeepsDrain(l: LifeState, c: nat, sessionsCleared: bool, registryCleared: bool)
    requires DrainInv(l, sessionsCleared, registryCleared) && c !in l.callers
    ensures DrainInv(ShutdownLife(l, Enter(c)), sessionsCleared, registryCleared)
  {
    var l' := ShutdownLife(l, Enter(c));
    forall d | d in l.callers && l.leader != Some(d) ensures FollowerSound(l', l.callers[d]) {
      assert FollowerSound(l, l.callers[d]);
    }
  }

  /** Only the leader takes the steps after draining. */
  lemma OnlyLeaderActs(l: LifeState, c: nat, sessionsCleared: bool, registryCleared: bool)
    requires DrainInv(l, sessionsCleared, registryCleared) && c in l.callers
    requires !l.callers[c].Following? && !l.callers[c].Returned?
    ensures l.leader == Some(c) && LeaderSound(l, l.callers[c], sessionsCleared, registryCleared)
    ensures forall d :: d in l.callers && d != c ==> l.callers[d].Following?
  {
    assert l.leader != Some(c) ==> FollowerSound(l, l.callers[c]);
    forall d | d in l.callers && d != c ensures l.callers[d].Following? {
      assert FollowerSound(l, l.callers[d]);
    }
  }

  lemma LeaderKeepsDrain(l: LifeState, s: ShutdownStep, sessionsCleared: bool, registryCleared: bool)
    requires DrainInv(l, sessionsCleared, registryCleared) && !s.Enter? && !s.Follow? && s.c in l.callers
    requires match s
             case Drained(c) => l.callers[c].Draining? && l.gate.active == 0
             case LowerCleanup(c, _, _) => l.callers[c].Leading?
             case ClearSessions(c) => l.callers[c].Cleaned?
             case ClearRegistry(c) => l.callers[c].SessionsGone?
             case Finish(c) => l.callers[c].RegistryGone?
             case _ => true
    ensures DrainInv(ShutdownLife(l, s), sessionsCleared || s.ClearSessions?, registryCleared || s.ClearRegistry?)
  {
    OnlyLeaderActs(l, s.c, sessionsCleared, registryCleared);
    var l' := ShutdownLife(l, s);
    assert forall d :: d in l'.callers && l'.leader != Some(d) ==> FollowerSound(l', l'.callers[d]);
  }

  lemma FollowKeepsDrain(l: LifeState, c: nat, sessionsCleared: bool, registryCleared: bool)
    requires DrainInv(l, sessionsCleared, registryCleared)
    requires c in l.callers && l.callers[c].Following? && l.gate.phase.Complete?
    ensures DrainInv(ShutdownLife(l, Follow(c)), sessionsCleared, registryCleared)
  {
    assert l.leader != Some(c) by {
      assert l.leader.Some? ==> LeaderSound(l, l.callers[l.leader.value], sessionsCleared, registryCleared);
    }
    var l' := ShutdownLife(l, Follow(c));
    forall d | d in l.callers && l.leader != Some(d) ensures FollowerSound(l', l'.callers[d]) {
      assert FollowerSound(l, l.callers[d]);
    }
  }

  lemma DrainStepKeeps(w: World, w': World, s: ShutdownStep)
    requires Inv(w) && ShutdownEnabled(w, s) && w' == ShutdownApply(w, s)
    ensures DrainInv(w'.life, w'.sessions.cleared, w'.registry.cleared) && w'.life.gate.active == w.life.gate.active
  {
    hide LeaseInv, ActiveInv, EntriesInv, WaitInv, OwnersInv, WorkInv, LogoutInv, DrainInv;
    match s {
      case Enter(c) => EnterKeepsDrain(w.life, c, w.sessions.cleared, w.registry.cleared);
      case Follow(c) => FollowKeepsDrain(w.life, c, w.sessions.cleared, w.registry.cleared);
      case _ => LeaderKeepsDrain(w.life, s, w.sessions.cleared, w.registry.cleared);
    }
  }

  /** Once the leader leads, no request holds an operation, so none waits and none works. */
  lemma QuietOnceDrained(w: World)
    requires Inv(w) && w.life.gate.active == 0
    ensures forall r :: r in w.requests ==>
              !w.requests[r].Operates() && !w.requests[r].stage.Waiting? && !w.requests[r].worker.Working?
  {
    assert Operating(w.requests) == {};
    forall r | r in w.requests ensures !w.requests[r].Operates() && Shaped(w.requests[r]) {
      assert r !in Operating(w.requests);
    }
  }

  lemma ClearSessionsKeepsInv(w: World, w': World, c: nat)
    requires Inv(w) && ShutdownEnabled(w, ClearSessions(c)) && w' == ShutdownApply(w, ClearSessions(c))
    ensures Inv(w')
  {
    DrainStepKeeps(w, w', ClearSessions(c));
    ClearingKeepsLeases(w.sessions, w.requests);
    assert LogoutInv(w'.sessions, w.registry, w.requests);
    hide LeaseInv, EntriesInv, WaitInv, OwnersInv, WorkInv, LogoutInv, DrainInv;
  }

  lemma ClearingKeepsLeases(t: SessionState, q: Requests)
    requires LeaseInv(t, q)
    ensures LeaseInv(t.(live := map[], cleared := true), q)
  {
    assert A.Alive(map[]) == {};
  }

  lemma ClearRegistryKeepsInv(w: World, w': World, c: nat)
    requires Inv(w) && ShutdownEnabled(w, ClearRegistry(c)) && w' == ShutdownApply(w, ClearRegistry(c))
    ensures Inv(w')
  {
    DrainStepKeeps(w, w', ClearRegistry(c));
    OnlyLeaderActs(w.life, c, w.sessions.cleared, w.registry.cleared);
    QuietOnceDrained(w);
    hide Inv, LeaseInv, OwnersInv, DrainInv;
    ClearedRegistry(w, w');
  }

  lemma ClearedRegistry(w: World, w': World)
    requires Inv(w) && w'.requests == w.requests && w'.sessions == w.sessions
    requires w'.registry == w.registry.(entries := map[], cleared := true)
    requires DrainInv(w'.life, w'.sessions.cleared, w'.registry.cleared) && w'.life.gate.active == w.life.gate.active
    requires forall r :: r in w.requests ==> !w.requests[r].stage.Waiting? && !w.requests[r].worker.Working?
    ensures Inv(w')
  {
    hide LeaseInv, OwnersInv, DrainInv;
    forall r | r in w.requests ensures WaiterSound(w'.registry, w.requests[r]) {
      assert WaiterSound(w.registry, w.requests[r]);
    }
  }

  lemma ShutdownKeepsInv(w: World, w': World, s: ShutdownStep)
    requires Inv(w) && ShutdownEnabled(w, s) && w' == ShutdownApply(w, s)
    ensures Inv(w')
  {
    hide LeaseInv, ActiveInv, EntriesInv, WaitInv, OwnersInv, WorkInv, LogoutInv, DrainInv;
    match s {
      case ClearSessions(c) => ClearSessionsKeepsInv(w, w', c);
      case ClearRegistry(c) => ClearRegistryKeepsInv(w, w', c);
      case _ =>
        DrainStepKeeps(w, w', s);
        SameActive(w.life, w'.life, w.requests);
    }
  }

  lemma SameActive(l: LifeState, l': LifeState, q: Requests)
    requires ActiveInv(l, q) && l'.gate.active == l.gate.active
    ensures ActiveInv(l', q)
  {
  }

  // ----- all steps, all runs

  lemma SessionKeepsInv(w: World, w': World, s: SessionStep)
    requires Inv(w) && SessionEnabled(w, s) && w' == SessionApply(w, s)
    ensures Inv(w')
  {
    hide Inv;
    match s {
      case Authenticate(r, session, now) => AuthenticateKeepsInv(w, w', r, session, now);
      case CreateSession(r, now, lifetime, token) => CreateKeepsInv(w, w', r, now, lifetime, token);
      case PruneSessions(now, burned) => PruneKeepsInv(w, w', now, burned);
      case LogOut(r) => LogOutKeepsInv(w, w', r);
      case ReleaseLease(r) => ReleaseLeaseKeepsInv(w, w', r);
    }
  }

  lemma OperationKeepsInv(w: World, w': World, s: OperationStep)
    requires Inv(w) && OperationEnabled(w, s) && w' == OperationApply(w, s)
    ensures Inv(w')
  {
    hide Inv;
    match s {
      case Bootstrap(r) => BootstrapKeepsInv(w, w', r);
      case AdmitOperation(r) => AdmitOperationKeepsInv(w, w', r);
      case DropHandler(r) => DropHandlerKeepsInv(w, w', r);
      case DropWorker(r) => DropWorkerKeepsInv(w, w', r);
      case ReleaseOperation(r) => ReleaseOperationKeepsInv(w, w', r);
    }
  }

  lemma RegistryKeepsInv(w: World, w': World, s: RegistryStep)
    requires Inv(w) && RegistryEnabled(w, s) && w' == RegistryApply(w, s)
    ensures Inv(w')
  {
    hide Inv, RegistryEnabled, RegistryApply;
    match s {
      case Join(_, _, _, _, _) => JoinKeepsInv(w, w', s);
      case RefuseJoin(_, _, _, _, _) => RefuseJoinKeepsInv(w, w', s);
      case Arm(r) => ArmKeepsInv(w, w', r);
      case Check(r) => CheckKeepsInv(w, w', r);
      case Wake(r) => WakeKeepsInv(w, w', r);
      case CancelWait(r) => CancelWaitKeepsInv(w, w', r);
      case Complete(r, response, disposition, number, trimmed) =>
        CompleteKeepsInv(w, w', r, response, disposition, number, trimmed);
      case Cleanup(r) => CleanupKeepsInv(w, w', r);
    }
  }

  lemma StepKeepsInv(w: World, w': World, s: Step)
    requires Inv(w) && Enabled(w, s) && w' == Apply(w, s)
    ensures Inv(w')
  {
    hide Inv;
    match s {
      case OnSessions(t) => SessionKeepsInv(w, w', t);
      case OnOperation(t) => OperationKeepsInv(w, w', t);
      case OnRegistry(t) => RegistryKeepsInv(w, w', t);
      case OnShutdown(t) => ShutdownKeepsInv(w, w', t);
    }
  }

  /** The invariant holds in every state of every run. */
  lemma {:induction false} InvAlways(run: seq<World>, steps: seq<Step>, i: nat)
    requires IsRun(run, steps) && i < |run|
    ensures Inv(run[i])
  {
    hide Inv, Enabled, Apply;
    if i == 0 {
      StartInv();
    } else {
      InvAlways(run, steps, i - 1);
      StepKeepsInv(run[i - 1], run[i], steps[i - 1]);
    }
  }
}
