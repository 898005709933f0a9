/**
 * The operator session registry (apps/control-plane/src/state.rs). The registry is a vector in issuance
 * order; the specification speaks of it as a map from issuance number to session.
 */
module AppSessions {
  import opened CloudTypes

  const MAX_APP_SESSIONS := 4
  const MAX_COOKIE_DRAWS := 8
  /** The first instant a deadline cannot be represented. */
  const TIME_LIMIT := 0x1_0000_0000_0000_0000

  type Token = nat
  type Time = nat
  type SessionSeq = nat

  datatype AppSession = AppSession(
    token: Token, expiresAt: Time, issued: SessionSeq, invalidated: bool, active: nat)
  {
    function Marked(now: Time): AppSession { if expiresAt <= now then this.(invalidated := true) else this }
    predicate Retained() { !invalidated || active != 0 }
    predicate Opens(candidate: Token, now: Time) { token == candidate && !invalidated && now < expiresAt }
  }

  type Sessions = map<SessionSeq, AppSession>

  datatype CreateError = SessionLimit | ServiceUnavailable
  datatype Created = Created(session: SessionSeq) | NotCreated(error: CreateError)

  // ----- the specification, on maps

  function Pruned(m: Sessions, now: Time): Sessions {
    map s | s in m && m[s].Marked(now).Retained() :: m[s].Marked(now)
  }

  function Alive(m: Sessions): set<SessionSeq> { set s | s in m && !m[s].invalidated }

  function Leased(m: Sessions, s: SessionSeq): Sessions
    requires s in m
  {
    m[s := m[s].(active := m[s].active + 1)]
  }

  function Invalidated(m: Sessions, s: SessionSeq, token: Token): Sessions {
    if s in m && m[s].token == token then m[s := m[s].(invalidated := true)] else m
  }

  function Fewer(x: AppSession): AppSession { x.(active := if x.active == 0 then 0 else x.active - 1) }

  /** Releasing the last lease of an invalidated session removes it. */
  function Released(m: Sessions, s: SessionSeq): Sessions {
    if s !in m then m
    else if Fewer(m[s]).Retained() then m[s := Fewer(m[s])]
    else m - {s}
  }

  predicate NeedsCleanup(m: Sessions, s: SessionSeq) { s !in m || !Fewer(m[s]).Retained() }

  predicate Unused(m: Sessions, token: Token) { forall s :: s in m ==> m[s].token != token }

  /** The draw a new session takes. */
  ghost predicate FirstUnused(m: Sessions, draws: seq<Token>, i: nat) {
    i < |draws| && Unused(m, draws[i]) && forall j :: 0 <= j < i ==> !Unused(m, draws[j])
  }

  predicate Sound(m: Sessions, issued: SessionSeq) {
    && (forall s :: s in m ==> m[s].issued == s && s <= issued)
    && (forall s, t :: s in m && t in m && m[s].token == m[t].token ==> s == t)
    && |Alive(m)| <= MAX_APP_SESSIONS
  }

  lemma FewerAlive(a: Sessions, b: Sessions)
    requires Alive(b) <= Alive(a)
    ensures |Alive(b)| <= |Alive(a)|
  {
    SmallerSet(Alive(b), Alive(a));
  }

  lemma {:induction false} SmallerSet(a: set<SessionSeq>, b: set<SessionSeq>)
    requires a <= b
    ensures |a| <= |b|
  {
    if a != {} {
      var x :| x in a;
      SmallerSet(a - {x}, b - {x});
    }
  }

  lemma PruneKeepsSound(m: Sessions, issued: SessionSeq, now: Time)
    requires Sound(m, issued)
    ensures Sound(Pruned(m, now), issued)
  {
    FewerAlive(m, Pruned(m, now));
  }

  /** Below the limit a session with an unused token and the next number may be added. */
  lemma AddKeepsSound(m: Sessions, issued: SessionSeq, x: AppSession)
    requires Sound(m, issued) && |Alive(m)| < MAX_APP_SESSIONS
    requires x.issued == issued + 1 && !x.invalidated && Unused(m, x.token)
    ensures Sound(m[x.issued := x], issued + 1)
  {
    OneMoreAlive(m, x);
    hide Alive;
  }

  lemma OneMoreAlive(m: Sessions, x: AppSession)
    ensures |Alive(m[x.issued := x])| <= |Alive(m)| + 1
  {
    SmallerSet(Alive(m[x.issued := x]), Alive(m) + {x.issued});
  }

  lemma ChangeKeepsSound(m: Sessions, issued: SessionSeq, s: SessionSeq, x: AppSession)
    requires Sound(m, issued) && s in m && x.issued == s && x.token == m[s].token
    requires m[s].invalidated ==> x.invalidated
    ensures Sound(m[s := x], issued)
  {
    FewerAlive(m, m[s := x]);
  }

  lemma SoundLater(m: Sessions, issued: SessionSeq, later: SessionSeq)
    requires Sound(m, issued) && issued <= later
    ensures Sound(m, later)
  {
  }

  lemma RemoveKeepsSound(m: Sessions, issued: SessionSeq, s: SessionSeq)
    requires Sound(m, issued)
    ensures Sound(m - {s}, issued)
  {
    FewerAlive(m, m - {s});
  }

  lemma ReleaseKeepsSound(m: Sessions, issued: SessionSeq, s: SessionSeq)
    requires Sound(m, issued)
    ensures Sound(Released(m, s), issued)
  {
    if s in m {
      ChangeKeepsSound(m, issued, s, Fewer(m[s]));
      RemoveKeepsSound(m, issued, s);
    }
  }

  // ----- the specification in terms of a session's own fields

  ghost predicate Usable(x: AppSession, now: Time) { !x.invalidated && now < x.expiresAt }

  /** What pruning at `now` leaves: the usable sessions, and the ended ones that a request still holds. */
  ghost predicate Trimmed(m: Sessions, p: Sessions, now: Time) {
    && (forall s :: s in p <==> s in m && (Usable(m[s], now) || m[s].active > 0))
    && (forall s :: s in p ==>
          p[s] == AppSession(m[s].token, m[s].expiresAt, m[s].issued, !Usable(m[s], now), m[s].active))
  }

  ghost predicate Recognized(m: Sessions, token: Token, now: Time) {
    exists s :: s in m && m[s].token == token && Usable(m[s], now)
  }

  ghost function AllUsable(m: Sessions, now: Time): set<SessionSeq> {
    set s | s in m && Usable(m[s], now)
  }

  lemma PruningTrims(m: Sessions, now: Time)
    ensures Trimmed(m, Pruned(m, now), now)
    ensures Alive(Pruned(m, now)) == AllUsable(m, now)
  {
  }

  // ----- the vector

  predicate Ordered(v: seq<AppSession>) {
    forall i, j :: 0 <= i < j < |v| ==> v[i].issued < v[j].issued
  }

  function {:induction false} AsMap(v: seq<AppSession>): Sessions {
    if v == [] then map[] else AsMap(v[..|v| - 1])[v[|v| - 1].issued := v[|v| - 1]]
  }

  lemma {:induction false} AsMapHas(v: seq<AppSession>)
    requires Ordered(v)
    ensures forall i :: 0 <= i < |v| ==> v[i].issued in AsMap(v) && AsMap(v)[v[i].issued] == v[i]
    ensures forall s :: s in AsMap(v) ==> exists i :: 0 <= i < |v| && v[i].issued == s
  {
    if v != [] {
      AsMapHas(v[..|v| - 1]);
    }
  }

  lemma AsMapSnoc(v: seq<AppSession>, x: AppSession)
    ensures AsMap(v + [x]) == AsMap(v)[x.issued := x]
  {
    assert (v + [x])[..|v|] == v;
  }

  lemma {:induction false} AsMapUpdate(v: seq<AppSession>, i: nat, x: AppSession)
    requires Ordered(v) && i < |v| && x.issued == v[i].issued
    ensures Ordered(v[i := x]) && AsMap(v[i := x]) == AsMap(v)[x.issued := x]
  {
    var n := |v| - 1;
    if i == n {
      assert v[i := x][..n] == v[..n];
    } else {
      AsMapUpdate(v[..n], i, x);
      assert v[i := x][..n] == v[..n][i := x];
    }
  }

  lemma LastIsNew(v: seq<AppSession>)
    requires Ordered(v) && v != []
    ensures v[|v| - 1].issued !in AsMap(v[..|v| - 1])
  {
    AsMapHas(v[..|v| - 1]);
  }

  lemma OrderedSnoc(v: seq<AppSession>, x: AppSession, issued: SessionSeq)
    requires Ordered(v) && Sound(AsMap(v), issued) && x.issued > issued
    ensures Ordered(v + [x])
  {
    AsMapHas(v);
    assert forall i :: 0 <= i < |v| ==> v[i].issued in AsMap(v);
  }

  lemma OrderedRemove(v: seq<AppSession>, i: nat)
    requires Ordered(v) && i < |v|
    ensures Ordered(v[..i] + v[i + 1..])
  {
  }

  lemma RemoveOther(m: Sessions, s: SessionSeq, x: AppSession)
    requires s != x.issued
    ensures m[x.issued := x] - {s} == (m - {s})[x.issued := x]
  {
  }

  lemma {:induction false} AsMapRemove(v: seq<AppSession>, i: nat)
    requires Ordered(v) && i < |v|
    ensures AsMap(v[..i] + v[i + 1..]) == AsMap(v) - {v[i].issued}
  {
    var n := |v| - 1;
    if i == n {
      LastIsNew(v);
      assert v[..i] + v[i + 1..] == v[..n];
    } else {
      var u := v[..n];
      assert v[i].issued < v[n].issued;
      AsMapRemove(u, i);
      hide Ordered, AsMap;
      RemoveOther(AsMap(u), v[i].issued, v[n]);
      assert AsMap(v) == AsMap(u)[v[n].issued := v[n]] by { AsMapSnoc(u, v[n]); assert v == u + [v[n]]; }
      assert v[..i] + v[i + 1..] == (u[..i] + u[i + 1..]) + [v[n]];
      AsMapSnoc(u[..i] + u[i + 1..], v[n]);
    }
  }

  lemma {:induction false} AliveCount(v: seq<AppSession>)
    requires Ordered(v)
    ensures |Alive(AsMap(v))| == Count(v)
  {
    if v != [] {
      var u, x := v[..|v| - 1], v[|v| - 1];
      AliveCount(u);
      AsMapHas(u);
      assert x.issued !in AsMap(u);
      assert Alive(AsMap(v)) == Alive(AsMap(u)) + (if x.invalidated then {} else {x.issued});
    }
  }

  function Count(v: seq<AppSession>): nat {
    if v == [] then 0 else Count(v[..|v| - 1]) + (if v[|v| - 1].invalidated then 0 else 1)
  }

  lemma PrunedNone(now: Time)
    ensures Pruned(map[], now) == map[]
  {
  }

  lemma PrunedSnoc(m: Sessions, x: AppSession, now: Time)
    requires x.issued !in m
    ensures Pruned(m[x.issued := x], now)
         == if x.Marked(now).Retained() then Pruned(m, now)[x.issued := x.Marked(now)] else Pruned(m, now)
  {
  }

  predicate PrunedUpTo(all: seq<AppSession>, kept: seq<AppSession>, i: nat, now: Time) {
    && i <= |all| && Ordered(kept) && AsMap(kept) == Pruned(AsMap(all[..i]), now)
    && (i < |all| ==> forall j :: 0 <= j < |kept| ==> kept[j].issued < all[i].issued)
  }

  lemma PrunedMapFurther(all: seq<AppSession>, i: nat, now: Time)
    requires i < |all| && Ordered(all)
    ensures var x, m := all[i].Marked(now), Pruned(AsMap(all[..i]), now);
            Pruned(AsMap(all[..i + 1]), now) == if x.Retained() then m[x.issued := x] else m
  {
    hide AsMap, Pruned;
    assert all[..i + 1][..i] == all[..i];
    LastIsNew(all[..i + 1]);
    hide Ordered;
    assert all[..i + 1] == all[..i] + [all[i]];
    AsMapSnoc(all[..i], all[i]);
    PrunedSnoc(AsMap(all[..i]), all[i], now);
  }

  lemma PrunedFurther(all: seq<AppSession>, kept: seq<AppSession>, i: nat, now: Time)
    requires i < |all| && Ordered(all) && PrunedUpTo(all, kept, i, now)
    ensures var x := all[i].Marked(now); PrunedUpTo(all, if x.Retained() then kept + [x] else kept, i + 1, now)
  {
    hide AsMap, Pruned;
    PrunedMapFurther(all, i, now);
    AsMapSnoc(kept, all[i].Marked(now));
    assert i + 1 < |all| ==> all[i].issued < all[i + 1].issued;
  }

  class AppSessionRegistry {
    var sessions: seq<AppSession>
    var issuanceSeq: nat

    function View(): Sessions reads `sessions { AsMap(sessions) }

    ghost predicate Valid() reads this { Ordered(sessions) && Sound(View(), issuanceSeq) }

    constructor ()
      ensures Valid() && View() == map[] && issuanceSeq == 0
    {
      sessions, issuanceSeq := [], 0;
    }

    /** Marks what has expired and drops what nobody holds; the order, and so the sort, is unaffected. */
    method PruneExpired(now: Time)
      requires Valid()
      modifies `sessions
      ensures Valid() && View() == Pruned(old(View()), now)
      ensures Trimmed(old(View()), View(), now)
    {
      PruningTrims(View(), now);
      PruneKeepsSound(View(), issuanceSeq, now);
      sessions := Retain(sessions, now);
    }

    static method Retain(all: seq<AppSession>, now: Time) returns (kept: seq<AppSession>)
      requires Ordered(all)
      ensures Ordered(kept) && AsMap(kept) == Pruned(AsMap(all), now)
    {
      kept := [];
      PrunedNone(now);
      for i := 0 to |all|
        invariant PrunedUpTo(all, kept, i, now)
      {
        PrunedFurther(all, kept, i, now);
        if all[i].Marked(now).Retained() {
          kept := kept + [all[i].Marked(now)];
        }
      }
      assert all[..|all|] == all;
    }

    method CountAlive() returns (n: nat)
      requires Valid()
      ensures n == |Alive(View())|
    {
      n := 0;
      for i := 0 to |sessions|
        invariant n == Count(sessions[..i])
      {
        assert sessions[..i + 1][..i] == sessions[..i];
        if !sessions[i].invalidated {
          n := n + 1;
        }
      }
      assert sessions[..|sessions|] == sessions;
      AliveCount(sessions);
    }

    method Find(s: SessionSeq) returns (index: nat)
      requires Valid()
      ensures index <= |sessions|
      ensures index < |sessions| ==> s in View() && sessions[index] == View()[s] && sessions[index].issued == s
      ensures index == |sessions| ==> s !in View()
    {
      AsMapHas(sessions);
      index := 0;
      while index < |sessions| && sessions[index].issued != s
        invariant index <= |sessions|
        invariant forall i :: 0 <= i < index ==> sessions[i].issued != s
      {
        index := index + 1;
      }
    }

    method TokenInUse(token: Token) returns (used: bool)
      requires Valid()
      ensures used <==> !Unused(View(), token)
    {
      AsMapHas(sessions);
      for i := 0 to |sessions|
        invariant forall j :: 0 <= j < i ==> sessions[j].token != token
      {
        if sessions[i].token == token {
          assert sessions[i].issued in View();
          return true;
        }
      }
      used := false;
    }

    /** The first unused draw; fewer than eight draws means the entropy source failed at the next one. */
    method DrawToken(draws: seq<Token>) returns (token: Option<Token>)
      requires Valid() && |draws| <= MAX_COOKIE_DRAWS
      ensures token.Some? ==>
                && token.value in draws && Unused(View(), token.value)
                && exists i: nat :: FirstUnused(View(), draws, i) && draws[i] == token.value
      ensures token.None? ==> forall t :: t in draws ==> !Unused(View(), t)
    {
      token := None;
      for i := 0 to |draws|
        invariant forall j :: 0 <= j < i ==> !Unused(View(), draws[j])
      {
        var used := TokenInUse(draws[i]);
        if !used {
          assert FirstUnused(View(), draws, i);
          return Some(draws[i]);
        }
      }
    }

    /** At most four sessions are alive, and a new one never shares a token with a retained one. */
    method Create(now: Time, lifetime: Time, draws: seq<Token>) returns (r: Created)
      requires Valid() && |draws| <= MAX_COOKIE_DRAWS
      modifies this
      ensures Valid()
      ensures r == NotCreated(SessionLimit) <==> |AllUsable(old(View()), now)| >= MAX_APP_SESSIONS
      ensures r.Created? <==>
                && |AllUsable(old(View()), now)| < MAX_APP_SESSIONS && now + lifetime < TIME_LIMIT
                && exists t :: t in draws && Unused(Pruned(old(View()), now), t)
      ensures r.NotCreated? ==>
                View() == Pruned(old(View()), now) && old(issuanceSeq) <= issuanceSeq <= old(issuanceSeq) + 1
      ensures r.Created? ==>
                && r.session == issuanceSeq == old(issuanceSeq) + 1
                && exists i: nat :: FirstUnused(Pruned(old(View()), now), draws, i)
                     && View() == Pruned(old(View()), now)[r.session :=
                                    AppSession(draws[i], now + lifetime, r.session, false, 0)]
    {
      PruningTrims(View(), now);
      PruneExpired(now);
      var alive := CountAlive();
      if alive >= MAX_APP_SESSIONS {
        return NotCreated(SessionLimit);
      }
      var token := DrawToken(draws);
      if token.None? {
        return NotCreated(ServiceUnavailable);
      }
      issuanceSeq := issuanceSeq + 1;
      if now + lifetime >= TIME_LIMIT {
        return NotCreated(ServiceUnavailable);
      }
      r := Push(AppSession(token.value, now + lifetime, issuanceSeq, false, 0));
    }

    method Push(x: AppSession) returns (r: Created)
      requires Ordered(sessions) && x.issued == issuanceSeq > 0 && Sound(View(), issuanceSeq - 1)
      requires !x.invalidated && |Alive(View())| < MAX_APP_SESSIONS
      requires Unused(View(), x.token)
      modifies `sessions
      ensures Valid() && r == Created(x.issued) && View() == old(View())[x.issued := x]
    {
      hide Sound, Ordered, Alive, Unused, AsMap;
      AddKeepsSound(View(), issuanceSeq - 1, x);
      AsMapSnoc(sessions, x);
      OrderedSnoc(sessions, x, issuanceSeq - 1);
      sessions := sessions + [x];
      r := Created(x.issued);
    }

    /** Succeeds exactly for the one retained session that has this token and is neither invalidated nor expired. */
    method Authenticate(candidate: Token, wellFormed: bool, now: Time) returns (r: Option<SessionSeq>)
      requires Valid()
      modifies `sessions
      ensures Valid()
      ensures r.None? ==>
                && View() == Pruned(old(View()), now) && !(wellFormed && Recognized(old(View()), candidate, now))
      ensures r.Some? ==>
                && wellFormed && r.value in old(View())
                && old(View())[r.value].token == candidate && Usable(old(View())[r.value], now)
                && r.value in Pruned(old(View()), now) && View() == Leased(Pruned(old(View()), now), r.value)
                && View()[r.value].active == old(View())[r.value].active + 1
    {
      hide Sound, Pruned;
      PruneExpired(now);
      var matched: Option<nat> := None;
      AsMapHas(sessions);
      for i := 0 to |sessions|
        invariant matched.Some? ==>
                    wellFormed && matched.value < i && sessions[matched.value].Opens(candidate, now)
        invariant matched.None? && wellFormed ==> forall j :: 0 <= j < i ==> !sessions[j].Opens(candidate, now)
      {
        if wellFormed && sessions[i].Opens(candidate, now) {
          matched := Some(i);
        }
      }
      if matched.None? {
        return None;
      }
      var x := sessions[matched.value];
      r := Some(x.issued);
      Replace(matched.value, x.(active := x.active + 1));
    }

    method Replace(i: nat, x: AppSession)
      requires Valid() && i < |sessions| && x.issued == sessions[i].issued && x.token == sessions[i].token
      requires sessions[i].invalidated ==> x.invalidated
      modifies `sessions
      ensures Valid() && x.issued in old(View()) && View() == old(View())[x.issued := x]
    {
      AsMapHas(sessions);
      ChangeKeepsSound(View(), issuanceSeq, x.issued, x);
      AsMapUpdate(sessions, i, x);
      sessions := sessions[i := x];
    }

    method Invalidate(token: Token, s: SessionSeq)
      requires Valid()
      modifies `sessions
      ensures Valid() && View() == Invalidated(old(View()), s, token)
      ensures View().Keys == old(View()).Keys
      ensures forall t :: t in View() ==>
                var x := old(View())[t];
                View()[t] == x.(invalidated := x.invalidated || (t == s && x.token == token))
    {
      var i := Find(s);
      if i < |sessions| && sessions[i].token == token {
        Replace(i, sessions[i].(invalidated := true));
      }
    }

    /** Drops one lease; asks for cleanup when the session is gone, now or already. */
    method Release(s: SessionSeq) returns (cleanup: bool)
      requires Valid()
      modifies `sessions
      ensures Valid() && View() == Released(old(View()), s) && cleanup == NeedsCleanup(old(View()), s)
      ensures cleanup <==>
                (s in old(View()) ==> old(View())[s].invalidated && old(View())[s].active <= 1)
      ensures View().Keys == if cleanup then old(View()).Keys - {s} else old(View()).Keys
      ensures forall t :: t in View() ==>
                var x := old(View())[t];
                View()[t] == if t == s && x.active > 0 then x.(active := x.active - 1) else x
    {
      var i := Find(s);
      if i == |sessions| {
        return true;
      }
      var x := Fewer(sessions[i]);
      ReleaseKeepsSound(View(), issuanceSeq, s);
      cleanup := x.invalidated && x.active == 0;
      if cleanup {
        AsMapRemove(sessions, i);
        OrderedRemove(sessions, i);
        sessions := sessions[..i] + sessions[i + 1..];
      } else {
        Replace(i, x);
      }
    }

    /** Shutdown forgets every session; the numbers go on. */
    method Clear()
      modifies `sessions
      ensures Valid() && View() == map[]
    {
      sessions := [];
    }

    method IsValid(s: SessionSeq, now: Time) returns (valid: bool)
      requires Valid()
      modifies `sessions
      ensures Valid() && View() == Pruned(old(View()), now)
      ensures valid <==> s in old(View()) && Usable(old(View())[s], now)
    {
      PruneExpired(now);
      var i := Find(s);
      valid := i < |sessions| && !sessions[i].invalidated && now < sessions[i].expiresAt;
    }
  }
}
