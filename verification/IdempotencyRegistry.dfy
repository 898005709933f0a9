/**
 * The bounded idempotency registry (apps/control-plane/src/idempotency.rs): waiter counts, byte
 * accounting, and eviction of completed entries in completion order.
 */
module IdempotencyRegistry {
  import opened CloudTypes

  const MAX_ENTRIES := 128
  const MAX_STORAGE_BYTES := 8 * 1024 * 1024
  const USIZE_MAX := 0xFFFF_FFFF_FFFF_FFFF
  const U64_MAX := 0xFFFF_FFFF_FFFF_FFFF
  /** Responses are assumed smaller than this, so that 128 of them cannot saturate the total. */
  const MAX_RESPONSE_BYTES := 0x4_0000_0000_0000

  type Key = nat
  type Time = nat
  type SessionSeq = nat

  datatype RequestIdentity = RequestIdentity(
    verb: string, route: string, body: string, instance: nat, logoutSession: Option<SessionSeq>)
  {
    function StorageBytes(): nat {
      64 + |verb| + |route| + |body| + (if logoutSession.Some? then 8 else 0)
    }
  }

  datatype Response = Response(status: nat, headers: seq<(string, string)>, body: string) {
    function StorageBytes(): nat { 64 + |body| + HeaderBytes(headers) }
  }

  function HeaderBytes(headers: seq<(string, string)>): nat {
    if |headers| == 0 then 0
    else |headers[0].0| + |headers[0].1| + HeaderBytes(headers[1..])
  }

  lemma {:induction false} OneMoreHeader(headers: seq<(string, string)>, name: string, value: string)
    ensures HeaderBytes(headers + [(name, value)]) == HeaderBytes(headers) + |name| + |value|
  {
    if headers == [] {
      assert headers + [(name, value)] == [(name, value)];
    } else {
      OneMoreHeader(headers[1..], name, value);
      assert (headers + [(name, value)])[1..] == headers[1..] + [(name, value)];
    }
  }

  /** A response counts 64 bytes, its body, and for every header its name and its value. */
  lemma ResponseSize(response: Response, name: string, value: string)
    ensures response.headers == [] ==> response.StorageBytes() == 64 + |response.body|
    ensures response.(headers := response.headers + [(name, value)]).StorageBytes()
         == response.StorageBytes() + |name| + |value|
  {
    OneMoreHeader(response.headers, name, value);
  }

  datatype Disposition = Retain | ExpireAt(deadline: Time) | RemoveAfterAuthSession(session: SessionSeq)

  datatype EntryState = InFlight | Complete(response: Response, disposition: Disposition)

  /** `residency` is the identity of the entry's notifier: fresh for every insertion. */
  datatype Entry = Entry(
    identity: RequestIdentity,
    requestBytes: nat,
    responseBytes: nat,
    state: EntryState,
    residency: nat,
    waiters: nat,
    completedSeq: Option<nat>)
  {
    function Bytes(): nat { requestBytes + responseBytes }
    predicate Evictable() { completedSeq.Some? && waiters == 0 }
  }

  type Entries = map<Key, Entry>

  function SaturatingAdd(a: nat, b: nat): nat { if a + b > USIZE_MAX then USIZE_MAX else a + b }
  function SaturatingSub(a: nat, b: nat): nat { if a < b then 0 else a - b }

  // ----- the sum over entries

  ghost function Sum(m: Entries): nat {
    if m == map[] then 0
    else
      var k :| k in m;
      m[k].Bytes() + Sum(m - {k})
  }

  lemma {:induction false} SumRemove(m: Entries, k: Key)
    requires k in m
    ensures Sum(m) == m[k].Bytes() + Sum(m - {k})
    decreases |m|
  {
    var j :| j in m && Sum(m) == m[j].Bytes() + Sum(m - {j});
    if j != k {
      SumRemove(m - {j}, k);
      SumRemove(m - {k}, j);
      assert m - {j} - {k} == m - {k} - {j};
    }
  }

  lemma SumInsert(m: Entries, k: Key, e: Entry)
    requires k !in m
    ensures Sum(m[k := e]) == Sum(m) + e.Bytes()
  {
    SumRemove(m[k := e], k);
    assert m[k := e] - {k} == m;
  }

  lemma SumUpdate(m: Entries, k: Key, e: Entry)
    requires k in m
    ensures Sum(m[k := e]) + m[k].Bytes() == Sum(m) + e.Bytes()
  {
    SumRemove(m, k);
    SumInsert(m - {k}, k, e);
    assert (m - {k})[k := e] == m[k := e];
  }

  lemma OneFewer(m: Entries, k: Key)
    requires k in m
    ensures |m - {k}| == |m| - 1
  {
    assert (m - {k}).Keys == m.Keys - {k};
  }

  lemma {:induction false} SumBound(m: Entries, bound: nat, limit: nat)
    requires |m| <= limit && forall k :: k in m ==> m[k].Bytes() <= bound
    ensures Sum(m) <= limit * bound
    decreases limit
  {
    if m != map[] {
      var k :| k in m;
      SumRemove(m, k);
      OneFewer(m, k);
      SumBound(m - {k}, bound, limit - 1);
      assert (limit - 1) * bound + bound == limit * bound;
    }
  }

  // ----- what the registry keeps

  predicate EntrySound(e: Entry, completions: nat) {
    && e.requestBytes <= MAX_STORAGE_BYTES && e.responseBytes <= MAX_RESPONSE_BYTES
    && (e.state.InFlight? <==> e.completedSeq.None?)
    && (e.state.InFlight? ==> e.responseBytes == 0)
    && (e.completedSeq.Some? ==> e.completedSeq.value <= completions)
  }

  ghost predicate Accounted(m: Entries, total: nat, completions: nat) {
    && total == Sum(m) && |m| <= MAX_ENTRIES
    && forall k :: k in m ==> EntrySound(m[k], completions)
  }

  /** With at most 128 bounded entries the total stays far from saturating. */
  lemma AccountedBound(m: Entries, total: nat, completions: nat)
    requires Accounted(m, total, completions)
    ensures total + MAX_STORAGE_BYTES + MAX_RESPONSE_BYTES < USIZE_MAX
  {
    SumBound(m, MAX_STORAGE_BYTES + MAX_RESPONSE_BYTES, MAX_ENTRIES);
  }

  // ----- eviction

  /** `after` is `before` without some unwaited completed entries. */
  predicate Evicted(before: Entries, after: Entries) {
    && after.Keys <= before.Keys
    && (forall k :: k in after ==> after[k] == before[k])
    && (forall k :: k in before && k !in after ==> before[k].Evictable())
  }

  lemma EvictedKeeps(before: Entries, after: Entries)
    requires Evicted(before, after)
    ensures forall k :: k in after ==> k in before && after[k] == before[k]
  {
  }

  /** Whatever went completed no later than whatever could have gone and stayed. */
  predicate OldestFirst(before: Entries, after: Entries, protected: Option<Key>) {
    forall gone, kept ::
      gone in before && gone !in after && kept in before && kept in after && Some(kept) != protected
      && before[gone].Evictable() && before[kept].Evictable()
      ==> before[gone].completedSeq.value <= before[kept].completedSeq.value
  }

  predicate NeedsRoom(m: Entries, total: nat, request: nat) {
    |m| >= MAX_ENTRIES || SaturatingAdd(total, request) > MAX_STORAGE_BYTES
  }

  /** `last` went, and nothing that went completed later. */
  predicate LastGone(before: Entries, after: Entries, last: Key) {
    && last in before && last !in after && before[last].Evictable()
    && forall gone :: gone in before && gone !in after && before[gone].Evictable()
                      ==> before[gone].completedSeq.value <= before[last].completedSeq.value
  }

  /** The eviction stopped as early as it could: with the last entry to go put back there is no room. */
  ghost predicate NoneTooMany(before: Entries, after: Entries, request: nat) {
    after.Keys == before.Keys
    || exists last :: LastGone(before, after, last)
                      && NeedsRoom(after[last := before[last]], Sum(after[last := before[last]]), request)
  }

  /** The same for the storage bound alone. */
  ghost predicate OnlyExcessWent(before: Entries, after: Entries) {
    after.Keys == before.Keys
    || exists last :: LastGone(before, after, last) && Sum(after[last := before[last]]) > MAX_STORAGE_BYTES
  }

  lemma RemovalKeepsAccount(m: Entries, total: nat, completions: nat, k: Key)
    requires Accounted(m, total, completions) && k in m
    ensures Accounted(m - {k}, SaturatingSub(SaturatingSub(total, m[k].requestBytes), m[k].responseBytes), completions)
    ensures |m - {k}| == |m| - 1 && total == Sum(m - {k}) + m[k].Bytes()
  {
    SumRemove(m, k);
    OneFewer(m, k);
  }

  /** Evicting one more oldest entry keeps all three descriptions of what went. */
  lemma EvictOneMore(before: Entries, m: Entries, protected: Option<Key>, k: Key)
    requires Evicted(before, m) && OldestFirst(before, m, protected)
    requires k in m && m[k].Evictable() && Some(k) != protected
    requires forall j :: j in m && m[j].Evictable() && Some(j) != protected
                         ==> m[k].completedSeq.value <= m[j].completedSeq.value
    ensures Evicted(before, m - {k}) && OldestFirst(before, m - {k}, protected)
  {
  }

  lemma NextToGo(before: Entries, m: Entries, protected: Option<Key>, k: Key)
    requires Evicted(before, m) && OldestFirst(before, m, protected)
    requires k in m && m[k].Evictable() && Some(k) != protected
    ensures LastGone(before, m - {k}, k) && (m - {k})[k := before[k]] == m
  {
  }

  /** A removal made while room was short was one of the needed ones. */
  lemma RemovalWasNeeded(before: Entries, m: Entries, k: Key, request: nat)
    requires Evicted(before, m) && OldestFirst(before, m, None) && k in m && m[k].Evictable()
    requires NeedsRoom(m, Sum(m), request)
    ensures NoneTooMany(before, m - {k}, request)
  {
    NextToGo(before, m, None, k);
  }

  lemma ExcessWasNeeded(before: Entries, m: Entries, protected: Option<Key>, k: Key)
    requires Evicted(before, m) && OldestFirst(before, m, protected)
    requires k in m && m[k].Evictable() && Some(k) != protected && Sum(m) > MAX_STORAGE_BYTES
    ensures OnlyExcessWent(before, m - {k})
  {
    NextToGo(before, m, protected, k);
  }

  // ----- the registry

  datatype AdmitError = Conflict | Unavailable
  datatype Admission = Admission(owner: bool, residency: nat) | Refused(error: AdmitError)
  datatype WaitState = Pending | Ready(response: Response) | Missing

  function Expired(m: Entries, now: Time): set<Key> {
    set k | k in m && m[k].waiters == 0 && m[k].state.Complete?
            && m[k].state.disposition.ExpireAt? && m[k].state.disposition.deadline <= now
  }

  function BoundToSession(m: Entries, session: SessionSeq): set<Key> {
    set k | k in m && m[k].waiters == 0 && m[k].state.Complete?
            && m[k].state.disposition == RemoveAfterAuthSession(session)
  }

  function NewEntry(identity: RequestIdentity, residency: nat): Entry {
    Entry(identity, identity.StorageBytes(), 0, InFlight, residency, 1, None)
  }

  function Unwaited(e: Entry): Entry { e.(waiters := SaturatingSub(e.waiters, 1)) }

  function Completed(e: Entry, response: Response, disposition: Disposition, n: nat): Entry {
    e.(responseBytes := response.StorageBytes(), completedSeq := Some(n),
       state := Complete(response, disposition))
  }

  function SaturatingSeq(n: nat): nat { if n >= U64_MAX then n else n + 1 }

  function Answered(m: Entries, key: Key, response: Response, disposition: Disposition, n: nat): Entries {
    if key in m && m[key].state.InFlight? then m[key := Completed(m[key], response, disposition, n)] else m
  }

  function WaiterLeaves(m: Entries, key: Key): Entries {
    if key in m then m[key := Unwaited(m[key])] else m
  }

  function Taken(m: Entries, key: Key): WaitState {
    if key !in m then Missing else if m[key].state.InFlight? then Pending else Ready(m[key].state.response)
  }

  /** Admission of a key that survived pruning. */
  predicate ExistingKey(pruned: Entries, after: Entries, key: Key, identity: RequestIdentity, r: Admission) {
    key in pruned ==>
      if pruned[key].identity != identity then r == Refused(Conflict) && after == pruned
      else
        && r == Admission(false, pruned[key].residency)
        && after == pruned[key := pruned[key].(waiters := pruned[key].waiters + 1)]
  }

  /** What making room for `request` bytes did to the pruned registry. */
  ghost predicate MadeRoom(pruned: Entries, kept: Entries, request: nat, ok: bool) {
    && Evicted(pruned, kept) && OldestFirst(pruned, kept, None) && NoneTooMany(pruned, kept, request)
    && ok == !NeedsRoom(kept, Sum(kept), request)
    && (!ok ==> forall k :: k in kept ==> !kept[k].Evictable())
  }

  /** Admission of a key that is not in the pruned registry. */
  ghost predicate NewKey(pruned: Entries, after: Entries, key: Key, identity: RequestIdentity, r: Admission,
                         residency: nat) {
    key !in pruned ==>
      if key in after then
        && r == Admission(true, residency) && after[key] == NewEntry(identity, residency)
        && MadeRoom(pruned, after - {key}, identity.StorageBytes(), true)
      else r == Refused(Unavailable) && MadeRoom(pruned, after, identity.StorageBytes(), false)
  }

  // ----- what admission means for the entries, told from their own fields

  /** A stored answer nobody waits for and whose time is up. */
  ghost predicate Lapsed(e: Entry, now: Time) {
    && e.waiters == 0 && e.state.Complete?
    && match e.state.disposition
       case ExpireAt(deadline) => deadline <= now
       case _ => false
  }

  /** The key has an entry that may be joined. */
  ghost predicate Present(m: Entries, key: Key, now: Time) { key in m && !Lapsed(m[key], now) }

  /** No room for a request of this size. */
  ghost predicate Crowded(m: Entries, request: nat) {
    |m| >= MAX_ENTRIES || Sum(m) + request > MAX_STORAGE_BYTES
  }

  /** With one of the entries that went put back there would be no room. */
  ghost predicate LostToRoom(before: Entries, after: Entries, now: Time, request: nat) {
    exists last :: last in before && last !in after && !Lapsed(before[last], now)
                   && Crowded(after[last := before[last]], request)
  }

  /**
   * What is left when a key is admitted: every lapsed answer is gone, and nothing else, except that
   * a key without an entry may cost answers that nobody waits for, where room was needed.
   */
  ghost predicate Trims(before: Entries, after: Entries, now: Time, key: Key, request: nat) {
    && (forall k :: k in after ==> k in before && after[k] == before[k] && !Lapsed(before[k], now))
    && (forall k :: k in before && k !in after ==>
          || Lapsed(before[k], now)
          || (!Present(before, key, now) && before[k].Evictable() && LostToRoom(before, after, now, request)))
  }

  /** With one of the entries that went put back the storage bound would be passed. */
  ghost predicate LostToStorage(before: Entries, after: Entries) {
    exists last :: last in before && last !in after && Sum(after[last := before[last]]) > MAX_STORAGE_BYTES
  }

  lemma ExcessIsStorage(before: Entries, after: Entries)
    requires OnlyExcessWent(before, after) && after.Keys != before.Keys
    ensures LostToStorage(before, after)
  {
  }

  lemma PruningTrims(m: Entries, now: Time, key: Key, request: nat)
    ensures Trims(m, m - Expired(m, now), now, key, request)
    ensures forall k :: k in m ==> (k in m - Expired(m, now) <==> !Lapsed(m[k], now))
  {
  }

  lemma RoomIsShort(m: Entries, request: nat)
    ensures NeedsRoom(m, Sum(m), request) <==> Crowded(m, request)
  {
  }

  lemma RoomWasShort(pruned: Entries, kept: Entries, request: nat) returns (last: Key)
    requires NoneTooMany(pruned, kept, request) && kept.Keys != pruned.Keys
    ensures last in pruned && last !in kept && Crowded(kept[last := pruned[last]], request)
  {
    hide Crowded, NeedsRoom;
    last :| LastGone(pruned, kept, last)
            && NeedsRoom(kept[last := pruned[last]], Sum(kept[last := pruned[last]]), request);
    RoomIsShort(kept[last := pruned[last]], request);
  }

  lemma RoomTrims(m: Entries, kept: Entries, now: Time, key: Key, request: nat, ok: bool)
    requires key !in m - Expired(m, now) && MadeRoom(m - Expired(m, now), kept, request, ok)
    ensures Trims(m, kept, now, key, request) && (ok <==> !Crowded(kept, request))
    ensures !ok ==> forall k :: k in kept ==> !kept[k].Evictable()
  {
    hide Expired, Lapsed, Crowded, NeedsRoom, Sum, OldestFirst, NoneTooMany;
    var pruned := m - Expired(m, now);
    PruningTrims(m, now, key, request);
    RoomIsShort(kept, request);
    if kept.Keys != pruned.Keys {
      var last := RoomWasShort(pruned, kept, request);
      assert LostToRoom(m, kept, now, request);
    }
    hide LostToRoom;
  }

  lemma StartOfEviction(m: Entries, request: nat, protected: Option<Key>)
    ensures Evicted(m, m) && OldestFirst(m, m, protected)
    ensures NoneTooMany(m, m, request) && OnlyExcessWent(m, m)
  {
  }

  lemma JoinKeepsAccount(m: Entries, total: nat, completions: nat, key: Key)
    requires Accounted(m, total, completions) && key in m
    ensures Accounted(m[key := m[key].(waiters := m[key].waiters + 1)], total, completions)
  {
    var e := m[key].(waiters := m[key].waiters + 1);
    SumUpdate(m, key, e);
    assert m[key := e].Keys == m.Keys;
  }

  lemma InsertKeepsAccount(m: Entries, total: nat, completions: nat, key: Key, identity: RequestIdentity,
                           residency: nat)
    requires Accounted(m, total, completions) && key !in m && !NeedsRoom(m, total, identity.StorageBytes())
    ensures Accounted(m[key := NewEntry(identity, residency)], SaturatingAdd(total, identity.StorageBytes()),
                      completions)
    ensures SaturatingAdd(total, identity.StorageBytes()) <= MAX_STORAGE_BYTES
    ensures m[key := NewEntry(identity, residency)] - {key} == m
  {
    hide Sum;
    SumInsert(m, key, NewEntry(identity, residency));
    assert m[key := NewEntry(identity, residency)].Keys == m.Keys + {key};
  }

  lemma AnswerKeepsAccount(m: Entries, total: nat, completions: nat, key: Key, response: Response,
                           disposition: Disposition)
    requires Accounted(m, total, completions) && response.StorageBytes() <= MAX_RESPONSE_BYTES
    ensures Accounted(Answered(m, key, response, disposition, SaturatingSeq(completions)),
                      if key in m && m[key].state.InFlight? then SaturatingAdd(total, response.StorageBytes())
                      else total,
                      SaturatingSeq(completions))
  {
    if key in m && m[key].state.InFlight? {
      AccountedBound(m, total, completions);
      var e := Completed(m[key], response, disposition, SaturatingSeq(completions));
      SumUpdate(m, key, e);
      assert m[key := e].Keys == m.Keys;
    }
  }

  lemma LeavingKeepsAccount(m: Entries, total: nat, completions: nat, key: Key)
    requires Accounted(m, total, completions) && key in m
    ensures Accounted(m[key := Unwaited(m[key])], total, completions)
  {
    SumUpdate(m, key, Unwaited(m[key]));
    assert m[key := Unwaited(m[key])].Keys == m.Keys;
  }

  class Idempotency {
    var entries: Entries
    var totalBytes: nat
    var completionSeq: nat
    /** How many notifiers have been allocated. */
    var residencies: nat

    ghost predicate Valid() reads this {
      && Accounted(entries, totalBytes, completionSeq)
      && forall k :: k in entries ==> entries[k].residency < residencies
    }

    constructor ()
      ensures Valid() && entries == map[] && residencies == 0
    {
      entries, totalBytes, completionSeq, residencies := map[], 0, 0, 0;
    }

    lemma SumIsTotal()
      requires Valid()
      ensures totalBytes == Sum(entries)
    {
    }

    lemma StatesMatch()
      requires Valid()
      ensures forall k :: k in entries ==> (entries[k].state.InFlight? <==> entries[k].completedSeq.None?)
      ensures forall k :: k in entries && entries[k].completedSeq.Some? ==>
                entries[k].completedSeq.value <= completionSeq
    {
    }

    method Remove(key: Key)
      requires Valid()
      modifies `entries, `totalBytes
      ensures Valid() && entries == old(entries) - {key}
      ensures key in old(entries) ==> old(totalBytes) == totalBytes + old(entries)[key].Bytes()
    {
      if key in entries {
        RemovalKeepsAccount(entries, totalBytes, completionSeq, key);
        var entry := entries[key];
        entries := entries - {key};
        totalBytes := SaturatingSub(SaturatingSub(totalBytes, entry.requestBytes), entry.responseBytes);
      }
    }

    method RemoveAll(keys: set<Key>)
      requires Valid()
      modifies `entries, `totalBytes
      ensures Valid() && entries == old(entries) - keys
    {
      hide Accounted;
      var left := keys;
      while left != {}
        invariant Valid() && left <= keys && entries == old(entries) - (keys - left)
      {
        var k :| k in left;
        assert old(entries) - (keys - left) - {k} == old(entries) - (keys - (left - {k}));
        Remove(k);
        left := left - {k};
      }
    }

    method PruneExpired(now: Time)
      requires Valid()
      modifies `entries, `totalBytes
      ensures Valid() && entries == old(entries) - Expired(old(entries), now)
      ensures forall k :: k in old(entries) ==> (k in entries <==> !Lapsed(old(entries)[k], now))
    {
      PruningTrims(entries, now, 0, 0);
      RemoveAll(Expired(entries, now));
    }

    /** The smallest completion number among the entries that may go. */
    method OldestCompleted(protected: Option<Key>) returns (oldest: Option<Key>)
      requires Valid()
      ensures oldest.None? ==> forall k :: k in entries && Some(k) != protected ==> !entries[k].Evictable()
      ensures oldest.Some? ==>
                && oldest.value in entries && entries[oldest.value].Evictable() && oldest != protected
                && forall k :: k in entries && Some(k) != protected && entries[k].Evictable()
                               ==> entries[oldest.value].completedSeq.value <= entries[k].completedSeq.value
    {
      oldest := None;
      var left := entries.Keys;
      while left != {}
        invariant left <= entries.Keys
        invariant oldest.None? ==>
                    forall k :: k in entries && k !in left && Some(k) != protected ==> !entries[k].Evictable()
        invariant oldest.Some? ==>
                    && oldest.value in entries && entries[oldest.value].Evictable() && oldest != protected
                    && forall k :: k in entries && k !in left && Some(k) != protected && entries[k].Evictable()
                                   ==> entries[oldest.value].completedSeq.value <= entries[k].completedSeq.value
      {
        var k :| k in left;
        left := left - {k};
        if Some(k) != protected && entries[k].Evictable()
           && (oldest.None? || entries[k].completedSeq.value < entries[oldest.value].completedSeq.value) {
          oldest := Some(k);
        }
      }
    }

    method MakeCapacity(request: nat) returns (ok: bool)
      requires Valid()
      modifies `entries, `totalBytes
      ensures Valid() && Evicted(old(entries), entries) && OldestFirst(old(entries), entries, None)
      ensures NoneTooMany(old(entries), entries, request)
      ensures ok == !NeedsRoom(entries, totalBytes, request)
      ensures !ok ==> forall k :: k in entries ==> !entries[k].Evictable()
    {
      hide Evicted, OldestFirst, NoneTooMany, Accounted, NeedsRoom;
      SumIsTotal();
      StartOfEviction(entries, request, None);
      while NeedsRoom(entries, totalBytes, request)
        invariant Valid() && totalBytes == Sum(entries)
        invariant Evicted(old(entries), entries) && OldestFirst(old(entries), entries, None)
        invariant NoneTooMany(old(entries), entries, request)
        decreases |entries|
      {
        var oldest := OldestCompleted(None);
        if oldest.None? {
          return false;
        }
        EvictOneMore(old(entries), entries, None, oldest.value);
        RemovalWasNeeded(old(entries), entries, oldest.value, request);
        OneFewer(entries, oldest.value);
        Remove(oldest.value);
        SumIsTotal();
      }
      ok := true;
    }

    method EvictToStorageBound(protected: Option<Key>)
      requires Valid()
      modifies `entries, `totalBytes
      ensures Valid() && Evicted(old(entries), entries) && OldestFirst(old(entries), entries, protected)
      ensures OnlyExcessWent(old(entries), entries)
      ensures protected.Some? && protected.value in old(entries) ==> protected.value in entries
      ensures totalBytes > MAX_STORAGE_BYTES ==>
                forall k :: k in entries && Some(k) != protected ==> !entries[k].Evictable()
    {
      StartOfEviction(entries, 0, protected);
      hide Evicted, OldestFirst, OnlyExcessWent, Accounted;
      while totalBytes > MAX_STORAGE_BYTES
        invariant Valid() && Evicted(old(entries), entries) && OldestFirst(old(entries), entries, protected)
        invariant OnlyExcessWent(old(entries), entries)
        invariant protected.Some? && protected.value in old(entries) ==> protected.value in entries
        decreases |entries|
      {
        var oldest := OldestCompleted(protected);
        if oldest.None? {
          break;
        }
        SumIsTotal();
        EvictOneMore(old(entries), entries, protected, oldest.value);
        ExcessWasNeeded(old(entries), entries, protected, oldest.value);
        OneFewer(entries, oldest.value);
        Remove(oldest.value);
      }
    }

    /**
     * A known key joins its entry or conflicts; a new key is inserted in flight, within both bounds, after
     * evicting the shortest completion-order prefix of unwaited completed entries that makes room.
     */
    method Admit(key: Key, identity: RequestIdentity, now: Time) returns (r: Admission)
      requires Valid()
      modifies this
      ensures Valid() && completionSeq == old(completionSeq)
      ensures ExistingKey(old(entries) - Expired(old(entries), now), entries, key, identity, r)
      ensures NewKey(old(entries) - Expired(old(entries), now), entries, key, identity, r, old(residencies))
      ensures residencies == old(residencies) + (if r.Admission? && r.owner then 1 else 0)
      ensures r.Admission? && r.owner ==>
                && totalBytes <= MAX_STORAGE_BYTES && key in entries
                && entries[key].requestBytes == 64 + |identity.verb| + |identity.route| + |identity.body|
                                                + (if identity.logoutSession.Some? then 8 else 0)
      // A key with an entry that has not lapsed joins it, or conflicts with it; any other never joins.
      ensures Present(old(entries), key, now) ==>
                var e := old(entries)[key];
                if e.identity == identity
                then
                  && r == Admission(false, e.residency)
                  && key in entries && entries[key] == e.(waiters := e.waiters + 1)
                else r == Refused(Conflict)
      ensures !Present(old(entries), key, now) ==>
                if key in entries then r == Admission(true, old(residencies)) else r == Refused(Unavailable)
      ensures r == Refused(Unavailable) ==>
                && Crowded(entries, identity.StorageBytes())
                && forall k :: k in entries ==> entries[k].waiters > 0 || entries[k].state.InFlight?
      ensures forall k :: k in old(entries) && k !in entries ==>
                || Lapsed(old(entries)[k], now)
                || (&& !Present(old(entries), key, now) && old(entries)[k].waiters == 0
                    && LostToRoom(old(entries), entries - {key}, now, identity.StorageBytes()))
    {
      hide Accounted, Expired, MadeRoom, NeedsRoom, Sum, Crowded, Lapsed, LostToRoom;
      PruneExpired(now);
      if key in entries {
        if entries[key].identity != identity {
          return Refused(Conflict);
        }
        JoinKeepsAccount(entries, totalBytes, completionSeq, key);
        var entry := entries[key];
        entries := entries[key := entry.(waiters := entry.waiters + 1)];
        return Admission(false, entry.residency);
      }
      r := Insert(key, identity);
      ghost var kept := entries - {key};
      assert key !in entries ==> kept == entries;
      RoomTrims(old(entries), kept, now, key, identity.StorageBytes(), r.Admission?);
      StatesMatch();
    }

    method Insert(key: Key, identity: RequestIdentity) returns (r: Admission)
      requires Valid() && key !in entries
      modifies this
      ensures Valid() && completionSeq == old(completionSeq)
      ensures NewKey(old(entries), entries, key, identity, r, old(residencies))
      ensures residencies == old(residencies) + (if r.Admission? then 1 else 0)
      ensures r.Admission? ==> r.owner && totalBytes <= MAX_STORAGE_BYTES
    {
      hide Accounted, OldestFirst, NoneTooMany, NeedsRoom, Sum;
      var requestBytes := identity.StorageBytes();
      var ok := MakeCapacity(requestBytes);
      SumIsTotal();
      assert key !in entries && MadeRoom(old(entries), entries, requestBytes, ok);
      hide MadeRoom, Evicted;
      if !ok {
        return Refused(Unavailable);
      }
      InsertKeepsAccount(entries, totalBytes, completionSeq, key, identity, residencies);
      totalBytes := SaturatingAdd(totalBytes, requestBytes);
      entries := entries[key := NewEntry(identity, residencies)];
      residencies := residencies + 1;
      r := Admission(true, residencies - 1);
    }

    /** Only an entry still in flight takes a response; afterwards the excess, if any, is not removable. */
    method Complete(key: Key, response: Response, disposition: Disposition)
      requires Valid() && response.StorageBytes() <= MAX_RESPONSE_BYTES
      modifies this
      ensures Valid() && completionSeq == SaturatingSeq(old(completionSeq)) && residencies == old(residencies)
      ensures Evicted(Answered(old(entries), key, response, disposition, completionSeq), entries)
      ensures OldestFirst(Answered(old(entries), key, response, disposition, completionSeq), entries, Some(key))
      ensures OnlyExcessWent(Answered(old(entries), key, response, disposition, completionSeq), entries)
      ensures key in old(entries) ==> key in entries
      // Completions are numbered in the order in which they happen.
      ensures old(completionSeq) < U64_MAX ==>
                && completionSeq == old(completionSeq) + 1
                && forall k :: k in entries && k != key && entries[k].completedSeq.Some?
                               ==> entries[k].completedSeq.value < completionSeq
      ensures key in old(entries) && old(entries)[key].state.InFlight? ==>
                && entries[key].state == EntryState.Complete(response, disposition)
                && entries[key] == old(entries)[key].(state := entries[key].state, completedSeq := Some(completionSeq),
                                                      responseBytes := response.StorageBytes())
      ensures forall k :: k in entries ==>
                && k in old(entries)
                && (k != key || old(entries)[k].state.Complete? ==> entries[k] == old(entries)[k])
      ensures totalBytes > MAX_STORAGE_BYTES ==>
                forall k :: k in entries && k != key ==> entries[k].state.InFlight? || entries[k].waiters > 0
    {
      hide Accounted, Evicted, OldestFirst, OnlyExcessWent, Sum;
      AnswerKeepsAccount(entries, totalBytes, completionSeq, key, response, disposition);
      StatesMatch();
      completionSeq := SaturatingSeq(completionSeq);
      if key in entries && entries[key].state.InFlight? {
        entries := entries[key := Completed(entries[key], response, disposition, completionSeq)];
        totalBytes := SaturatingAdd(totalBytes, response.StorageBytes());
      }
      assert entries == Answered(old(entries), key, response, disposition, completionSeq);
      EvictToStorageBound(Some(key));
      EvictedKeeps(Answered(old(entries), key, response, disposition, completionSeq), entries);
      StatesMatch();
    }

    method ReleaseAuthSession(session: SessionSeq)
      requires Valid()
      modifies `entries, `totalBytes
      ensures Valid() && entries == old(entries) - BoundToSession(old(entries), session)
      ensures forall k :: k in old(entries) ==>
                var e := old(entries)[k];
                k !in entries <==> e.waiters == 0 && e.state.Complete?
                                   && e.state.disposition == RemoveAfterAuthSession(session)
    {
      RemoveAll(BoundToSession(entries, session));
    }

    method Clear()
      modifies `entries, `totalBytes, `completionSeq
      ensures Valid() && entries == map[]
    {
      entries, totalBytes, completionSeq := map[], 0, 0;
    }

    method TakeResponse(key: Key) returns (state: WaitState)
      requires Valid()
      modifies `entries
      ensures Valid()
      ensures state == Taken(old(entries), key)
      ensures entries == if state.Ready? then WaiterLeaves(old(entries), key) else old(entries)
      ensures match state
              case Missing => key !in old(entries)
              case Pending => key in old(entries) && old(entries)[key].state.InFlight?
              case Ready(response) =>
                && key in old(entries) && old(entries)[key].state.Complete? && key in entries
                && response == old(entries)[key].state.response
                && (old(entries)[key].waiters > 0 ==> entries[key].waiters == old(entries)[key].waiters - 1)
    {
      if key !in entries {
        return Missing;
      }
      match entries[key].state {
        case InFlight =>
          state := Pending;
        case Complete(response, _) =>
          LeavingKeepsAccount(entries, totalBytes, completionSeq, key);
          entries := entries[key := Unwaited(entries[key])];
          state := Ready(response);
      }
    }

    /** The waiter's drop while still active. */
    method DropWaiter(key: Key)
      requires Valid()
      modifies `entries
      ensures Valid() && entries == WaiterLeaves(old(entries), key)
      ensures key in old(entries) && old(entries)[key].waiters > 0 ==>
                key in entries && entries[key].waiters == old(entries)[key].waiters - 1
    {
      if key in entries {
        LeavingKeepsAccount(entries, totalBytes, completionSeq, key);
        entries := entries[key := Unwaited(entries[key])];
      }
    }
  }
}
