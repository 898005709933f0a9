/**
 * What the stream promises end to end: the browser follows every transcript the server can
 * produce, and its event history stays gap-free through reconnects, refreshes, sign-ins and
 * failing storage.
 */
module StreamTheorems {
  import opened CloudTypes
  import opened StreamServer
  import opened StreamClient

  // ----- server and client composed

  /** The numbers `after + 1`, ..., `after + count`. */
  function Numbers(after: nat, count: nat): (ns: seq<nat>)
    ensures |ns| == count && forall i :: 0 <= i < count ==> ns[i] == after + 1 + i
  {
    seq(count, i => after + 1 + i)
  }

  /** The client after it received the first `n` frames, with any storage behaviour. */
  function Feed(c: Controller, id: nat, frames: seq<Frame>, n: nat, bytes: Frame -> nat, io: nat -> Storage): Controller
    requires n <= |frames|
  {
    if n == 0 then c
    else OnMessage(Feed(c, id, frames, n - 1, bytes, io), id, frames[n - 1], bytes(frames[n - 1]), io(n - 1))
  }

  /** Where in the grammar a client is after `n` frames of a transcript with `k` replayed events. */
  function PhaseAfter(n: nat, k: nat): StreamClient.Phase {
    if n == 0 then Begin
    else if n <= k + 1 then Replay
    else if n == k + 2 then Snapshotted
    else Streaming
  }

  function EventsAfter(n: nat, k: nat): nat {
    if n == 0 then 0 else if n <= k + 1 then n - 1 else if n <= k + 3 then k else n - 3
  }

  /** A client whose socket has just opened for this subscription. */
  predicate Subscribed(c: Controller, id: nat, session: SessionId, after: EventSeq, sub: Subscription) {
    && Hears(c, id) && c.streams[id].phase == Begin && c.streams[id].after == after == c.lastSeq
    && c.identity == Some(Identity(sub.snapshot.instance, session))
    && |c.events| <= EVENT_LIMIT
  }

  /** The browser's schema knows these events, and its numbers reach the last of them. */
  predicate Understood(sub: Subscription, live: seq<Envelope>) {
    && sub.snapshot.typed
    && (forall i :: 0 <= i < |sub.replay| ==> sub.replay[i].typed)
    && (forall i :: 0 <= i < |live| ==> live[i].typed)
    && sub.snapshot.highWater + |live| <= MAX_SAFE_INTEGER
  }

  function Wire(session: SessionId, after: EventSeq, sub: Subscription, live: seq<Envelope>): seq<Frame> {
    ReplayFrames(session, after, sub) + Events(live)
  }

  lemma WireAt(session: SessionId, after: EventSeq, sub: Subscription, live: seq<Envelope>, n: nat)
    requires n < |Wire(session, after, sub, live)|
    ensures |Wire(session, after, sub, live)| == |sub.replay| + 3 + |live|
    ensures var f, k := Wire(session, after, sub, live)[n], |sub.replay|;
            && (n == 0 ==> f == ReplayBegin(session, after, sub.snapshot.highWater))
            && (0 < n <= k ==> f == Event(sub.replay[n - 1]))
            && (n == k + 1 ==> f == SnapshotFrame(sub.snapshot, sub.snapshot.highWater))
            && (n == k + 2 ==> f == ReplayEnd(session, sub.snapshot.highWater))
            && (k + 3 <= n ==> f == Event(live[n - k - 3]))
  {
  }

  /** What a client that has followed `n` frames looks like. */
  predicate Follows(c: Controller, d: Controller, id: nat, after: EventSeq, sub: Subscription, n: nat) {
    var k := |sub.replay|;
    && Hears(d, id) && id < |c.streams|
    && d.identity == c.identity && d.generation == c.generation && d.policy == c.policy
    && d.streams[id] == c.streams[id].(phase := PhaseAfter(n, k), highWater := d.streams[id].highWater)
    && (n > 0 ==> d.streams[id].highWater == sub.snapshot.highWater)
    && d.lastSeq == after + EventsAfter(n, k)
    && d.events == Trim(c.events + Numbers(after, EventsAfter(n, k)))
  }

  lemma TrimExtends(before: seq<nat>, numbers: seq<nat>, next: nat)
    ensures Trim(Trim(before + numbers) + [next]) == Trim(before + (numbers + [next]))
  {
    assert before + (numbers + [next]) == before + numbers + [next];
  }

  /** An event the client takes at once: it is well formed, in its phase, and the next number. */
  predicate IsNext(d: Controller, id: nat, envelope: Envelope) {
    && id < |d.streams| && d.identity.Some?
    && envelope.schema == SCHEMA_VERSION && envelope.session == d.identity.value.session && envelope.typed
    && envelope.number == d.lastSeq + 1 <= MAX_SAFE_INTEGER
    && var st := d.streams[id];
       (st.phase == Replay && envelope.number <= st.highWater)
       || (st.phase == Streaming && envelope.number > st.highWater)
  }

  lemma NextIsTaken(d: Controller, id: nat, envelope: Envelope, io: Storage)
    requires IsNext(d, id, envelope)
    ensures HandleEvent(d, id, envelope, io)
         == PersistCursor(d.(lastSeq := envelope.number), io).(events := Trim(d.events + [envelope.number]))
  {
    hide Trim;
  }

  lemma ReplayedIsNext(c: Controller, d: Controller, id: nat, session: SessionId, after: EventSeq, sub: Subscription,
                       n: nat)
    requires Subscribed(c, id, session, after, sub) && Replayable(session, after, sub)
    requires Follows(c, d, id, after, sub, n)
    requires 0 < n <= |sub.replay| && sub.replay[n - 1].typed && sub.snapshot.highWater <= MAX_SAFE_INTEGER
    ensures IsNext(d, id, sub.replay[n - 1])
  {
    hide Trim, Numbers;
  }

  lemma LiveIsNext(c: Controller, d: Controller, id: nat, session: SessionId, after: EventSeq, sub: Subscription,
                   live: seq<Envelope>, n: nat)
    requires Subscribed(c, id, session, after, sub) && Replayable(session, after, sub)
    requires Follows(c, d, id, after, sub, n)
    requires Contiguous(live, session, sub.snapshot.highWater)
    requires |sub.replay| + 3 <= n < |sub.replay| + 3 + |live| && live[n - |sub.replay| - 3].typed
    requires sub.snapshot.highWater + |live| <= MAX_SAFE_INTEGER
    ensures IsNext(d, id, live[n - |sub.replay| - 3])
  {
    hide Trim, Numbers;
  }

  lemma EventIsNext(c: Controller, d: Controller, id: nat, session: SessionId, after: EventSeq, sub: Subscription,
                    live: seq<Envelope>, n: nat)
    requires Subscribed(c, id, session, after, sub) && Replayable(session, after, sub)
    requires Contiguous(live, session, sub.snapshot.highWater) && Understood(sub, live)
    requires n < |Wire(session, after, sub, live)| && Wire(session, after, sub, live)[n].Event?
    requires Follows(c, d, id, after, sub, n)
    ensures IsNext(d, id, Wire(session, after, sub, live)[n].envelope)
    ensures EventsAfter(n + 1, |sub.replay|) == EventsAfter(n, |sub.replay|) + 1
    ensures PhaseAfter(n + 1, |sub.replay|) == PhaseAfter(n, |sub.replay|) && n > 0
  {
    hide Subscribed, Contiguous, Replayable, Follows, IsNext, Wire;
    WireAt(session, after, sub, live, n);
    if n <= |sub.replay| {
      ReplayedIsNext(c, d, id, session, after, sub, n);
    } else {
      LiveIsNext(c, d, id, session, after, sub, live, n);
    }
  }

  /** Taking the next event keeps the client in step. */
  lemma TakenFollows(c: Controller, d: Controller, id: nat, after: EventSeq, sub: Subscription, n: nat,
                     envelope: Envelope, io: Storage)
    requires Follows(c, d, id, after, sub, n) && IsNext(d, id, envelope) && n > 0
    requires EventsAfter(n + 1, |sub.replay|) == EventsAfter(n, |sub.replay|) + 1
    requires PhaseAfter(n + 1, |sub.replay|) == PhaseAfter(n, |sub.replay|)
    ensures Follows(c, HandleEvent(d, id, envelope, io), id, after, sub, n + 1)
  {
    hide HandleEvent, Trim, Numbers, PhaseAfter, EventsAfter;
    NextIsTaken(d, id, envelope, io);
    var count := EventsAfter(n, |sub.replay|);
    TrimExtends(c.events, Numbers(after, count), after + count + 1);
    NumbersNext(after, count);
  }

  lemma NumbersNext(after: nat, count: nat)
    ensures Numbers(after, count + 1) == Numbers(after, count) + [after + count + 1]
  {
  }

  lemma FollowEvent(c: Controller, d: Controller, id: nat, session: SessionId, after: EventSeq, sub: Subscription,
                    live: seq<Envelope>, n: nat, bytes: nat, io: Storage)
    requires Subscribed(c, id, session, after, sub) && Replayable(session, after, sub)
    requires Contiguous(live, session, sub.snapshot.highWater) && Understood(sub, live)
    requires n < |Wire(session, after, sub, live)| && Wire(session, after, sub, live)[n].Event?
    requires bytes <= JSON_LIMIT && Follows(c, d, id, after, sub, n)
    ensures Follows(c, OnMessage(d, id, Wire(session, after, sub, live)[n], bytes, io), id, after, sub, n + 1)
  {
    hide Subscribed, Contiguous, Replayable, Understood, Wire;
    EventIsNext(c, d, id, session, after, sub, live, n);
    TakenFollows(c, d, id, after, sub, n, Wire(session, after, sub, live)[n].envelope, io);
    hide HandleEvent, Trim, Numbers, PhaseAfter, EventsAfter;
  }

  lemma FollowFrame(c: Controller, d: Controller, id: nat, session: SessionId, after: EventSeq, sub: Subscription,
                    live: seq<Envelope>, n: nat, bytes: nat, io: Storage)
    requires Subscribed(c, id, session, after, sub) && Replayable(session, after, sub)
    requires Contiguous(live, session, sub.snapshot.highWater) && Understood(sub, live)
    requires n < |Wire(session, after, sub, live)| && bytes <= JSON_LIMIT && Follows(c, d, id, after, sub, n)
    ensures Follows(c, OnMessage(d, id, Wire(session, after, sub, live)[n], bytes, io), id, after, sub, n + 1)
  {
    WireAt(session, after, sub, live, n);
    if Wire(session, after, sub, live)[n].Event? {
      FollowEvent(c, d, id, session, after, sub, live, n, bytes, io);
    } else if n == 0 {
      assert Numbers(after, 0) == [];
    }
  }

  lemma {:induction false} FollowWire(c: Controller, id: nat, session: SessionId, after: EventSeq, sub: Subscription,
                                      live: seq<Envelope>, n: nat, bytes: Frame -> nat, io: nat -> Storage)
    requires Subscribed(c, id, session, after, sub) && Replayable(session, after, sub)
    requires Contiguous(live, session, sub.snapshot.highWater) && Understood(sub, live)
    requires n <= |Wire(session, after, sub, live)|
    requires forall i :: 0 <= i < n ==> bytes(Wire(session, after, sub, live)[i]) <= JSON_LIMIT
    ensures Follows(c, Feed(c, id, Wire(session, after, sub, live), n, bytes, io), id, after, sub, n)
  {
    if n == 0 {
      assert c.events + Numbers(after, 0) == c.events;
    } else {
      FollowWire(c, id, session, after, sub, live, n - 1, bytes, io);
      var wire := Wire(session, after, sub, live);
      FollowFrame(c, Feed(c, id, wire, n - 1, bytes, io), id, session, after, sub, live, n - 1,
                  bytes(wire[n - 1]), io(n - 1));
    }
  }

  lemma {:induction false} FeedPrefix(c: Controller, id: nat, frames: seq<Frame>, more: seq<Frame>, n: nat,
                                      bytes: Frame -> nat, io: nat -> Storage)
    requires n <= |frames| && frames <= more
    ensures Feed(c, id, frames, n, bytes, io) == Feed(c, id, more, n, bytes, io)
  {
    hide OnMessage;
    if n > 0 {
      FeedPrefix(c, id, frames, more, n - 1, bytes, io);
    }
  }

  /**
   * Composition. Whatever the server has sent when the stream stops, the client has no protocol
   * failure, its cursor is the last event sent, and it has applied every number after its old
   * cursor exactly once, in order.
   */
  lemma ClientFollowsServer(c: Controller, id: nat, session: SessionId, after: EventSeq, sub: Subscription,
                            sent: seq<Frame>, live: seq<Envelope>, bytes: Frame -> nat, io: nat -> Storage)
    requires Subscribed(c, id, session, after, sub)
    requires Transcript(session, after, sub, sent, live) && AllFit(sent, bytes) && Understood(sub, live)
    ensures var d := Feed(c, id, sent, |sent|, bytes, io);
            && Hears(d, id) && d.policy == c.policy && d.identity == c.identity
            && d.streams[id].phase == PhaseAfter(|sent|, |sub.replay|)
            && d.lastSeq == after + EventsAfter(|sent|, |sub.replay|)
            && d.events == Trim(c.events + Numbers(after, d.lastSeq - after))
  {
    var wire := Wire(session, after, sub, live);
    assert sent <= wire;
    forall i | 0 <= i < |sent| ensures bytes(wire[i]) <= JSON_LIMIT {
      assert wire[i] == sent[i];
    }
    FollowWire(c, id, session, after, sub, live, |sent|, bytes, io);
    FeedPrefix(c, id, sent, wire, |sent|, bytes, io);
  }

  /** The error frames the server builds from a refused subscription or a failed stream. */
  function ServerError(code: ErrorCode, oldest: Option<EventSeq>, latest: Option<EventSeq>): Frame {
    match code
    case HistoryGap => ErrorFrame(code, oldest, latest, None)
    case FutureCursor => ErrorFrame(code, None, latest, None)
    case UnsupportedVersion => ErrorFrame(code, None, None, Some(1))
    case _ => ErrorFrame(code, None, None, None)
  }

  /** An error frame after which the client does not come back. */
  predicate Fatal(code: ErrorCode, oldest: Option<EventSeq>, latest: Option<EventSeq>) {
    || code == ProtocolError || code == UnsupportedVersion
    || (code == HistoryGap && !(oldest.Some? && latest.Some? && oldest.value <= latest.value
                                && latest.value <= MAX_SAFE_INTEGER))
    || (code == FutureCursor && !(latest.Some? && latest.value <= MAX_SAFE_INTEGER))
  }

  /**
   * The client accepts an error frame exactly when a gap names both ends in order, a future cursor
   * names the end, and the numbers are safe; an omitted bound makes it stop for good instead of
   * refreshing.
   */
  lemma ServerErrorsUnderstood(c: Controller, id: nat, code: ErrorCode, oldest: Option<EventSeq>,
                               latest: Option<EventSeq>, bytes: nat, io: Storage)
    requires Hears(c, id) && c.identity.Some? && bytes <= JSON_LIMIT && c.policy == Reconnect
    ensures var d := OnMessage(c, id, ServerError(code, oldest, latest), bytes, io);
            d.policy == Terminal <==> Fatal(code, oldest, latest)
  {
  }

  // ----- the client's history over everything it can do

  predicate EndsAt(events: seq<nat>, last: nat) {
    |events| <= EVENT_LIMIT && forall i :: 0 <= i < |events| ==> events[i] == last - (|events| - 1 - i)
  }

  /** A stored cursor that the next refresh may trust agrees with the events shown. */
  predicate Trusted(events: seq<nat>, last: nat, forced: bool, stored: Option<Cursor>) {
    events != [] && !forced && stored.Some? ==> stored.value.number == last
  }

  predicate PendingInv(pending: set<Pending>, generation: nat) {
    && (forall p :: p in pending ==> p.generation <= generation)
    && (forall p, q :: p in pending && q in pending && p.generation == q.generation == generation ==> p == q)
  }

  /** While the current refresh awaits its snapshot no socket is open, so its cursor stays trusted. */
  predicate AwaitingInv(c: Controller) {
    forall p :: p in c.pending && p.AwaitSession? && p.generation == c.generation ==>
      c.socket.None? && Trusted(c.events, c.lastSeq, c.forceSnapshot, p.stored)
  }

  predicate HistoryInv(c: Controller) {
    && EndsAt(c.events, c.lastSeq)
    && Trusted(c.events, c.lastSeq, c.forceSnapshot, c.storage)
    && (c.socket.Some? ==> c.identity.Some? && c.socket.value < |c.streams|)
    && PendingInv(c.pending, c.generation)
    && AwaitingInv(c)
  }

  lemma AppendKeepsEnd(events: seq<nat>, last: nat)
    requires EndsAt(events, last)
    ensures EndsAt(Trim(events + [last + 1]), last + 1)
  {
  }

  lemma StreamChangeKeepsHistory(c: Controller, d: Controller)
    requires HistoryInv(c) && |d.streams| == |c.streams| && d == c.(streams := d.streams, policy := d.policy)
    ensures HistoryInv(d)
  {
    hide EndsAt, PendingInv;
  }

  lemma DistrustKeepsHistory(c: Controller, io: Storage)
    requires HistoryInv(c)
    ensures HistoryInv(Distrust(c, io))
  {
    hide EndsAt, PendingInv;
  }

  lemma BootstrapKeepsHistory(c: Controller, io: Storage)
    requires HistoryInv(c)
    ensures HistoryInv(EnterBootstrap(c, io))
  {
    assert EndsAt([], 0);
    hide EndsAt;
  }

  /** The next event, shown and stored. */
  lemma NextKeepsHistory(c: Controller, io: Storage)
    requires HistoryInv(c) && c.socket.Some?
    ensures var n := c.lastSeq + 1;
            HistoryInv(PersistCursor(c.(lastSeq := n), io).(events := Trim(c.events + [n])))
  {
    AppendKeepsEnd(c.events, c.lastSeq);
    hide EndsAt, Trim, PendingInv;
  }

  lemma EventKeepsHistory(c: Controller, id: nat, envelope: Envelope, io: Storage)
    requires HistoryInv(c) && c.socket.Some? && id < |c.streams|
    ensures HistoryInv(HandleEvent(c, id, envelope, io))
  {
    assert c.identity.Some?;
    hide HistoryInv, PersistCursor, Trim, IsSeq;
    NextKeepsHistory(c, io);
    DistrustKeepsHistory(c, io);
    StreamChangeKeepsHistory(c, Fail(c, id, Terminal));
    StreamChangeKeepsHistory(Distrust(c, io), Fail(Distrust(c, io), id, Refresh));
  }

  lemma ErrorKeepsHistory(c: Controller, id: nat, frame: Frame, io: Storage)
    requires HistoryInv(c) && id < |c.streams| && frame.ErrorFrame?
    ensures HistoryInv(HandleError(c, id, frame, io))
  {
    DistrustKeepsHistory(c, io);
    StreamChangeKeepsHistory(c, Advance(c, id, Broken));
    BootstrapKeepsHistory(Advance(c, id, Broken), io);
    StreamChangeKeepsHistory(c, Fail(c, id, Terminal));
    StreamChangeKeepsHistory(c, Fail(c, id, Refresh));
    StreamChangeKeepsHistory(Distrust(c, io), Fail(Distrust(c, io), id, Refresh));
    hide HistoryInv, Fail, Distrust, Advance, EnterBootstrap, ErrorFrameValid;
  }

  lemma MessageKeepsHistory(c: Controller, id: nat, frame: Frame, bytes: nat, io: Storage)
    requires HistoryInv(c)
    ensures HistoryInv(OnMessage(c, id, frame, bytes, io))
  {
    if Hears(c, id) {
      if frame.Event? { EventKeepsHistory(c, id, frame.envelope, io); }
      if frame.ErrorFrame? { ErrorKeepsHistory(c, id, frame, io); }
      var d := OnMessage(c, id, frame, bytes, io);
      hide HandleEvent, HandleError;
      if !frame.Event? && !frame.ErrorFrame? { StreamChangeKeepsHistory(c, d); }
      if bytes > JSON_LIMIT { StreamChangeKeepsHistory(c, d); }
    }
  }

  lemma StartingKeepsHistory(c: Controller, io: Storage)
    requires HistoryInv(c)
    ensures HistoryInv(StartRefresh(c, io))
  {
    hide EndsAt;
  }

  lemma ArrivalKeepsHistory(c: Controller, wait: Pending, snapshot: Snapshot, io: Storage)
    requires HistoryInv(c) && wait in c.pending && wait.AwaitSession?
    ensures HistoryInv(ReceiveSession(c, wait, snapshot, io))
  {
    assert forall last :: EndsAt([], last);
    hide EndsAt;
  }

  lemma RefreshKeepsHistory(c: Controller, action: Action, io: Storage)
    requires HistoryInv(c) && Possible(c, action)
    requires action.StartingRefresh? || action.SessionArrives?
    ensures HistoryInv(Act(c, action, io))
  {
    hide HistoryInv, StartRefresh, ReceiveSession;
    match action
    case StartingRefresh => StartingKeepsHistory(c, io);
    case SessionArrives(wait, snapshot) => ArrivalKeepsHistory(c, wait, snapshot, io);
  }

  lemma DroppingKeepsHistory(c: Controller, wait: Pending)
    requires HistoryInv(c)
    ensures HistoryInv(c.(pending := c.pending - {wait}))
  {
    hide EndsAt;
  }

  lemma FailingKeepsHistory(c: Controller, wait: Pending, reauth: bool, io: Storage)
    requires HistoryInv(c)
    ensures HistoryInv(RefreshFails(c, wait, reauth, io))
  {
    hide HistoryInv, EnterBootstrap;
    DroppingKeepsHistory(c, wait);
    BootstrapKeepsHistory(c.(pending := c.pending - {wait}), io);
  }

  lemma LoginKeepsHistory(c: Controller, wait: Pending, opens: bool)
    requires HistoryInv(c) && wait in c.pending && wait.AwaitLogin?
    ensures HistoryInv(ReceiveLogin(c, wait, opens))
  {
    hide EndsAt;
  }

  lemma ClosingKeepsHistory(c: Controller, id: nat)
    requires HistoryInv(c)
    ensures HistoryInv(OnClose(c, id))
  {
    hide EndsAt, PendingInv;
  }

  lemma AuthenticatingKeepsHistory(c: Controller, identity: Identity, io: Storage)
    requires HistoryInv(c)
    ensures HistoryInv(Authenticated(c, identity, io))
  {
    hide EndsAt, PendingInv;
  }

  lemma DisposingKeepsHistory(c: Controller)
    requires HistoryInv(c)
    ensures HistoryInv(Dispose(c))
  {
    assert EndsAt([], 0);
    hide EndsAt;
  }

  lemma ActKeepsHistory(c: Controller, action: Action, io: Storage)
    requires HistoryInv(c) && Possible(c, action)
    ensures HistoryInv(Act(c, action, io))
  {
    hide HistoryInv, OnMessage, StartRefresh, ReceiveSession, RefreshFails, ReceiveLogin, OnClose, EnterBootstrap,
      Authenticated, Distrust, Dispose;
    match action
    case MessageArrives(id, frame, bytes) => MessageKeepsHistory(c, id, frame, bytes, io);
    case StartingRefresh => RefreshKeepsHistory(c, action, io);
    case SessionArrives(_, _) => RefreshKeepsHistory(c, action, io);
    case Bootstrapping => BootstrapKeepsHistory(c, io);
    case Distrusting => DistrustKeepsHistory(c, io);
    case RefreshFailing(wait, reauth) => FailingKeepsHistory(c, wait, reauth, io);
    case LoginArrives(wait, opens) => LoginKeepsHistory(c, wait, opens);
    case Closing(id) => ClosingKeepsHistory(c, id);
    case Authenticating(identity) => AuthenticatingKeepsHistory(c, identity, io);
    case Disposing => DisposingKeepsHistory(c);
  }

  predicate IsClientRun(run: seq<Controller>, actions: seq<(Action, Storage)>) {
    && |run| == |actions| + 1
    && run[0] == Fresh(run[0].storage)
    && forall i :: 0 <= i < |actions| ==>
         Possible(run[i], actions[i].0) && run[i + 1] == Act(run[i], actions[i].0, actions[i].1)
  }

  lemma FreshIsSound(storage: Option<Cursor>)
    ensures HistoryInv(Fresh(storage)) && StreamsSound(Fresh(storage))
  {
  }

  lemma ClientStep(run: seq<Controller>, actions: seq<(Action, Storage)>, i: nat)
    requires IsClientRun(run, actions) && i < |actions|
    ensures Possible(run[i], actions[i].0) && run[i + 1] == Act(run[i], actions[i].0, actions[i].1)
  {
    hide Act, Possible;
  }

  /**
   * In every state of every session, the events shown are the last of a gap-free sequence that
   * ends exactly at the cursor, at most 256 of them.
   */
  lemma {:induction false} HistoryAlways(run: seq<Controller>, actions: seq<(Action, Storage)>, n: nat)
    requires IsClientRun(run, actions) && n <= |actions|
    ensures HistoryInv(run[n])
  {
    hide HistoryInv, StreamsSound, Act, Possible;
    if n == 0 {
      FreshIsSound(run[0].storage);
    } else {
      HistoryAlways(run, actions, n - 1);
      ClientStep(run, actions, n - 1);
      hide IsClientRun;
      ActKeepsHistory(run[n - 1], actions[n - 1].0, actions[n - 1].1);
    }
  }

  // ----- sockets come and go

  /** A socket that was replaced, closed, or opened by an earlier generation. */
  predicate Stale(c: Controller, id: nat) {
    id < |c.streams| && (c.streams[id].generation != c.generation || c.socket != Some(id))
  }

  predicate StreamsSound(c: Controller) {
    && (forall k :: 0 <= k < |c.streams| ==> c.streams[k].generation <= c.generation)
    && (c.socket.Some? ==> c.socket.value < |c.streams|)
  }

  /** Generations only grow, a stream keeps its own, and a socket number is never used again. */
  predicate Succeeds(c: Controller, d: Controller) {
    && c.generation <= d.generation && |c.streams| <= |d.streams|
    && (forall k :: 0 <= k < |c.streams| ==> d.streams[k].generation == c.streams[k].generation)
    && (d.socket.None? || d.socket == c.socket || d.socket.value >= |c.streams|)
  }

  lemma ErrorSucceeds(c: Controller, id: nat, frame: Frame, io: Storage)
    requires StreamsSound(c) && id < |c.streams| && frame.ErrorFrame?
    ensures StreamsSound(HandleError(c, id, frame, io)) && Succeeds(c, HandleError(c, id, frame, io))
  {
    hide ErrorFrameValid;
  }

  lemma EventSucceeds(c: Controller, id: nat, envelope: Envelope, io: Storage)
    requires StreamsSound(c) && id < |c.streams| && c.identity.Some?
    ensures StreamsSound(HandleEvent(c, id, envelope, io)) && Succeeds(c, HandleEvent(c, id, envelope, io))
  {
    EventTouches(c, id, envelope, io);
    PhaseSucceeds(c, HandleEvent(c, id, envelope, io), id);
    hide HandleEvent, StreamsSound, Succeeds;
  }

  /** Of the sockets an event changes at most the phase of its own. */
  lemma EventTouches(c: Controller, id: nat, envelope: Envelope, io: Storage)
    requires id < |c.streams| && c.identity.Some?
    ensures var d := HandleEvent(c, id, envelope, io);
            && d.generation == c.generation && d.socket == c.socket
            && (d.streams == c.streams || d.streams == c.streams[id := c.streams[id].(phase := Broken)])
  {
    hide Trim, IsSeq;
  }

  lemma PhaseSucceeds(c: Controller, d: Controller, id: nat)
    requires StreamsSound(c) && id < |c.streams| && d.generation == c.generation && d.socket == c.socket
    requires d.streams == c.streams || d.streams == c.streams[id := c.streams[id].(phase := Broken)]
    ensures StreamsSound(d) && Succeeds(c, d)
  {
  }

  lemma MessageSucceeds(c: Controller, id: nat, frame: Frame, bytes: nat, io: Storage)
    requires StreamsSound(c)
    ensures StreamsSound(OnMessage(c, id, frame, bytes, io)) && Succeeds(c, OnMessage(c, id, frame, bytes, io))
  {
    if Hears(c, id) && c.identity.Some? {
      if frame.ErrorFrame? { ErrorSucceeds(c, id, frame, io); }
      if frame.Event? { EventSucceeds(c, id, frame.envelope, io); }
      hide HandleError, HandleEvent, IsSeq;
    }
  }

  lemma ActSucceeds(c: Controller, action: Action, io: Storage)
    requires StreamsSound(c) && Possible(c, action)
    ensures StreamsSound(Act(c, action, io)) && Succeeds(c, Act(c, action, io))
  {
    if action.MessageArrives? {
      MessageSucceeds(c, action.id, action.frame, action.bytes, io);
      hide OnMessage;
    } else {
      hide OnMessage;
    }
  }

  lemma {:induction false} StreamsAlways(run: seq<Controller>, actions: seq<(Action, Storage)>, n: nat)
    requires IsClientRun(run, actions) && n <= |actions|
    ensures StreamsSound(run[n])
  {
    hide HistoryInv, StreamsSound, Act, Possible;
    if n == 0 {
      FreshIsSound(run[0].storage);
    } else {
      StreamsAlways(run, actions, n - 1);
      ClientStep(run, actions, n - 1);
      hide IsClientRun;
      ActSucceeds(run[n - 1], actions[n - 1].0, actions[n - 1].1);
    }
  }

  lemma StaleSucceeds(c: Controller, d: Controller, id: nat)
    requires StreamsSound(c) && StreamsSound(d) && Succeeds(c, d) && Stale(c, id)
    ensures Stale(d, id)
  {
  }

  lemma {:induction false} StaleStays(run: seq<Controller>, actions: seq<(Action, Storage)>, i: nat, j: nat, id: nat)
    requires IsClientRun(run, actions) && i <= j <= |actions| && Stale(run[i], id)
    ensures Stale(run[j], id)
    decreases j - i
  {
    hide Act, Possible, StreamsSound, Stale, Succeeds;
    if i < j {
      StaleStays(run, actions, i, j - 1, id);
      StreamsAlways(run, actions, j - 1);
      ClientStep(run, actions, j - 1);
      hide IsClientRun;
      ActSucceeds(run[j - 1], actions[j - 1].0, actions[j - 1].1);
      StaleSucceeds(run[j - 1], run[j], id);
    }
  }

  /** Once a socket is stale, no frame it ever delivers changes anything, at any later point of the run. */
  lemma StaleFramesChangeNothing(run: seq<Controller>, actions: seq<(Action, Storage)>, i: nat, j: nat, id: nat,
                                 frame: Frame, bytes: nat, io: Storage)
    requires IsClientRun(run, actions) && i <= j <= |actions| && Stale(run[i], id)
    ensures Act(run[j], MessageArrives(id, frame, bytes), io) == run[j]
  {
    StaleStays(run, actions, i, j, id);
    hide IsClientRun;
  }
}
