/**
 * The stream across reconnects: what is shown between two points of a session however many sockets
 * came and went, and a client with any number of sockets on one growing log.
 */
module StreamReconnect {
  import opened CloudTypes
  import opened StreamServer
  import opened StreamClient
  import opened StreamTheorems

  // ----- what is shown while the list is kept

  /** The refresh goes on from the stored cursor. */
  predicate Resumes(c: Controller, wait: Pending, snapshot: Snapshot)
    requires wait.AwaitSession?
  {
    && wait.stored.Some? && wait.stored.value.identity == Identity(snapshot.instance, snapshot.session)
    && wait.stored.value.number <= snapshot.highWater && !c.forceSnapshot
  }

  /** The action gives up the cursor: sign-out, disposal, or a refresh that starts elsewhere. */
  predicate Restarts(c: Controller, action: Action)
    requires Possible(c, action)
  {
    match action
    case Bootstrapping => true
    case Disposing => true
    case RefreshFailing(wait, reauth) => reauth && !c.disposed && wait.generation == c.generation
    case SessionArrives(wait, snapshot) =>
      && !c.disposed && wait.generation == c.generation
      && !(Resumes(c, wait, snapshot) && wait.stored.value.number == c.lastSeq)
    case MessageArrives(id, frame, bytes) =>
      && Hears(c, id) && c.identity.Some? && bytes <= JSON_LIMIT
      && frame.ErrorFrame? && frame.code == AuthenticationExpired && ErrorFrameValid(frame)
    case _ => false
  }

  /** Giving up the cursor empties the list, so nothing shown is ever continued from elsewhere. */
  lemma RestartsEmpty(c: Controller, action: Action, io: Storage)
    requires HistoryInv(c) && Possible(c, action) && Restarts(c, action)
    ensures Act(c, action, io).events == []
  {
  }

  /** The event an action adds to the list. */
  function Shows(c: Controller, action: Action, io: Storage): seq<nat>
    requires Possible(c, action)
  {
    if action.MessageArrives? && action.frame.Event? && Act(c, action, io).lastSeq != c.lastSeq
    then [action.frame.envelope.number] else []
  }

  lemma EventShows(c: Controller, id: nat, envelope: Envelope, io: Storage)
    requires id < |c.streams| && c.identity.Some? && |c.events| <= EVENT_LIMIT
    ensures var d := HandleEvent(c, id, envelope, io);
            || (d.lastSeq == c.lastSeq && d.events == c.events)
            || (d.lastSeq == c.lastSeq + 1 == envelope.number && d.events == Trim(c.events + [envelope.number]))
  {
    hide IsSeq;
  }

  lemma ErrorShows(c: Controller, id: nat, frame: Frame, io: Storage)
    requires id < |c.streams| && frame.ErrorFrame? && !(frame.code == AuthenticationExpired && ErrorFrameValid(frame))
    ensures HandleError(c, id, frame, io).lastSeq == c.lastSeq && HandleError(c, id, frame, io).events == c.events
  {
    hide ErrorFrameValid;
  }

  lemma MessageShows(c: Controller, id: nat, frame: Frame, bytes: nat, io: Storage)
    requires HistoryInv(c) && !Restarts(c, MessageArrives(id, frame, bytes))
    ensures var d, shown := OnMessage(c, id, frame, bytes, io), Shows(c, MessageArrives(id, frame, bytes), io);
            && shown == Numbers(c.lastSeq, d.lastSeq - c.lastSeq) && d.lastSeq >= c.lastSeq
            && d.events == Trim(c.events + shown)
  {
    assert c.events + [] == c.events;
    if Hears(c, id) && c.identity.Some? && bytes <= JSON_LIMIT {
      if frame.Event? { EventShows(c, id, frame.envelope, io); }
      if frame.ErrorFrame? { ErrorShows(c, id, frame, io); }
      hide HandleEvent, HandleError, IsSeq, ErrorFrameValid;
    }
  }

  lemma ActShows(c: Controller, action: Action, io: Storage)
    requires HistoryInv(c) && Possible(c, action) && !Restarts(c, action)
    ensures var d, shown := Act(c, action, io), Shows(c, action, io);
            && d.lastSeq >= c.lastSeq && shown == Numbers(c.lastSeq, d.lastSeq - c.lastSeq)
            && d.events == Trim(c.events + shown)
  {
    if action.MessageArrives? {
      MessageShows(c, action.id, action.frame, action.bytes, io);
      hide OnMessage;
    } else {
      assert c.events + [] == c.events;
    }
  }

  /** Everything shown between two points of a run. */
  function ShownIn(run: seq<Controller>, actions: seq<(Action, Storage)>, i: nat, j: nat): seq<nat>
    requires IsClientRun(run, actions) && i <= j <= |actions|
    decreases j - i
  {
    if i == j then []
    else ShownIn(run, actions, i, j - 1) + Shows(run[j - 1], actions[j - 1].0, actions[j - 1].1)
  }

  predicate Uninterrupted(run: seq<Controller>, actions: seq<(Action, Storage)>, i: nat, j: nat)
    requires IsClientRun(run, actions) && i <= j <= |actions|
  {
    forall k :: i <= k < j ==> !Restarts(run[k], actions[k].0)
  }

  /**
   * While the cursor is never given up, and through any number of reconnects, refreshes and storage
   * failures, every number after the first cursor is shown exactly once and in order, and the list
   * is the last 256 of them.
   */
  lemma {:induction false} ReconnectsShowOnce(run: seq<Controller>, actions: seq<(Action, Storage)>, i: nat, j: nat)
    requires IsClientRun(run, actions) && i <= j <= |actions| && Uninterrupted(run, actions, i, j)
    ensures run[i].lastSeq <= run[j].lastSeq
    ensures ShownIn(run, actions, i, j) == Numbers(run[i].lastSeq, run[j].lastSeq - run[i].lastSeq)
    ensures run[j].events == Trim(run[i].events + ShownIn(run, actions, i, j))
    decreases j - i
  {
    hide Act, Shows, HistoryInv, Restarts, Trim, Possible, Fresh, Numbers;
    HistoryAlways(run, actions, i);
    if i == j {
      ListFits(run[i]);
    } else {
      ReconnectsShowOnce(run, actions, i, j - 1);
      HistoryAlways(run, actions, j - 1);
      ActShows(run[j - 1], actions[j - 1].0, actions[j - 1].1);
      ShownJoins(run[i], run[j - 1], run[j], ShownIn(run, actions, i, j - 1),
                 Shows(run[j - 1], actions[j - 1].0, actions[j - 1].1));
    }
  }

  lemma ListFits(c: Controller)
    requires HistoryInv(c)
    ensures Trim(c.events + []) == c.events && Numbers(c.lastSeq, 0) == []
  {
    assert c.events + [] == c.events;
  }

  /** Two stretches of what is shown make one. */
  lemma ShownJoins(b: Controller, c: Controller, d: Controller, before: seq<nat>, shown: seq<nat>)
    requires b.lastSeq <= c.lastSeq <= d.lastSeq
    requires before == Numbers(b.lastSeq, c.lastSeq - b.lastSeq) && c.events == Trim(b.events + before)
    requires shown == Numbers(c.lastSeq, d.lastSeq - c.lastSeq) && d.events == Trim(c.events + shown)
    ensures before + shown == Numbers(b.lastSeq, d.lastSeq - b.lastSeq)
    ensures d.events == Trim(b.events + (before + shown))
  {
    hide Trim, Numbers;
    NumbersJoin(b.lastSeq, c.lastSeq - b.lastSeq, d.lastSeq - c.lastSeq);
    TrimJoins(b.events, before, shown);
  }

  lemma NumbersJoin(after: nat, a: nat, b: nat)
    ensures Numbers(after, a) + Numbers(after + a, b) == Numbers(after, a + b)
  {
  }

  lemma TrimJoins(events: seq<nat>, before: seq<nat>, shown: seq<nat>)
    ensures Trim(Trim(events + before) + shown) == Trim(events + (before + shown))
  {
    var all := events + before;
    assert events + (before + shown) == all + shown;
    if |all| > EVENT_LIMIT {
      assert Trim(all) + shown == (all + shown)[|all| - EVENT_LIMIT..];
    }
  }

  // ----- a client on one growing log

  /** How far the server has got on one socket: its replay bound and the frames sent. */
  datatype Channel = Channel(highWater: nat, sent: nat)

  /** One session whose log only grows, and a client with any number of sockets on it. */
  datatype System = System(client: Controller, log: nat, channels: map<nat, Channel>)

  datatype SystemStep =
    | Grow
      /** The server accepts the subscription of a socket that has just opened. */
    | Accept(id: nat)
      /** The next frame of that socket's transcript arrives. */
    | Deliver(id: nat, bytes: nat, io: Storage)
      /** An error frame of the server arrives. */
    | Refuse(id: nat, code: ErrorCode, oldest: Option<EventSeq>, latest: Option<EventSeq>, bytes: nat, io: Storage)
      /** Anything else the client does. */
    | Local(action: Action, io: Storage)

  function EnvelopeAt(home: Identity, n: EventSeq): Envelope { Envelope(SCHEMA_VERSION, home.session, n, true) }

  /** The transcript of `Wire`, frame by frame. */
  function FrameAt(home: Identity, after: nat, highWater: nat, n: nat): Frame
    requires after <= highWater && highWater + n <= U64_MAX
  {
    var k := highWater - after;
    if n == 0 then ReplayBegin(home.session, after, highWater)
    else if n <= k then Event(EnvelopeAt(home, after + n))
    else if n == k + 1 then SnapshotFrame(Snapshot(home.session, home.instance, highWater, true), highWater)
    else if n == k + 2 then ReplayEnd(home.session, highWater)
    else Event(EnvelopeAt(home, highWater + n - k - 2))
  }

  /** How many frames there are to send while the log has this length. */
  function FramesUpTo(after: nat, highWater: nat, log: nat): int { (highWater - after) + 3 + (log - highWater) }

  predicate SystemEnabled(s: System, step: SystemStep, home: Identity) {
    match step
    case Grow => s.log < MAX_SAFE_INTEGER
    case Accept(id) => id < |s.client.streams| && id !in s.channels && s.client.streams[id].after <= s.log
    case Deliver(id, bytes, _) =>
      && id in s.channels && id < |s.client.streams| && bytes <= JSON_LIMIT
      && s.client.streams[id].after <= s.channels[id].highWater <= s.log <= MAX_SAFE_INTEGER
      && s.channels[id].sent < FramesUpTo(s.client.streams[id].after, s.channels[id].highWater, s.log)
    case Refuse(id, code, oldest, latest, bytes, _) => bytes <= JSON_LIMIT
    case Local(action, _) =>
      && Possible(s.client, action) && !action.MessageArrives?
      && (action.SessionArrives? ==>
            && Identity(action.snapshot.instance, action.snapshot.session) == home
            && action.snapshot.highWater <= s.log)
      && (action.Authenticating? ==> action.identity == home)
  }

  function SystemApply(s: System, step: SystemStep, home: Identity): System
    requires SystemEnabled(s, step, home)
  {
    match step
    case Grow => s.(log := s.log + 1)
    case Accept(id) => s.(channels := s.channels[id := Channel(s.log, 0)])
    case Deliver(id, bytes, io) =>
      var ch := s.channels[id];
      var frame := FrameAt(home, s.client.streams[id].after, ch.highWater, ch.sent);
      s.(client := OnMessage(s.client, id, frame, bytes, io), channels := s.channels[id := ch.(sent := ch.sent + 1)])
    case Refuse(id, code, oldest, latest, bytes, io) =>
      s.(client := OnMessage(s.client, id, ServerError(code, oldest, latest), bytes, io))
    case Local(action, io) => s.(client := Act(s.client, action, io))
  }

  predicate IsSystemRun(run: seq<System>, steps: seq<SystemStep>, home: Identity) {
    && |run| == |steps| + 1
    && run[0].client == Fresh(run[0].client.storage) && run[0].channels == map[] && run[0].log <= MAX_SAFE_INTEGER
    && forall i :: 0 <= i < |steps| ==>
         SystemEnabled(run[i], steps[i], home) && run[i + 1] == SystemApply(run[i], steps[i], home)
  }

  /** The heard socket stands exactly where its transcript does. */
  predicate InStep(s: System, id: nat)
    requires id < |s.client.streams|
  {
    var st := s.client.streams[id];
    if id in s.channels then
      var ch := s.channels[id];
      var k := ch.highWater - st.after;
      && 0 <= k && ch.highWater <= s.log && ch.sent <= FramesUpTo(st.after, ch.highWater, s.log)
      && st.phase == PhaseAfter(ch.sent, k) && s.client.lastSeq == st.after + EventsAfter(ch.sent, k)
      && (ch.sent > 0 ==> st.highWater == ch.highWater)
    else st.phase == Begin && s.client.lastSeq == st.after
  }

  predicate SystemInv(s: System, home: Identity) {
    && HistoryInv(s.client) && StreamsSound(s.client)
    && (s.client.identity.Some? ==> s.client.identity.value == home)
    && s.client.lastSeq <= s.log <= MAX_SAFE_INTEGER
    && (forall id :: id in s.channels ==> id < |s.client.streams|)
    && (forall id :: 0 <= id < |s.client.streams| && Hears(s.client, id) ==> InStep(s, id))
  }

  /** The frames delivered are those of a transcript the server can produce. */
  lemma FrameAtIsWire(home: Identity, after: EventSeq, sub: Subscription, live: seq<Envelope>, n: nat)
    requires sub.snapshot == Snapshot(home.session, home.instance, sub.snapshot.highWater, true)
    requires Replayable(home.session, after, sub) && Contiguous(live, home.session, sub.snapshot.highWater)
    requires Understood(sub, live) && n < |Wire(home.session, after, sub, live)|
    ensures FrameAt(home, after, sub.snapshot.highWater, n) == Wire(home.session, after, sub, live)[n]
  {
    WireAt(home.session, after, sub, live, n);
  }

  // ----- a delivered frame is always followed

  lemma EventFollowed(s: System, id: nat, envelope: Envelope, io: Storage, home: Identity)
    requires id < |s.client.streams| && s.client.identity == Some(home) && id in s.channels && InStep(s, id)
    requires s.channels[id].sent < FramesUpTo(s.client.streams[id].after, s.channels[id].highWater, s.log)
    requires s.log <= MAX_SAFE_INTEGER
    requires FrameAt(home, s.client.streams[id].after, s.channels[id].highWater, s.channels[id].sent) == Event(envelope)
    ensures IsNext(s.client, id, envelope) && s.client.lastSeq + 1 <= s.log
    ensures var k, n := s.channels[id].highWater - s.client.streams[id].after, s.channels[id].sent;
            && EventsAfter(n + 1, k) == EventsAfter(n, k) + 1
            && PhaseAfter(n + 1, k) == s.client.streams[id].phase && n > 0
  {
  }

  /** What following one frame leaves of the client. */
  predicate Followed(s: System, d: Controller, id: nat) {
    && |d.streams| == |s.client.streams| && id < |d.streams| && id in s.channels
    && d.policy == s.client.policy && d.identity == s.client.identity && d.socket == s.client.socket
    && d.lastSeq <= s.log
    && InStep(System(d, s.log, s.channels[id := s.channels[id].(sent := s.channels[id].sent + 1)]), id)
  }

  lemma EventIsFollowed(s: System, id: nat, envelope: Envelope, io: Storage, home: Identity)
    requires id < |s.client.streams| && s.client.identity == Some(home) && id in s.channels && InStep(s, id)
    requires s.channels[id].sent < FramesUpTo(s.client.streams[id].after, s.channels[id].highWater, s.log)
    requires s.log <= MAX_SAFE_INTEGER
    requires FrameAt(home, s.client.streams[id].after, s.channels[id].highWater, s.channels[id].sent) == Event(envelope)
    ensures Followed(s, HandleEvent(s.client, id, envelope, io), id)
  {
    EventFollowed(s, id, envelope, io, home);
    NextIsTaken(s.client, id, envelope, io);
    hide HandleEvent, FrameAt, Trim, PhaseAfter, EventsAfter, IsNext;
  }

  lemma OtherIsFollowed(s: System, id: nat, frame: Frame, bytes: nat, io: Storage, home: Identity)
    requires id < |s.client.streams| && s.client.identity == Some(home) && id in s.channels && InStep(s, id)
    requires s.channels[id].sent < FramesUpTo(s.client.streams[id].after, s.channels[id].highWater, s.log)
    requires s.log <= MAX_SAFE_INTEGER && s.client.lastSeq <= s.log && bytes <= JSON_LIMIT && !frame.Event?
    requires FrameAt(home, s.client.streams[id].after, s.channels[id].highWater, s.channels[id].sent) == frame
    ensures Followed(s, HandleFrame(s.client, id, frame, bytes, io), id)
  {
    hide HandleEvent, HandleError;
  }

  lemma FrameFollowed(s: System, id: nat, bytes: nat, io: Storage, home: Identity)
    requires SystemInv(s, home) && SystemEnabled(s, Deliver(id, bytes, io), home) && Hears(s.client, id)
    ensures Followed(s, SystemApply(s, Deliver(id, bytes, io), home).client, id)
  {
    var frame := FrameAt(home, s.client.streams[id].after, s.channels[id].highWater, s.channels[id].sent);
    assert s.client.identity == Some(home) && InStep(s, id);
    hide SystemInv, HistoryInv, StreamsSound;
    if frame.Event? {
      EventIsFollowed(s, id, frame.envelope, io, home);
    } else {
      OtherIsFollowed(s, id, frame, bytes, io, home);
    }
    hide HandleEvent, HandleError, FrameAt, Followed, InStep;
  }

  lemma RefusedFrame(c: Controller, id: nat, code: ErrorCode, oldest: Option<EventSeq>, latest: Option<EventSeq>,
                     bytes: nat, io: Storage)
    requires Hears(c, id) && c.identity.Some? && bytes <= JSON_LIMIT
    ensures var d := OnMessage(c, id, ServerError(code, oldest, latest), bytes, io);
            && (d.policy == Terminal <==> Fatal(code, oldest, latest))
            && (d.socket.None? || (d.socket == c.socket && |d.streams| == |c.streams| && d.streams[id].phase == Broken))
            && |d.streams| == |c.streams|
            && (d.identity == c.identity || d.identity.None?) && (d.lastSeq == c.lastSeq || d.lastSeq == 0)
  {
  }

  /** What the client's other actions leave of a heard socket. */
  lemma LocalKeeps(c: Controller, action: Action, io: Storage, id: nat)
    requires HistoryInv(c) && StreamsSound(c) && Possible(c, action) && !action.MessageArrives?
    requires Hears(Act(c, action, io), id)
    ensures var d := Act(c, action, io);
            if id < |c.streams| then Hears(c, id) && d.streams[id] == c.streams[id] && d.lastSeq == c.lastSeq
            else d.streams[id].phase == Begin && d.streams[id].after == d.lastSeq
  {
    hide EndsAt, Trusted, PendingInv, OnMessage;
  }

  lemma LocalBounds(s: System, action: Action, io: Storage, home: Identity)
    requires SystemInv(s, home) && SystemEnabled(s, Local(action, io), home)
    ensures var d := Act(s.client, action, io);
            && d.lastSeq <= s.log && (d.identity.Some? ==> d.identity.value == home)
            && |s.client.streams| <= |d.streams|
            && (d.policy == Terminal ==> s.client.policy == Terminal)
  {
    hide HistoryInv, StreamsSound, InStep, OnMessage;
  }

  // ----- every step, every run

  lemma DeliverKeeps(s: System, id: nat, bytes: nat, io: Storage, home: Identity)
    requires SystemInv(s, home) && SystemEnabled(s, Deliver(id, bytes, io), home)
    ensures var s' := SystemApply(s, Deliver(id, bytes, io), home);
            SystemInv(s', home) && s'.client.policy == s.client.policy
  {
    var s' := SystemApply(s, Deliver(id, bytes, io), home);
    var frame := FrameAt(home, s.client.streams[id].after, s.channels[id].highWater, s.channels[id].sent);
    MessageKeepsHistory(s.client, id, frame, bytes, io);
    MessageSucceeds(s.client, id, frame, bytes, io);
    if Hears(s.client, id) {
      FrameFollowed(s, id, bytes, io, home);
      hide HistoryInv, StreamsSound, HandleFrame, InStep, FrameAt;
    } else {
      hide HistoryInv, StreamsSound, HandleFrame, FrameAt;
    }
  }

  lemma RefuseKeeps(s: System, step: SystemStep, home: Identity)
    requires SystemInv(s, home) && step.Refuse? && SystemEnabled(s, step, home)
    ensures var s' := SystemApply(s, step, home);
            SystemInv(s', home) && (s'.client.policy == Terminal ==>
                                      s.client.policy == Terminal || Fatal(step.code, step.oldest, step.latest))
  {
    var frame := ServerError(step.code, step.oldest, step.latest);
    MessageKeepsHistory(s.client, step.id, frame, step.bytes, step.io);
    MessageSucceeds(s.client, step.id, frame, step.bytes, step.io);
    if Hears(s.client, step.id) && s.client.identity.Some? {
      RefusedFrame(s.client, step.id, step.code, step.oldest, step.latest, step.bytes, step.io);
      hide HistoryInv, StreamsSound, OnMessage, InStep;
    }
  }

  lemma LocalKeepsInv(s: System, action: Action, io: Storage, home: Identity)
    requires SystemInv(s, home) && SystemEnabled(s, Local(action, io), home)
    ensures var s' := SystemApply(s, Local(action, io), home);
            SystemInv(s', home) && (s'.client.policy == Terminal ==> s.client.policy == Terminal)
  {
    var d := Act(s.client, action, io);
    ActKeepsHistory(s.client, action, io);
    ActSucceeds(s.client, action, io);
    LocalBounds(s, action, io, home);
    forall id | 0 <= id < |d.streams| && Hears(d, id) ensures InStep(s.(client := d), id) {
      LocalKeeps(s.client, action, io, id);
    }
    hide HistoryInv, StreamsSound, InStep, Act;
  }

  lemma SystemStepKeeps(s: System, step: SystemStep, home: Identity)
    requires SystemInv(s, home) && SystemEnabled(s, step, home)
    ensures var s' := SystemApply(s, step, home);
            && SystemInv(s', home)
            && (s'.client.policy == Terminal ==>
                  s.client.policy == Terminal || (step.Refuse? && Fatal(step.code, step.oldest, step.latest)))
  {
    match step
    case Grow => hide HistoryInv, StreamsSound;
    case Accept(id) => hide HistoryInv, StreamsSound;
    case Deliver(id, bytes, io) => hide SystemInv; DeliverKeeps(s, id, bytes, io, home);
    case Refuse(_, _, _, _, _, _) => hide SystemInv; RefuseKeeps(s, step, home);
    case Local(action, io) => hide SystemInv; LocalKeepsInv(s, action, io, home);
  }

  lemma SystemStepOf(run: seq<System>, steps: seq<SystemStep>, home: Identity, i: nat)
    requires IsSystemRun(run, steps, home) && i < |steps|
    ensures SystemEnabled(run[i], steps[i], home) && run[i + 1] == SystemApply(run[i], steps[i], home)
  {
    hide SystemEnabled, SystemApply;
  }

  lemma SystemStarts(run: seq<System>, steps: seq<SystemStep>, home: Identity)
    requires IsSystemRun(run, steps, home)
    ensures SystemInv(run[0], home)
  {
    hide SystemEnabled, SystemApply;
  }

  lemma {:induction false} SystemInvAlways(run: seq<System>, steps: seq<SystemStep>, home: Identity, n: nat)
    requires IsSystemRun(run, steps, home) && n <= |steps|
    ensures SystemInv(run[n], home)
  {
    hide SystemInv, SystemEnabled, SystemApply;
    if n == 0 {
      SystemStarts(run, steps, home);
    } else {
      SystemInvAlways(run, steps, home, n - 1);
      SystemStepOf(run, steps, home, n - 1);
      hide IsSystemRun;
      SystemStepKeeps(run[n - 1], steps[n - 1], home);
    }
  }

  /**
   * On a growing log, whatever sockets came before, the cursor is exactly where the current socket's
   * transcript is; once that socket has delivered all there is, the cursor is the end of the log.
   */
  lemma CursorFollowsLog(run: seq<System>, steps: seq<SystemStep>, home: Identity, n: nat, id: nat)
    requires IsSystemRun(run, steps, home) && n <= |steps| && Hears(run[n].client, id) && id in run[n].channels
    ensures InStep(run[n], id) && run[n].client.lastSeq <= run[n].log
    ensures var ch, after := run[n].channels[id], run[n].client.streams[id].after;
            ch.sent == FramesUpTo(after, ch.highWater, run[n].log) ==> run[n].client.lastSeq == run[n].log
  {
    SystemInvAlways(run, steps, home, n);
  }

  lemma NotTerminalAtFirst(run: seq<System>, steps: seq<SystemStep>, home: Identity)
    requires IsSystemRun(run, steps, home)
    ensures run[0].client.policy != Terminal
  {
  }

  /** A client stops for good only through an error frame that names no usable bound, or a protocol mismatch. */
  lemma {:induction false} TerminalOnlyByError(run: seq<System>, steps: seq<SystemStep>, home: Identity, n: nat)
    returns (k: nat)
    requires IsSystemRun(run, steps, home) && n <= |steps| && run[n].client.policy == Terminal
    ensures k < n && steps[k].Refuse? && Fatal(steps[k].code, steps[k].oldest, steps[k].latest)
  {
    hide SystemInv, SystemEnabled, SystemApply, Fatal;
    NotTerminalAtFirst(run, steps, home);
    SystemStepOf(run, steps, home, n - 1);
    SystemInvAlways(run, steps, home, n - 1);
    hide IsSystemRun;
    SystemStepKeeps(run[n - 1], steps[n - 1], home);
    if run[n - 1].client.policy == Terminal {
      k := TerminalOnlyByError(run, steps, home, n - 1);
    } else {
      k := n - 1;
    }
  }

  // ----- the errors this log's own server sends

  /** `subscribe` of the session runtime: how it refuses a cursor, if it does. */
  function SubscribeRefusal(home: Identity, asked: SessionId, after: nat, running: bool, retained: Option<EventSeq>,
                            log: EventSeq, full: bool): Option<Frame>
  {
    if asked != home.session then Some(ServerError(WrongSession, None, None))
    else if !running then Some(ServerError(StreamUnavailable, None, None))
    else if after > log then Some(ServerError(FutureCursor, None, Some(log)))
    else if retained.Some? && after < retained.value - 1 then Some(ServerError(HistoryGap, retained, Some(log)))
    else if full then Some(ServerError(SubscriberLimit, None, None))
    else None
  }

  ghost predicate StillHeld(n: nat, oldest: EventSeq) { oldest <= n }

  /** Every event after the cursor is one the server still has. */
  ghost predicate AllHeld(after: nat, oldest: EventSeq, log: EventSeq) {
    forall n: nat :: after < n <= log ==> StillHeld(n, oldest)
  }

  /**
   * Of a running session with a place left, a cursor is refused exactly if it is ahead of the log or
   * an event after it is gone; the refusal then names where the log ends, and what is still there.
   */
  lemma RefusesExactly(home: Identity, after: nat, oldest: EventSeq, log: EventSeq)
    requires oldest <= log
    ensures var refusal := SubscribeRefusal(home, home.session, after, true, Some(oldest), log, false);
            && (refusal.None? <==> after <= log && AllHeld(after, oldest, log))
            && (refusal == Some(ServerError(FutureCursor, None, Some(log))) <==> after > log)
            && (refusal == Some(ServerError(HistoryGap, Some(oldest), Some(log))) <==>
                  after <= log && !AllHeld(after, oldest, log))
  {
    if after + 1 < oldest {
      assert !StillHeld(after + 1, oldest);
    }
  }

  /** The other refusals, and their order; without any retained event only the future is refused. */
  lemma RefusalOrder(home: Identity, asked: SessionId, after: nat, running: bool, retained: Option<EventSeq>,
                     log: EventSeq, full: bool)
    ensures var refusal := SubscribeRefusal(home, asked, after, running, retained, log, full);
            && (refusal == Some(ServerError(WrongSession, None, None)) <==> asked != home.session)
            && (refusal == Some(ServerError(StreamUnavailable, None, None)) <==> asked == home.session && !running)
            && (refusal == Some(ServerError(SubscriberLimit, None, None)) <==>
                  && full
                  && SubscribeRefusal(home, asked, after, running, retained, log, false).None?)
            && (asked == home.session && running && retained.None? && !full ==> (refusal.None? <==> after <= log))
  {
  }

  /** The codes that only `subscribe` answers with. */
  predicate OfSubscribe(code: ErrorCode) {
    code == WrongSession || code == FutureCursor || code == HistoryGap || code == SubscriberLimit
  }

  /** A code of `subscribe` that reaches the client is its answer to that socket, on this log as it was then. */
  ghost predicate Genuine(s: System, step: SystemStep, home: Identity)
    requires step.Refuse?
  {
    OfSubscribe(step.code) && Hears(s.client, step.id) && s.client.identity.Some? ==>
      exists running, retained: Option<EventSeq>, log: EventSeq, full ::
        && log <= s.log && (retained.Some? ==> retained.value <= log)
        && SubscribeRefusal(home, s.client.identity.value.session, s.client.streams[step.id].after,
                            running, retained, log, full)
           == Some(ServerError(step.code, step.oldest, step.latest))
  }

  /** A heard socket asks for its own session, and what it is refused with always names usable bounds. */
  lemma GenuineIsUnderstood(s: System, step: SystemStep, home: Identity)
    requires SystemInv(s, home) && step.Refuse? && Genuine(s, step, home)
    requires Hears(s.client, step.id) && s.client.identity.Some?
    ensures step.code != WrongSession
    ensures Fatal(step.code, step.oldest, step.latest) ==> step.code == ProtocolError || step.code == UnsupportedVersion
  {
    hide HistoryInv, StreamsSound, InStep;
  }

  predicate Mismatch(step: SystemStep) {
    step.Refuse? && (step.code == ProtocolError || step.code == UnsupportedVersion)
  }

  lemma GenuineStep(s: System, step: SystemStep, home: Identity)
    requires SystemInv(s, home) && SystemEnabled(s, step, home) && (step.Refuse? ==> Genuine(s, step, home))
    requires SystemApply(s, step, home).client.policy == Terminal
    ensures s.client.policy == Terminal || Mismatch(step)
  {
    SystemStepKeeps(s, step, home);
    if step.Refuse? {
      if Hears(s.client, step.id) && s.client.identity.Some? {
        GenuineIsUnderstood(s, step, home);
      }
      hide SystemInv, Genuine, Fatal, HandleFrame;
    } else {
      hide SystemInv, SystemApply, SystemEnabled;
    }
  }

  /** With the errors this log's own server sends, only a protocol or version mismatch stops a client for good. */
  lemma {:induction false} TerminalOnlyByMismatch(run: seq<System>, steps: seq<SystemStep>, home: Identity, n: nat)
    returns (k: nat)
    requires IsSystemRun(run, steps, home) && n <= |steps| && run[n].client.policy == Terminal
    requires forall i :: 0 <= i < n && steps[i].Refuse? ==> Genuine(run[i], steps[i], home)
    ensures k < n && Mismatch(steps[k])
  {
    hide SystemInv, SystemEnabled, SystemApply, Genuine, Mismatch;
    NotTerminalAtFirst(run, steps, home);
    SystemStepOf(run, steps, home, n - 1);
    SystemInvAlways(run, steps, home, n - 1);
    GenuineStep(run[n - 1], steps[n - 1], home);
    k := n - 1;
    if run[k].client.policy == Terminal {
      k := TerminalOnlyByMismatch(run, steps, home, k);
    }
  }

  // ----- when a refresh resumes

  predicate Works(io: Storage) { io.setSucceeds && io.removeSucceeds && io.readSucceeds }

  /** The stored cursor is the current one and trusted, also by the refresh in progress. */
  predicate Steady(c: Controller, home: Identity) {
    && c.identity == Some(home) && c.storage == Some(Cursor(home, c.lastSeq)) && !c.forceSnapshot
    && forall p :: p in c.pending && p.AwaitSession? && p.generation == c.generation ==> p.stored == c.storage
  }

  /** Storage works, nobody signs out, nothing is distrusted, and no snapshot is behind the cursor. */
  predicate Calm(s: System, step: SystemStep) {
    match step
    case Grow => true
    case Accept(_) => true
    case Deliver(_, _, io) => Works(io)
    case Refuse(_, code, _, _, _, io) =>
      Works(io) && code != AuthenticationExpired && code != HistoryGap && code != FutureCursor && code != WrongSession
    case Local(action, io) =>
      && Works(io) && !action.Bootstrapping? && !action.Disposing? && !action.Distrusting? && !action.Authenticating?
      && (action.RefreshFailing? ==> !action.reauth)
      && (action.SessionArrives? ==> s.client.lastSeq <= action.snapshot.highWater)
  }

  /** The client action a step amounts to. */
  function ActionOf(s: System, step: SystemStep, home: Identity): Option<(Action, Storage)>
    requires SystemEnabled(s, step, home)
  {
    match step
    case Grow => None
    case Accept(_) => None
    case Deliver(id, bytes, io) =>
      var ch := s.channels[id];
      Some((MessageArrives(id, FrameAt(home, s.client.streams[id].after, ch.highWater, ch.sent), bytes), io))
    case Refuse(id, code, oldest, latest, bytes, io) =>
      Some((MessageArrives(id, ServerError(code, oldest, latest), bytes), io))
    case Local(action, io) => Some((action, io))
  }

  function StepShows(s: System, step: SystemStep, home: Identity): seq<nat>
    requires SystemEnabled(s, step, home)
  {
    var a := ActionOf(s, step, home);
    if a.Some? then Shows(s.client, a.value.0, a.value.1) else []
  }

  /** Every snapshot that answers the current refresh, with storage working, leaves the cursor stored and trusted. */
  lemma SnapshotIsSteady(s: System, wait: Pending, snapshot: Snapshot, io: Storage, home: Identity)
    requires SystemInv(s, home) && SystemEnabled(s, Local(SessionArrives(wait, snapshot), io), home) && Works(io)
    requires !s.client.disposed && wait.generation == s.client.generation
    ensures Steady(Act(s.client, SessionArrives(wait, snapshot), io), home)
  {
    hide EndsAt, Trusted, AwaitingInv, InStep, StreamsSound;
  }

  lemma DeliverIsSteady(s: System, id: nat, bytes: nat, io: Storage, home: Identity)
    requires SystemInv(s, home) && SystemEnabled(s, Deliver(id, bytes, io), home) && Works(io) && Steady(s.client, home)
    ensures Steady(SystemApply(s, Deliver(id, bytes, io), home).client, home)
  {
    if Hears(s.client, id) {
      var frame := FrameAt(home, s.client.streams[id].after, s.channels[id].highWater, s.channels[id].sent);
      assert InStep(s, id) && AwaitingInv(s.client);
      if frame.Event? {
        EventFollowed(s, id, frame.envelope, io, home);
        NextIsTaken(s.client, id, frame.envelope, io);
        hide SystemInv, HistoryInv, StreamsSound, InStep, HandleEvent, FrameAt, Trim;
      } else {
        hide SystemInv, HistoryInv, StreamsSound, HandleEvent, HandleError;
      }
    }
  }

  lemma RefuseIsSteady(c: Controller, id: nat, code: ErrorCode, oldest: Option<EventSeq>, latest: Option<EventSeq>,
                       bytes: nat, io: Storage, home: Identity)
    requires Steady(c, home)
    requires code != AuthenticationExpired && code != HistoryGap && code != FutureCursor && code != WrongSession
    ensures Steady(OnMessage(c, id, ServerError(code, oldest, latest), bytes, io), home)
  {
  }

  lemma LocalIsSteady(s: System, action: Action, io: Storage, home: Identity)
    requires SystemInv(s, home) && SystemEnabled(s, Local(action, io), home) && Calm(s, Local(action, io))
    requires Steady(s.client, home)
    ensures Steady(Act(s.client, action, io), home) && !Restarts(s.client, action)
  {
    hide EndsAt, Trusted, InStep, StreamsSound, OnMessage;
  }

  lemma CalmStep(s: System, step: SystemStep, home: Identity)
    requires SystemInv(s, home) && SystemEnabled(s, step, home) && Calm(s, step) && Steady(s.client, home)
    ensures Steady(SystemApply(s, step, home).client, home)
    ensures var a := ActionOf(s, step, home);
            a.Some? ==> Possible(s.client, a.value.0) && !Restarts(s.client, a.value.0)
  {
    match step
    case Grow =>
    case Accept(_) =>
    case Deliver(id, bytes, io) => hide SystemInv; DeliverIsSteady(s, id, bytes, io, home);
    case Refuse(id, code, oldest, latest, bytes, io) =>
      RefuseIsSteady(s.client, id, code, oldest, latest, bytes, io, home);
      hide SystemInv, Steady, OnMessage;
    case Local(action, io) => hide SystemInv; LocalIsSteady(s, action, io, home);
  }

  lemma ClientOf(s: System, step: SystemStep, home: Identity)
    requires SystemEnabled(s, step, home)
    ensures var a := ActionOf(s, step, home);
            if a.Some? then Possible(s.client, a.value.0)
                            && SystemApply(s, step, home).client == Act(s.client, a.value.0, a.value.1)
            else SystemApply(s, step, home).client == s.client
  {
    hide OnMessage, FrameAt;
  }

  /** Everything shown between two points of a system run. */
  function ShownBetween(run: seq<System>, steps: seq<SystemStep>, home: Identity, i: nat, j: nat): seq<nat>
    requires IsSystemRun(run, steps, home) && i <= j <= |steps|
    decreases j - i
  {
    if i == j then [] else ShownBetween(run, steps, home, i, j - 1) + StepShows(run[j - 1], steps[j - 1], home)
  }

  lemma StepShowsNext(s: System, step: SystemStep, home: Identity)
    requires SystemInv(s, home) && SystemEnabled(s, step, home) && Calm(s, step) && Steady(s.client, home)
    ensures var d, shown := SystemApply(s, step, home).client, StepShows(s, step, home);
            && Steady(d, home) && s.client.lastSeq <= d.lastSeq
            && shown == Numbers(s.client.lastSeq, d.lastSeq - s.client.lastSeq)
            && d.events == Trim(s.client.events + shown)
  {
    CalmStep(s, step, home);
    ClientOf(s, step, home);
    assert HistoryInv(s.client);
    hide SystemInv, SystemApply, SystemEnabled, Calm, Steady, HistoryInv, Act, Restarts, Shows, Trim;
    var a := ActionOf(s, step, home);
    if a.Some? {
      ActShows(s.client, a.value.0, a.value.1);
    } else {
      ListFits(s.client);
    }
  }

  /**
   * On a growing log, as long as storage works, nobody signs out, no error frame distrusts the cursor
   * and no snapshot is behind it, every refresh resumes: through any number of sockets the client
   * shows every event after its first cursor exactly once and in order.
   */
  lemma {:induction false} CalmRunsShowOnce(run: seq<System>, steps: seq<SystemStep>, home: Identity, i: nat, j: nat)
    requires IsSystemRun(run, steps, home) && i <= j <= |steps| && Steady(run[i].client, home)
    requires forall k :: i <= k < j ==> Calm(run[k], steps[k])
    ensures Steady(run[j].client, home) && run[i].client.lastSeq <= run[j].client.lastSeq
    ensures ShownBetween(run, steps, home, i, j)
         == Numbers(run[i].client.lastSeq, run[j].client.lastSeq - run[i].client.lastSeq)
    ensures run[j].client.events == Trim(run[i].client.events + ShownBetween(run, steps, home, i, j))
    decreases j - i
  {
    hide SystemInv, SystemEnabled, SystemApply, Steady, Calm, StepShows, Trim, Numbers;
    SystemInvAlways(run, steps, home, i);
    if i == j {
      HistoryOf(run[i], home);
      ListFits(run[i].client);
    } else {
      CalmRunsShowOnce(run, steps, home, i, j - 1);
      SystemInvAlways(run, steps, home, j - 1);
      SystemStepOf(run, steps, home, j - 1);
      StepShowsNext(run[j - 1], steps[j - 1], home);
      ShownJoins(run[i].client, run[j - 1].client, run[j].client, ShownBetween(run, steps, home, i, j - 1),
                 StepShows(run[j - 1], steps[j - 1], home));
    }
  }

  lemma HistoryOf(s: System, home: Identity)
    requires SystemInv(s, home)
    ensures HistoryInv(s.client)
  {
    hide HistoryInv, StreamsSound, InStep;
  }
}
