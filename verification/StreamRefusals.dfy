/**
 * What the browser makes of a refused subscription and of the next snapshot: over every system run,
 * a distrusted cursor is never resumed, and the next socket asks from the snapshot's end.
 */
module StreamRefusals {
  import opened CloudTypes
  import opened StreamServer
  import opened StreamClient
  import opened StreamTheorems
  import opened StreamReconnect

  // ----- error frames, code by code

  /** The refusals after which the cursor itself is wrong. */
  predicate Refutes(code: ErrorCode) { code == HistoryGap || code == FutureCursor || code == WrongSession }

  /** Cursor, list and storage are as they were. */
  predicate SameCursor(c: Controller, d: Controller) {
    && d.identity == c.identity && d.lastSeq == c.lastSeq && d.events == c.events
    && d.forceSnapshot == c.forceSnapshot && d.storage == c.storage
  }

  /** The socket is heard no more. */
  predicate GivesUp(c: Controller, d: Controller, id: nat) {
    id < |d.streams| && |d.streams| == |c.streams| && d.streams[id].phase == Broken && !Hears(d, id)
  }

  /** The frame carries exactly the numbers its code calls for, and they make sense. */
  predicate Telling(frame: Frame)
    requires frame.ErrorFrame?
  {
    && (frame.oldest.Some? <==> frame.code == HistoryGap)
    && (frame.latest.Some? ==>
          frame.code == HistoryGap || frame.code == FutureCursor || frame.code == SubscriberLagged)
    && (frame.code == HistoryGap || frame.code == FutureCursor ==> frame.latest.Some?)
    && (frame.latest.Some? ==> frame.latest.value < 0x20_0000_0000_0000)
    && (frame.oldest.Some? && frame.latest.Some? ==> frame.oldest.value <= frame.latest.value)
    && frame.supported == if frame.code == UnsupportedVersion then Some(1) else None
  }

  /** The two ends of the protocol do not speak the same language. */
  predicate Mismatched(code: ErrorCode) { code == ProtocolError || code == UnsupportedVersion }

  /**
   * Every error frame ends its socket. One that cannot be understood, or reports a mismatch, stops
   * the client; a refuted cursor is distrusted and removed from storage, and the client refreshes;
   * an expired authentication signs out; any other keeps the cursor and refreshes.
   */
  lemma ErrorFrames(c: Controller, id: nat, frame: Frame, bytes: nat, io: Storage)
    requires Hears(c, id) && c.identity.Some? && bytes <= 65536 && frame.ErrorFrame?
    ensures var d := OnMessage(c, id, frame, bytes, io);
            && GivesUp(c, d, id)
            && if !Telling(frame) || Mismatched(frame.code) then d.policy == Terminal && SameCursor(c, d)
               else if Refutes(frame.code) then
                 && d.policy == Refresh && d.forceSnapshot
                 && d.storage == (if io.removeSucceeds then None else c.storage)
                 && d.identity == c.identity && d.lastSeq == c.lastSeq && d.events == c.events
               else if frame.code == AuthenticationExpired then
                 && d.identity.None? && d.lastSeq == 0 && d.events == [] && !d.forceSnapshot
                 && d.storage == (if io.removeSucceeds then None else c.storage)
                 && d.socket.None? && d.generation > c.generation
               else d.policy == Refresh && SameCursor(c, d)
  {
  }

  /** What the server sends is understood unless it leaves out a bound. */
  lemma ServerErrorTells(code: ErrorCode, oldest: Option<EventSeq>, latest: Option<EventSeq>)
    ensures Fatal(code, oldest, latest) <==> !Telling(ServerError(code, oldest, latest)) || Mismatched(code)
  {
  }

  /** The event belongs where the socket's protocol now is. */
  predicate InPlace(c: Controller, id: nat, envelope: Envelope)
    requires id < |c.streams| && c.identity.Some?
  {
    && envelope.schema == 1 && envelope.session == c.identity.value.session && envelope.typed
    && envelope.number < 0x20_0000_0000_0000
    && if c.streams[id].phase == Replay then envelope.number <= c.streams[id].highWater
       else c.streams[id].phase == Streaming && envelope.number > c.streams[id].highWater
  }

  /**
   * An event in its place is the next one, which moves the cursor, joins the list of at most 256 and
   * is stored; or an old one, which changes nothing; or one after a gap, which distrusts the cursor.
   * Out of its place it stops the client.
   */
  lemma EventArrives(c: Controller, id: nat, envelope: Envelope, bytes: nat, io: Storage)
    requires Hears(c, id) && c.identity.Some? && bytes <= 65536 && |c.events| <= EVENT_LIMIT
    ensures var d := OnMessage(c, id, Event(envelope), bytes, io);
            if !InPlace(c, id, envelope) then d.policy == Terminal && SameCursor(c, d) && GivesUp(c, d, id)
            else if envelope.number <= c.lastSeq then d == c
            else if envelope.number > c.lastSeq + 1 then
              && GivesUp(c, d, id) && d.policy == Refresh && d.forceSnapshot
              && d.storage == (if io.removeSucceeds then None else c.storage)
              && d.lastSeq == c.lastSeq && d.events == c.events
            else
              && d.lastSeq == envelope.number && d.streams == c.streams && d.policy == c.policy
              && d.events == c.events[if |c.events| == 256 then 1 else 0..] + [envelope.number]
              && d.storage == (if io.setSucceeds then Some(Cursor(c.identity.value, d.lastSeq)) else c.storage)
              && d.forceSnapshot == (c.forceSnapshot || !io.setSucceeds)
  {
  }

  /** So does a frame of more than 64 KiB. */
  lemma TooLong(c: Controller, id: nat, frame: Frame, bytes: nat, io: Storage)
    requires Hears(c, id) && c.identity.Some? && bytes > 65536
    ensures var d := OnMessage(c, id, frame, bytes, io);
            d.policy == Terminal && SameCursor(c, d) && GivesUp(c, d, id)
  {
  }

  // ----- the snapshot that answers a refresh

  /** The snapshot is the answer the client is waiting for. */
  predicate Answers(c: Controller, wait: Pending) {
    !c.disposed && wait.AwaitSession? && wait.generation == c.generation
  }

  /**
   * It goes on from the stored cursor exactly if that is of the same session, not ahead of the
   * snapshot and not distrusted; otherwise it starts at the snapshot's end with an empty list. The
   * new cursor is stored, or the next refresh is made to distrust it.
   */
  lemma SnapshotArrives(c: Controller, wait: Pending, snapshot: Snapshot, io: Storage)
    requires Answers(c, wait)
    ensures var d, home := ReceiveSession(c, wait, snapshot, io), Identity(snapshot.instance, snapshot.session);
            && d.identity == Some(home)
            && d.socket == c.socket && d.streams == c.streams && d.generation == c.generation
            && (if && wait.stored.Some? && wait.stored.value.identity == home
                   && wait.stored.value.number <= snapshot.highWater && !c.forceSnapshot
                then d.lastSeq == wait.stored.value.number && d.events == c.events
                else d.lastSeq == snapshot.highWater && d.events == [])
            && d.forceSnapshot == !io.setSucceeds
            && d.storage == (if io.setSucceeds then Some(Cursor(home, d.lastSeq)) else c.storage)
            && wait !in d.pending && AwaitLogin(c.generation) in d.pending
  {
  }

  /** A snapshot that nobody waits for any more changes nothing but the list of what is awaited. */
  lemma LateSnapshot(c: Controller, wait: Pending, snapshot: Snapshot, io: Storage)
    requires wait.AwaitSession? && !Answers(c, wait)
    ensures ReceiveSession(c, wait, snapshot, io) == c.(pending := c.pending - {wait})
  {
  }

  /** A refresh forgets the socket and reads the stored cursor, or none when storage cannot be read. */
  lemma RefreshStarts(c: Controller, io: Storage)
    requires !c.disposed
    ensures var d := StartRefresh(c, io);
            && d.generation == c.generation + 1 && d.socket.None?
            && d.identity == c.identity && d.lastSeq == c.lastSeq && d.events == c.events
            && d.forceSnapshot == c.forceSnapshot
            && AwaitSession(d.generation, if io.readSucceeds then c.storage else None) in d.pending
            && d.storage == (if !io.readSucceeds && io.removeSucceeds then None else c.storage)
  {
  }

  /** Signing out and disposal forget the session, the cursor, the list and the socket. */
  lemma LeavingForgets(c: Controller, io: Storage)
    ensures forall d | d == EnterBootstrap(c, io) || d == Dispose(c) ::
              && d.identity.None? && d.lastSeq == 0 && d.events == [] && d.socket.None?
              && d.generation == c.generation + 1 && d.streams == c.streams
    ensures EnterBootstrap(c, io).storage == (if io.removeSucceeds then None else c.storage)
    ensures !EnterBootstrap(c, io).forceSnapshot && EnterBootstrap(c, io).disposed == c.disposed
    ensures Dispose(c).disposed
  {
  }

  /** A failed refresh signs out exactly when the server asked for it and the refresh is the current one. */
  lemma FailedRefresh(c: Controller, wait: Pending, reauth: bool, io: Storage)
    ensures var d := RefreshFails(c, wait, reauth, io);
            && wait !in d.pending
            && if reauth && !c.disposed && wait.generation == c.generation then
                 d.identity.None? && d.socket.None? && d.generation == c.generation + 1 && d.events == []
               else d == c.(pending := c.pending - {wait})
  {
  }

  /** A socket opens exactly for the current refresh of an identified client without one, from its cursor. */
  lemma SocketOpens(c: Controller, wait: Pending, opens: bool)
    requires wait.AwaitLogin?
    ensures var d := ReceiveLogin(c, wait, opens);
            if !c.disposed && wait.generation == c.generation && c.identity.Some? && c.socket.None? && opens then
              && |d.streams| == |c.streams| + 1 && d.socket == Some(|c.streams|)
              && d.streams[|c.streams|] == Stream(c.generation, Begin, c.lastSeq, 0)
              && SameCursor(c, d) && d.policy == Reconnect
            else d.streams == c.streams && d.socket == c.socket && SameCursor(c, d)
  {
  }

  /** A closed socket is forgotten if it is the current one; the cursor stays. */
  lemma SocketCloses(c: Controller, id: nat)
    ensures var d := OnClose(c, id);
            && !Hears(d, id) && (forall other :: other != id ==> (Hears(d, other) <==> Hears(c, other)))
            && SameCursor(c, d) && d.streams == c.streams && d.generation == c.generation && d.policy == c.policy
  {
  }

  /** After a sign-in the client knows its session, and no stored cursor of another one is left. */
  lemma SignIn(c: Controller, identity: Identity, io: Storage)
    ensures var d := Authenticated(c, identity, io);
            && d.identity == Some(identity) && d.storage == (if io.removeSucceeds then None else c.storage)
            && d.lastSeq == c.lastSeq && d.events == c.events && d.socket == c.socket && d.streams == c.streams
            && d.generation == c.generation && d.pending == c.pending && d.forceSnapshot == c.forceSnapshot
  {
  }

  // ----- over runs

  /** A heard, valid error frame refutes the cursor. */
  predicate Distrusts(s: System, step: SystemStep) {
    && step.Refuse? && Hears(s.client, step.id) && s.client.identity.Some?
    && Refutes(step.code) && !Fatal(step.code, step.oldest, step.latest)
  }

  predicate IsAnswer(s: System, step: SystemStep) {
    step.Local? && step.action.SessionArrives? && Answers(s.client, step.action.wait)
  }

  /** Sign-out, disposal, or an expired authentication. */
  predicate SignsOut(s: System, step: SystemStep) {
    match step
    case Local(action, _) =>
      || action.Bootstrapping? || action.Disposing?
      || (action.RefreshFailing? && action.reauth && !s.client.disposed
          && action.wait.generation == s.client.generation)
    case Refuse(id, code, _, _, _, _) => Hears(s.client, id) && s.client.identity.Some? && code == AuthenticationExpired
    case _ => false
  }

  predicate Opens(s: System, step: SystemStep, home: Identity)
    requires SystemEnabled(s, step, home)
  {
    |SystemApply(s, step, home).client.streams| > |s.client.streams|
  }

  lemma DistrustForces(s: System, step: SystemStep, home: Identity)
    requires SystemEnabled(s, step, home) && Distrusts(s, step)
    ensures SystemApply(s, step, home).client.forceSnapshot
    ensures step.io.removeSucceeds ==> SystemApply(s, step, home).client.storage.None?
  {
    ErrorFrames(s.client, step.id, ServerError(step.code, step.oldest, step.latest), step.bytes, step.io);
    ServerErrorTells(step.code, step.oldest, step.latest);
    hide OnMessage, Fatal, Telling;
  }

  lemma EventStaysForced(c: Controller, id: nat, envelope: Envelope, io: Storage)
    requires id < |c.streams| && c.identity.Some? && c.forceSnapshot
    ensures HandleEvent(c, id, envelope, io).forceSnapshot
  {
    hide Trim, IsSeq;
  }

  lemma FrameStaysForced(c: Controller, id: nat, frame: Frame, bytes: nat, io: Storage)
    requires c.forceSnapshot
    requires Hears(c, id) && c.identity.Some? && frame.ErrorFrame? ==> frame.code != AuthenticationExpired
    ensures OnMessage(c, id, frame, bytes, io).forceSnapshot
  {
    if Hears(c, id) && c.identity.Some? && frame.Event? {
      EventStaysForced(c, id, frame.envelope, io);
    }
    hide HandleEvent, ErrorFrameValid, IsSeq;
  }

  lemma StaysForced(s: System, step: SystemStep, home: Identity)
    requires SystemEnabled(s, step, home) && s.client.forceSnapshot && !IsAnswer(s, step) && !SignsOut(s, step)
    ensures SystemApply(s, step, home).client.forceSnapshot
  {
    hide OnMessage;
    match step
    case Grow =>
    case Accept(_) =>
    case Deliver(id, bytes, io) =>
      var frame := FrameAt(home, s.client.streams[id].after, s.channels[id].highWater, s.channels[id].sent);
      assert !frame.ErrorFrame?;
      FrameStaysForced(s.client, id, frame, bytes, io);
    case Refuse(id, code, oldest, latest, bytes, io) =>
      FrameStaysForced(s.client, id, ServerError(code, oldest, latest), bytes, io);
    case Local(action, io) => hide Install;
  }

  /** No snapshot has answered and nobody has signed out between two points of a run. */
  predicate StillWaiting(run: seq<System>, steps: seq<SystemStep>, i: nat, j: nat)
    requires j <= |steps| <= |run|
  {
    forall k :: i <= k < j ==> !IsAnswer(run[k], steps[k]) && !SignsOut(run[k], steps[k])
  }

  /** A distrusted cursor stays distrusted until a snapshot answers or the client signs out. */
  lemma {:induction false} DistrustLasts(run: seq<System>, steps: seq<SystemStep>, home: Identity, i: nat, j: nat)
    requires IsSystemRun(run, steps, home) && i < j <= |steps| && Distrusts(run[i], steps[i])
    requires StillWaiting(run, steps, i + 1, j)
    ensures run[j].client.forceSnapshot
    decreases j
  {
    hide SystemEnabled, SystemApply, Distrusts, IsAnswer, SignsOut;
    SystemStepOf(run, steps, home, j - 1);
    if j == i + 1 {
      DistrustForces(run[i], steps[i], home);
    } else {
      DistrustLasts(run, steps, home, i, j - 1);
      StaysForced(run[j - 1], steps[j - 1], home);
    }
  }

  /** The snapshot that ends the wait starts the client afresh, at its own end. */
  lemma DistrustedStartsAfresh(run: seq<System>, steps: seq<SystemStep>, home: Identity, i: nat, m: nat)
    requires IsSystemRun(run, steps, home) && i < m < |steps| && Distrusts(run[i], steps[i])
    requires StillWaiting(run, steps, i + 1, m) && IsAnswer(run[m], steps[m])
    ensures run[m + 1].client.lastSeq == steps[m].action.snapshot.highWater && run[m + 1].client.events == []
    ensures run[m + 1].client.identity == Some(home) && run[m + 1].client.socket.None?
    ensures steps[m].io.setSucceeds ==>
              run[m + 1].client.storage == Some(Cursor(home, steps[m].action.snapshot.highWater))
  {
    DistrustLasts(run, steps, home, i, m);
    SystemStepOf(run, steps, home, m);
    SystemInvAlways(run, steps, home, m);
    NoSocketWhileAwaiting(run[m], steps[m], home);
    SnapshotArrives(run[m].client, steps[m].action.wait, steps[m].action.snapshot, steps[m].io);
    hide IsSystemRun, SystemInv, ReceiveSession;
  }

  lemma NoSocketWhileAwaiting(s: System, step: SystemStep, home: Identity)
    requires SystemInv(s, home) && SystemEnabled(s, step, home) && IsAnswer(s, step)
    ensures s.client.socket.None?
  {
    hide EndsAt, Trusted, PendingInv, InStep, StreamsSound;
  }

  /** Without a socket, an answer or a sign-out the cursor does not move. */
  lemma CursorRests(s: System, step: SystemStep, home: Identity)
    requires SystemEnabled(s, step, home) && s.client.socket.None? && s.client.identity == Some(home)
    requires !IsAnswer(s, step) && !SignsOut(s, step)
    ensures var d := SystemApply(s, step, home).client;
            && d.lastSeq == s.client.lastSeq && d.identity == Some(home)
            && (if Opens(s, step, home) then
                  |d.streams| == |s.client.streams| + 1 && d.streams[|s.client.streams|].after == d.lastSeq
                else d.socket.None?)
  {
    hide HandleFrame, Install;
  }

  /** No socket has opened since then either. */
  predicate NoneOpened(run: seq<System>, steps: seq<SystemStep>, home: Identity, i: nat, j: nat)
    requires IsSystemRun(run, steps, home) && j <= |steps|
  {
    forall k :: i <= k < j ==> !Opens(run[k], steps[k], home)
  }

  lemma {:induction false} CursorRestsAlong(run: seq<System>, steps: seq<SystemStep>, home: Identity, m: nat, n: nat)
    requires IsSystemRun(run, steps, home) && m <= n <= |steps|
    requires run[m].client.socket.None? && run[m].client.identity == Some(home)
    requires StillWaiting(run, steps, m, n) && NoneOpened(run, steps, home, m, n)
    ensures run[n].client.socket.None? && run[n].client.identity == Some(home)
    ensures run[n].client.lastSeq == run[m].client.lastSeq
    decreases n - m
  {
    hide SystemEnabled, SystemApply, IsAnswer, SignsOut, Opens;
    if m < n {
      CursorRestsAlong(run, steps, home, m, n - 1);
      SystemStepOf(run, steps, home, n - 1);
      CursorRests(run[n - 1], steps[n - 1], home);
    }
  }

  /**
   * After a refused cursor, however long it takes and whatever storage does, the next socket opened
   * on the snapshot that ended the wait subscribes from that snapshot's end, and not from the
   * refused cursor.
   */
  lemma NextSocketStartsAtSnapshot(run: seq<System>, steps: seq<SystemStep>, home: Identity, i: nat, m: nat, n: nat)
    requires IsSystemRun(run, steps, home) && i < m < n < |steps| && Distrusts(run[i], steps[i])
    requires StillWaiting(run, steps, i + 1, m) && IsAnswer(run[m], steps[m])
    requires StillWaiting(run, steps, m + 1, n + 1) && NoneOpened(run, steps, home, m + 1, n)
    requires Opens(run[n], steps[n], home)
    ensures var streams := run[n].client.streams;
            && |run[n + 1].client.streams| == |streams| + 1
            && run[n + 1].client.streams[|streams|].after == steps[m].action.snapshot.highWater
  {
    hide SystemEnabled, SystemApply, Distrusts, IsAnswer, SignsOut, Opens;
    DistrustedStartsAfresh(run, steps, home, i, m);
    CursorRestsAlong(run, steps, home, m + 1, n);
    SystemStepOf(run, steps, home, n);
    CursorRests(run[n], steps[n], home);
  }
}
