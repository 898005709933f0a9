/**
 * The browser half of the session stream: the frame handler, its persisted cursor, and the
 * refresh and reconnect transitions around it (apps/control-plane/web/p0-client.js).
 *
 * Handlers run to completion, so each is one function of the controller's state; an `await` is a
 * pending continuation that may be delivered at any later time, or never.
 */
module StreamClient {
  import opened CloudTypes
  import opened StreamServer

  const MAX_SAFE_INTEGER := 0x1F_FFFF_FFFF_FFFF
  const JSON_LIMIT := 64 * 1024
  const EVENT_LIMIT := 256

  datatype Identity = Identity(instance: InstanceId, session: SessionId)
  datatype Cursor = Cursor(identity: Identity, number: nat)

  datatype Phase = Begin | Replay | Snapshotted | Streaming | Broken
  datatype Policy = NoPolicy | Reconnect | Refresh | Terminal

  /** The state a socket's handlers close over. */
  datatype Stream = Stream(generation: nat, phase: Phase, after: nat, highWater: nat)

  /** A refresh that awaits the session snapshot, or the login status after it. */
  datatype Pending =
    | AwaitSession(generation: nat, stored: Option<Cursor>)
    | AwaitLogin(generation: nat)

  datatype Controller = Controller(
    disposed: bool,
    generation: nat,
    identity: Option<Identity>,
    lastSeq: nat,
    events: seq<nat>,
    forceSnapshot: bool,
    storage: Option<Cursor>,
    socket: Option<nat>,
    streams: seq<Stream>,
    pending: set<Pending>,
    policy: Policy)

  /** What session storage does to the next write and the next removal. */
  datatype Storage = Storage(setSucceeds: bool, removeSucceeds: bool, readSucceeds: bool)

  function Fresh(storage: Option<Cursor>): Controller {
    Controller(false, 0, None, 0, [], false, storage, None, [], {}, Reconnect)
  }

  predicate IsSeq(n: int) { 0 <= n <= MAX_SAFE_INTEGER }

  // ----- small transitions

  function ClearStorage(c: Controller, io: Storage): Controller {
    if io.removeSucceeds then c.(storage := None) else c
  }

  function PersistCursor(c: Controller, io: Storage): Controller {
    if c.identity.None? then c
    else if io.setSucceeds then c.(storage := Some(Cursor(c.identity.value, c.lastSeq)))
    else c.(forceSnapshot := true)
  }

  function EnterBootstrap(c: Controller, io: Storage): Controller {
    ClearStorage(c, io).(
      generation := c.generation + 1, socket := None, policy := NoPolicy,
      identity := None, lastSeq := 0, forceSnapshot := false, events := [])
  }

  function Fail(c: Controller, id: nat, policy: Policy): Controller
    requires id < |c.streams|
  {
    c.(streams := c.streams[id := c.streams[id].(phase := Broken)], policy := policy)
  }

  function Advance(c: Controller, id: nat, phase: Phase): Controller
    requires id < |c.streams|
  {
    c.(streams := c.streams[id := c.streams[id].(phase := phase)])
  }

  /** A distrusted cursor: the next refresh starts from the snapshot. */
  function Distrust(c: Controller, io: Storage): Controller {
    ClearStorage(c.(forceSnapshot := true), io)
  }

  /** The last 256 entries. */
  function Trim(events: seq<nat>): seq<nat> {
    if |events| > EVENT_LIMIT then events[|events| - EVENT_LIMIT..] else events
  }

  // ----- the frame handler

  /** The key and value checks of `handleWsError`. */
  predicate ErrorFrameValid(frame: Frame)
    requires frame.ErrorFrame?
  {
    match frame.code
    case HistoryGap =>
      && frame.oldest.Some? && frame.latest.Some? && frame.supported.None?
      && IsSeq(frame.oldest.value) && IsSeq(frame.latest.value) && frame.oldest.value <= frame.latest.value
    case FutureCursor =>
      frame.oldest.None? && frame.latest.Some? && frame.supported.None? && IsSeq(frame.latest.value)
    case SubscriberLagged =>
      frame.oldest.None? && frame.supported.None? && (frame.latest.Some? ==> IsSeq(frame.latest.value))
    case UnsupportedVersion =>
      frame.oldest.None? && frame.latest.None? && frame.supported == Some(1)
    case _ => frame.oldest.None? && frame.latest.None? && frame.supported.None?
  }

  function HandleError(c: Controller, id: nat, frame: Frame, io: Storage): Controller
    requires id < |c.streams| && frame.ErrorFrame?
  {
    if !ErrorFrameValid(frame) then Fail(c, id, Terminal)
    else
      match frame.code
      case AuthenticationExpired => EnterBootstrap(Advance(c, id, Broken), io)
      case HistoryGap => Fail(Distrust(c, io), id, Refresh)
      case FutureCursor => Fail(Distrust(c, io), id, Refresh)
      case WrongSession => Fail(Distrust(c, io), id, Refresh)
      case ProtocolError => Fail(c, id, Terminal)
      case UnsupportedVersion => Fail(c, id, Terminal)
      case _ => Fail(c, id, Refresh)
  }

  function HandleEvent(c: Controller, id: nat, envelope: Envelope, io: Storage): Controller
    requires id < |c.streams| && c.identity.Some?
  {
    var s := c.streams[id];
    if (s.phase != Replay && s.phase != Streaming)
       || envelope.schema != 1 || envelope.session != c.identity.value.session
       || !IsSeq(envelope.number) || !envelope.typed
       || (s.phase == Replay && envelope.number > s.highWater)
       || (s.phase == Streaming && envelope.number <= s.highWater)
    then Fail(c, id, Terminal)
    else if envelope.number <= c.lastSeq then c
    else if envelope.number != c.lastSeq + 1 then Fail(Distrust(c, io), id, Refresh)
    else
      PersistCursor(c.(lastSeq := envelope.number), io).(events := Trim(c.events + [envelope.number]))
  }

  function HandleFrame(c: Controller, id: nat, frame: Frame, bytes: nat, io: Storage): Controller
    requires id < |c.streams| && c.identity.Some?
  {
    var s := c.streams[id];
    if bytes > JSON_LIMIT then Fail(c, id, Terminal)
    else
      match frame
      case ErrorFrame(_, _, _, _) => HandleError(c, id, frame, io)
      case ReplayBegin(session, after, highWater) =>
        if s.phase != Begin || session != c.identity.value.session || after != s.after
           || !IsSeq(highWater) || highWater < after
        then Fail(c, id, Terminal)
        else c.(streams := c.streams[id := s.(phase := Replay, highWater := highWater)])
      case Event(envelope) => HandleEvent(c, id, envelope, io)
      case SnapshotFrame(snapshot, highWater) =>
        if s.phase != Replay || !snapshot.typed || !IsSeq(snapshot.highWater)
           || snapshot.session != c.identity.value.session || snapshot.instance != c.identity.value.instance
           || highWater != s.highWater || snapshot.highWater != s.highWater || c.lastSeq != s.highWater
        then Fail(c, id, Terminal)
        else Advance(c, id, Snapshotted)
      case ReplayEnd(session, highWater) =>
        if s.phase != Snapshotted || session != c.identity.value.session || highWater != s.highWater
        then Fail(c, id, Terminal)
        else Advance(c, id, Streaming)
  }

  /** The guard of `onmessage`: only the current socket of the current generation is heard. */
  predicate Hears(c: Controller, id: nat) {
    && !c.disposed && c.socket == Some(id) && id < |c.streams|
    && c.streams[id].generation == c.generation && c.streams[id].phase != Broken
  }

  function OnMessage(c: Controller, id: nat, frame: Frame, bytes: nat, io: Storage): Controller {
    if Hears(c, id) && c.identity.Some? then HandleFrame(c, id, frame, bytes, io) else c
  }

  // ----- refresh, connect and the rest of the controller

  /** `refresh` up to its first `await`. */
  function StartRefresh(c: Controller, io: Storage): Controller {
    if c.disposed then c
    else
      var generation := c.generation + 1;
      var stored := if io.readSucceeds then c.storage else None;
      var cleared := if io.readSucceeds then c else ClearStorage(c, io);
      cleared.(generation := generation, socket := None, policy := NoPolicy,
               pending := c.pending + {AwaitSession(generation, stored)})
  }

  /** The cursor after a snapshot: the stored one if it still fits, else the snapshot's end. */
  function Install(c: Controller, stored: Option<Cursor>, snapshot: Snapshot, io: Storage): Controller {
    var identity := Identity(snapshot.instance, snapshot.session);
    var same := stored.Some? && stored.value.identity == identity
                && stored.value.number <= snapshot.highWater && !c.forceSnapshot;
    PersistCursor(
      c.(identity := Some(identity),
         lastSeq := if same then stored.value.number else snapshot.highWater,
         forceSnapshot := false,
         events := if same then c.events else [],
         pending := c.pending + {AwaitLogin(c.generation)}), io)
  }

  /** `refresh` when the session snapshot arrives. */
  function ReceiveSession(c: Controller, wait: Pending, snapshot: Snapshot, io: Storage): Controller
    requires wait.AwaitSession?
  {
    var rest := c.(pending := c.pending - {wait});
    if c.disposed || wait.generation != c.generation then rest else Install(rest, wait.stored, snapshot, io)
  }

  /** `refresh` when a read fails; `reauth` drops the session. */
  function RefreshFails(c: Controller, wait: Pending, reauth: bool, io: Storage): Controller {
    var rest := c.(pending := c.pending - {wait});
    if c.disposed || wait.generation != c.generation || !reauth then rest else EnterBootstrap(rest, io)
  }

  /** `refresh` when the login status arrives, and `connect`; `opens` is whether a socket opened. */
  function ReceiveLogin(c: Controller, wait: Pending, opens: bool): Controller {
    var rest := c.(pending := c.pending - {wait});
    if c.disposed || wait.generation != c.generation || c.identity.None? || c.socket.Some? then rest
    else if !opens then rest.(policy := Reconnect)
    else
      rest.(policy := Reconnect, socket := Some(|c.streams|),
            streams := c.streams + [Stream(c.generation, Begin, c.lastSeq, 0)])
  }

  /** The `onclose` handler. */
  function OnClose(c: Controller, id: nat): Controller {
    if c.socket == Some(id) then c.(socket := None) else c
  }

  /** `authenticate` once the bootstrap request succeeded, before its refresh. */
  function Authenticated(c: Controller, identity: Identity, io: Storage): Controller {
    ClearStorage(c.(identity := Some(identity)), io)
  }

  function Dispose(c: Controller): Controller {
    c.(disposed := true, generation := c.generation + 1, socket := None, policy := NoPolicy,
       identity := None, lastSeq := 0, events := [])
  }

  datatype Action =
    | StartingRefresh
    | SessionArrives(wait: Pending, snapshot: Snapshot)
    | RefreshFailing(wait: Pending, reauth: bool)
    | LoginArrives(wait: Pending, opens: bool)
    | MessageArrives(id: nat, frame: Frame, bytes: nat)
    | Closing(id: nat)
    | Bootstrapping
    | Authenticating(identity: Identity)
    | Distrusting
    | Disposing

  predicate Possible(c: Controller, action: Action) {
    match action
    case SessionArrives(wait, _) => wait in c.pending && wait.AwaitSession?
    case RefreshFailing(wait, _) => wait in c.pending
    case LoginArrives(wait, _) => wait in c.pending && wait.AwaitLogin?
    case _ => true
  }

  function Act(c: Controller, action: Action, io: Storage): Controller
    requires Possible(c, action)
  {
    match action
    case StartingRefresh => StartRefresh(c, io)
    case SessionArrives(wait, snapshot) => ReceiveSession(c, wait, snapshot, io)
    case RefreshFailing(wait, reauth) => RefreshFails(c, wait, reauth, io)
    case LoginArrives(wait, opens) => ReceiveLogin(c, wait, opens)
    case MessageArrives(id, frame, bytes) => OnMessage(c, id, frame, bytes, io)
    case Closing(id) => OnClose(c, id)
    case Bootstrapping => EnterBootstrap(c, io)
    case Authenticating(identity) => Authenticated(c, identity, io)
    case Distrusting => Distrust(c, io)
    case Disposing => Dispose(c)
  }
}
