/**
 * The browser controller as the script writes it: closure variables updated in place by the
 * handlers (apps/control-plane/web/p0-client.js). Each handler is proved to perform exactly the
 * transition the stream theorems are about, and to keep the history invariant.
 */
module StreamController {
  import opened CloudTypes
  import opened StreamServer
  import opened StreamClient
  import opened StreamTheorems

  class P0Controller {
    var disposed: bool
    var generation: nat
    var identity: Option<Identity>
    var lastSeq: nat
    var events: seq<nat>
    var forceSnapshot: bool
    var storage: Option<Cursor>
    var socket: Option<nat>
    var streams: seq<Stream>
    var pending: set<Pending>
    var policy: Policy

    function View(): Controller
      reads this
    {
      Controller(
        disposed, generation, identity, lastSeq, events, forceSnapshot, storage, socket, streams, pending, policy)
    }

    constructor (stored: Option<Cursor>)
      ensures View() == Fresh(stored) && HistoryInv(View())
    {
      disposed, generation, identity, lastSeq := false, 0, None, 0;
      events, forceSnapshot, storage := [], false, stored;
      socket, streams, pending, policy := None, [], {}, Reconnect;
    }

    method RemoveStored(io: Storage)
      modifies this`storage
      ensures View() == ClearStorage(old(View()), io)
    {
      if io.removeSucceeds {
        storage := None;
      }
    }

    method Persist(io: Storage)
      modifies this`storage, this`forceSnapshot
      ensures View() == PersistCursor(old(View()), io)
    {
      if identity.None? {
        return;
      }
      if io.setSucceeds {
        storage := Some(Cursor(identity.value, lastSeq));
      } else {
        forceSnapshot := true;
      }
    }

    method Bootstrap(io: Storage)
      requires HistoryInv(View())
      modifies this
      ensures View() == EnterBootstrap(old(View()), io) && HistoryInv(View())
    {
      hide HistoryInv;
      BootstrapKeepsHistory(View(), io);
      generation := generation + 1;
      policy := NoPolicy;
      socket := None;
      identity := None;
      lastSeq := 0;
      forceSnapshot := false;
      RemoveStored(io);
      events := [];
    }

    method StreamFailure(id: nat, reason: Policy)
      requires id < |streams|
      modifies this`streams, this`policy
      ensures View() == Fail(old(View()), id, reason)
    {
      streams := streams[id := streams[id].(phase := Broken)];
      policy := reason;
    }

    method OnEvent(id: nat, envelope: Envelope, io: Storage)
      requires id < |streams| && identity.Some?
      modifies this
      ensures View() == HandleEvent(old(View()), id, envelope, io)
    {
      hide IsSeq;
      var s := streams[id];
      if (s.phase != Replay && s.phase != Streaming)
         || envelope.schema != 1 || envelope.session != identity.value.session
         || !IsSeq(envelope.number) || !envelope.typed
      {
        StreamFailure(id, Terminal);
        return;
      }
      if s.phase == Replay && envelope.number > s.highWater {
        StreamFailure(id, Terminal);
        return;
      }
      if s.phase == Streaming && envelope.number <= s.highWater {
        StreamFailure(id, Terminal);
        return;
      }
      if envelope.number <= lastSeq {
        return;
      }
      if envelope.number != lastSeq + 1 {
        forceSnapshot := true;
        RemoveStored(io);
        StreamFailure(id, Refresh);
        return;
      }
      lastSeq := envelope.number;
      Persist(io);
      events := events + [envelope.number];
      if |events| > EVENT_LIMIT {
        events := events[|events| - EVENT_LIMIT..];
      }
    }

    method OnErrorFrame(id: nat, frame: Frame, io: Storage)
      requires HistoryInv(View()) && id < |streams| && frame.ErrorFrame?
      modifies this
      ensures View() == HandleError(old(View()), id, frame, io)
    {
      hide HistoryInv, ErrorFrameValid;
      if !ErrorFrameValid(frame) {
        StreamFailure(id, Terminal);
        return;
      }
      match frame.code {
        case AuthenticationExpired =>
          StreamChangeKeepsHistory(View(), Advance(View(), id, Broken));
          streams := streams[id := streams[id].(phase := Broken)];
          Bootstrap(io);
        case HistoryGap =>
          forceSnapshot := true;
          RemoveStored(io);
          StreamFailure(id, Refresh);
        case FutureCursor =>
          forceSnapshot := true;
          RemoveStored(io);
          StreamFailure(id, Refresh);
        case WrongSession =>
          forceSnapshot := true;
          RemoveStored(io);
          StreamFailure(id, Refresh);
        case ProtocolError => StreamFailure(id, Terminal);
        case UnsupportedVersion => StreamFailure(id, Terminal);
        case _ => StreamFailure(id, Refresh);
      }
    }

    /** `onmessage` and `handleFrame`. */
    method Message(id: nat, frame: Frame, bytes: nat, io: Storage)
      requires HistoryInv(View())
      modifies this
      ensures View() == OnMessage(old(View()), id, frame, bytes, io) && HistoryInv(View())
    {
      MessageKeepsHistory(View(), id, frame, bytes, io);
      hide EndsAt, PendingInv, AwaitingInv, Trusted;
      if !Hears(View(), id) {
        return;
      }
      if bytes > JSON_LIMIT {
        StreamFailure(id, Terminal);
        return;
      }
      var s := streams[id];
      match frame {
        case ErrorFrame(_, _, _, _) => OnErrorFrame(id, frame, io);
        case Event(envelope) => OnEvent(id, envelope, io);
        case ReplayBegin(session, after, highWater) =>
          if s.phase != Begin || session != identity.value.session || after != s.after
             || !IsSeq(highWater) || highWater < after
          {
            StreamFailure(id, Terminal);
          } else {
            streams := streams[id := s.(phase := Replay, highWater := highWater)];
          }
        case SnapshotFrame(snapshot, highWater) =>
          if s.phase != Replay || !snapshot.typed || !IsSeq(snapshot.highWater)
             || snapshot.session != identity.value.session || snapshot.instance != identity.value.instance
             || highWater != s.highWater || snapshot.highWater != s.highWater || lastSeq != s.highWater
          {
            StreamFailure(id, Terminal);
          } else {
            streams := streams[id := s.(phase := Snapshotted)];
          }
        case ReplayEnd(session, highWater) =>
          if s.phase != Snapshotted || session != identity.value.session || highWater != s.highWater {
            StreamFailure(id, Terminal);
          } else {
            streams := streams[id := s.(phase := Streaming)];
          }
      }
    }

    /** `refresh` up to its first `await`. */
    method BeginRefresh(io: Storage)
      requires HistoryInv(View())
      modifies this
      ensures View() == StartRefresh(old(View()), io) && HistoryInv(View())
    {
      hide HistoryInv;
      StartingKeepsHistory(View(), io);
      if disposed {
        return;
      }
      generation := generation + 1;
      policy := NoPolicy;
      socket := None;
      var stored := storage;
      if !io.readSucceeds {
        stored := None;
        RemoveStored(io);
      }
      pending := pending + {AwaitSession(generation, stored)};
    }

    /** `refresh` when the session snapshot arrives. */
    method SessionArrived(wait: Pending, snapshot: Snapshot, io: Storage)
      requires HistoryInv(View()) && wait in pending && wait.AwaitSession?
      modifies this
      ensures View() == ReceiveSession(old(View()), wait, snapshot, io) && HistoryInv(View())
    {
      hide HistoryInv, Install;
      ArrivalKeepsHistory(View(), wait, snapshot, io);
      pending := pending - {wait};
      if disposed || generation != wait.generation {
        return;
      }
      InstallSnapshot(wait.stored, snapshot, io);
    }

    method InstallSnapshot(stored: Option<Cursor>, snapshot: Snapshot, io: Storage)
      modifies this
      ensures View() == Install(old(View()), stored, snapshot, io)
    {
      hide PersistCursor;
      identity := Some(Identity(snapshot.instance, snapshot.session));
      var same := stored.Some? && stored.value.identity == identity.value
                  && stored.value.number <= snapshot.highWater && !forceSnapshot;
      lastSeq := if same then stored.value.number else snapshot.highWater;
      events := if same then events else [];
      forceSnapshot := false;
      pending := pending + {AwaitLogin(generation)};
      Persist(io);
    }

    /** `refresh` when the login status arrives, and `connect`. */
    method LoginArrived(wait: Pending, opens: bool)
      requires HistoryInv(View()) && wait in pending && wait.AwaitLogin?
      modifies this
      ensures View() == ReceiveLogin(old(View()), wait, opens) && HistoryInv(View())
    {
      hide HistoryInv;
      LoginKeepsHistory(View(), wait, opens);
      pending := pending - {wait};
      if disposed || generation != wait.generation || identity.None? || socket.Some? {
        return;
      }
      policy := Reconnect;
      if opens {
        socket := Some(|streams|);
        streams := streams + [Stream(generation, Begin, lastSeq, 0)];
      }
    }
  }
}
