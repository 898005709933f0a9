/**
 * The server half of the session stream: replay checking and framing, then live delivery
 * (apps/control-plane/src/websocket.rs).
 */
module StreamServer {
  import opened CloudTypes

  const U64_MAX := 0xFFFF_FFFF_FFFF_FFFF
  const MAX_SERVER_MESSAGE_BYTES := 64 * 1024
  const SCHEMA_VERSION := 1

  type SessionId = nat
  type InstanceId = nat
  type EventSeq = n: int | 0 <= n <= U64_MAX witness 0

  /** `typed`: the payload and turn are ones the browser's schema accepts. */
  datatype Envelope = Envelope(schema: nat, session: SessionId, number: EventSeq, typed: bool)
  datatype Snapshot = Snapshot(session: SessionId, instance: InstanceId, highWater: EventSeq, typed: bool)

  datatype ErrorCode =
    | AuthenticationExpired
    | SubscribeTimeout
    | ProtocolError
    | UnsupportedVersion
    | WrongSession
    | HistoryGap
    | FutureCursor
    | SubscriberLimit
    | SubscriberLagged
    | StreamUnavailable

  datatype Frame =
    | ReplayBegin(session: SessionId, after: EventSeq, highWater: EventSeq)
    | Event(envelope: Envelope)
    | SnapshotFrame(snapshot: Snapshot, highWater: EventSeq)
    | ReplayEnd(session: SessionId, highWater: EventSeq)
    | ErrorFrame(code: ErrorCode, oldest: Option<EventSeq>, latest: Option<EventSeq>, supported: Option<nat>)

  datatype Subscription = Subscription(replay: seq<Envelope>, snapshot: Snapshot)

  /** What `connection_outcome` may report, or a send that failed. */
  datatype Interruption = Gone | ShuttingDown | Expired | StrayFrame

  /** One poll of the live loop; `stop` is what kept an envelope from being sent. */
  datatype Tick =
    | Interrupted(cause: Interruption)
    | Ping
    | Live(envelope: Envelope, stop: Option<Interruption>)
    | Empty
    | Lagged
    | Stopped

  /** `Ongoing`: the polls considered so far did not end the stream. */
  datatype Outcome = Ongoing | Closed | ServerShutdown | Failed(code: ErrorCode)

  ghost function EndOf(cause: Interruption): Outcome {
    match cause
    case Gone => Closed
    case ShuttingDown => ServerShutdown
    case Expired => Failed(AuthenticationExpired)
    case StrayFrame => Failed(ProtocolError)
  }

  // ----- what the server may put on the wire

  /** `replay` carries exactly the sequence numbers after `after`, up to `highWater`. */
  predicate Contiguous(replay: seq<Envelope>, session: SessionId, after: EventSeq) {
    forall i :: 0 <= i < |replay| ==>
      replay[i].schema == SCHEMA_VERSION && replay[i].session == session && replay[i].number == after + 1 + i
  }

  predicate Replayable(session: SessionId, after: EventSeq, sub: Subscription) {
    && sub.snapshot.session == session
    && Contiguous(sub.replay, session, after)
    && after + |sub.replay| == sub.snapshot.highWater
  }

  function Events(envelopes: seq<Envelope>): (frames: seq<Frame>)
    ensures |frames| == |envelopes| && forall i :: 0 <= i < |frames| ==> frames[i] == Event(envelopes[i])
  {
    seq(|envelopes|, i requires 0 <= i < |envelopes| => Event(envelopes[i]))
  }

  function ReplayFrames(session: SessionId, after: EventSeq, sub: Subscription): seq<Frame> {
    [ReplayBegin(session, after, sub.snapshot.highWater)]
    + Events(sub.replay)
    + [SnapshotFrame(sub.snapshot, sub.snapshot.highWater), ReplayEnd(session, sub.snapshot.highWater)]
  }

  predicate AllFit(frames: seq<Frame>, bytes: Frame -> nat) {
    forall i :: 0 <= i < |frames| ==> bytes(frames[i]) <= MAX_SERVER_MESSAGE_BYTES
  }

  /** Everything the server can have sent on one subscription before any error frame. */
  ghost predicate Transcript(session: SessionId, after: EventSeq, sub: Subscription, sent: seq<Frame>,
                             live: seq<Envelope>)
  {
    && Replayable(session, after, sub)
    && Contiguous(live, session, sub.snapshot.highWater)
    && (live != [] ==> sent == ReplayFrames(session, after, sub) + Events(live))
    && (live == [] ==> sent <= ReplayFrames(session, after, sub))
  }

  /** A live envelope the server passes on after `last`. */
  predicate Deliverable(envelope: Envelope, session: SessionId, last: EventSeq, bytes: Frame -> nat) {
    && last < U64_MAX
    && envelope.schema == SCHEMA_VERSION && envelope.session == session && envelope.number == last + 1
    && bytes(Event(envelope)) <= MAX_SERVER_MESSAGE_BYTES
  }

  /** The live envelopes delivered before the first tick that ends the stream. */
  ghost function Delivered(ticks: seq<Tick>, session: SessionId, last: EventSeq, bytes: Frame -> nat): seq<Envelope> {
    if |ticks| == 0 then []
    else
      match ticks[0]
      case Ping => Delivered(ticks[1..], session, last, bytes)
      case Empty => Delivered(ticks[1..], session, last, bytes)
      case Live(envelope, stop) =>
        if stop.None? && Deliverable(envelope, session, last, bytes)
        then [envelope] + Delivered(ticks[1..], session, envelope.number, bytes) else []
      case _ => []
  }

  /** And how the stream stands after these ticks. */
  ghost function Standing(ticks: seq<Tick>, session: SessionId, last: EventSeq, bytes: Frame -> nat): Outcome {
    if |ticks| == 0 then Ongoing
    else
      match ticks[0]
      case Ping => Standing(ticks[1..], session, last, bytes)
      case Empty => Standing(ticks[1..], session, last, bytes)
      case Live(envelope, stop) =>
        if !Deliverable(envelope, session, last, bytes) then Failed(StreamUnavailable)
        else if stop.Some? then EndOf(stop.value)
        else Standing(ticks[1..], session, envelope.number, bytes)
      case Interrupted(cause) => EndOf(cause)
      case Lagged => Failed(SubscriberLagged)
      case Stopped => Failed(StreamUnavailable)
  }

  // ----- the server's loops

  /**
   * `prepare_replay` accepts exactly the gap-free subscriptions whose frames fit, and emits the
   * begin, event, snapshot and end frames in that order.
   */
  method PrepareReplay(session: SessionId, after: EventSeq, sub: Subscription, bytes: Frame -> nat)
    returns (frames: Option<seq<Frame>>)
    ensures frames.Some? <==>
              Replayable(session, after, sub) && AllFit(ReplayFrames(session, after, sub), bytes)
    ensures frames.Some? ==> frames.value == ReplayFrames(session, after, sub)
  {
    var highWater := sub.snapshot.highWater;
    if sub.snapshot.session != session || after > highWater {
      return None;
    }
    var expected: int := after;
    for i := 0 to |sub.replay|
      invariant expected == after + i <= highWater
      invariant Contiguous(sub.replay[..i], session, after)
    {
      var envelope := sub.replay[i];
      if expected == U64_MAX {
        return None;
      }
      expected := expected + 1;
      if envelope.schema != SCHEMA_VERSION || envelope.session != session || envelope.number != expected
         || envelope.number > highWater
      {
        return None;
      }
    }
    assert sub.replay[..|sub.replay|] == sub.replay;
    if expected != highWater {
      return None;
    }
    ghost var all := ReplayFrames(session, after, sub);
    var out: seq<Frame> := [];
    var begin := ReplayBegin(session, after, highWater);
    assert all[0] == begin;
    if bytes(begin) > MAX_SERVER_MESSAGE_BYTES {
      return None;
    }
    out := [begin];
    for i := 0 to |sub.replay|
      invariant out == all[..i + 1]
      invariant AllFit(out, bytes)
    {
      assert all[i + 1] == Event(sub.replay[i]);
      if bytes(Event(sub.replay[i])) > MAX_SERVER_MESSAGE_BYTES {
        return None;
      }
      out := out + [Event(sub.replay[i])];
    }
    var n := |sub.replay|;
    assert all[n + 1] == SnapshotFrame(sub.snapshot, highWater) && all[n + 2] == ReplayEnd(session, highWater);
    if bytes(SnapshotFrame(sub.snapshot, highWater)) > MAX_SERVER_MESSAGE_BYTES
       || bytes(ReplayEnd(session, highWater)) > MAX_SERVER_MESSAGE_BYTES
    {
      return None;
    }
    out := out + [SnapshotFrame(sub.snapshot, highWater), ReplayEnd(session, highWater)];
    assert out == all;
    frames := Some(out);
  }

  lemma LiveExtends(live: seq<Envelope>, session: SessionId, last: EventSeq, e: Envelope)
    requires Contiguous(live, session, last)
    requires e.schema == SCHEMA_VERSION && e.session == session && e.number == last + |live| + 1
    ensures Contiguous(live + [e], session, last) && Events(live + [e]) == Events(live) + [Event(e)]
  {
  }

  /** One tick at a time. */
  lemma TickAt(ticks: seq<Tick>, i: nat, session: SessionId, last: EventSeq, bytes: Frame -> nat)
    requires i < |ticks|
    ensures var tick, rest := ticks[i], ticks[i + 1..];
            var here, end := Delivered(ticks[i..], session, last, bytes), Standing(ticks[i..], session, last, bytes);
            if tick.Ping? || tick.Empty? then
              here == Delivered(rest, session, last, bytes) && end == Standing(rest, session, last, bytes)
            else if tick.Live? && tick.stop.None? && Deliverable(tick.envelope, session, last, bytes) then
              && here == [tick.envelope] + Delivered(rest, session, tick.envelope.number, bytes)
              && end == Standing(rest, session, tick.envelope.number, bytes)
            else
              && here == []
              && end == if tick.Interrupted? then EndOf(tick.cause)
                        else if tick.Lagged? then Failed(SubscriberLagged)
                        else if tick.Live? && Deliverable(tick.envelope, session, last, bytes) then
                          EndOf(tick.stop.value)
                        else Failed(StreamUnavailable)
  {
    assert ticks[i..][0] == ticks[i] && ticks[i..][1..] == ticks[i + 1..];
  }

  /** `connection_outcome`, and what a failed send means. */
  method ConnectionOutcome(cause: Interruption) returns (outcome: Outcome)
    ensures outcome == EndOf(cause)
  {
    if cause.Gone? {
      return Closed;
    }
    if cause.StrayFrame? {
      return Failed(ProtocolError);
    }
    if cause.Expired? {
      return Failed(AuthenticationExpired);
    }
    outcome := ServerShutdown;
  }

  /**
   * `stream_subscription` against any interruption point and any live source: what reaches the
   * wire is always a transcript, whichever tick ends the stream.
   */
  method StreamSubscription(session: SessionId, after: EventSeq, sub: Subscription, bytes: Frame -> nat,
                            replayStop: nat, replayCause: Interruption, ticks: seq<Tick>)
    returns (sent: seq<Frame>, outcome: Outcome, ghost live: seq<Envelope>)
    ensures sent != [] ==> Transcript(session, after, sub, sent, live)
    ensures AllFit(sent, bytes)
    ensures var frames := ReplayFrames(session, after, sub);
            if !(Replayable(session, after, sub) && AllFit(frames, bytes)) then
              sent == [] && outcome == Failed(StreamUnavailable)
            else if replayStop < |frames| then sent == frames[..replayStop] && outcome == EndOf(replayCause)
            else
              && live == Delivered(ticks, session, sub.snapshot.highWater, bytes)
              && sent == frames + Events(live)
              && outcome == Standing(ticks, session, sub.snapshot.highWater, bytes)
  {
    sent, live := [], [];
    var replay := PrepareReplay(session, after, sub, bytes);
    if replay.None? {
      return sent, Failed(StreamUnavailable), live;
    }
    var frames := replay.value;
    if replayStop < |frames| {
      sent := frames[..replayStop];
      outcome := ConnectionOutcome(replayCause);
      return;
    }
    sent := frames;
    var lastSeq: int := sub.snapshot.highWater;
    assert ticks[0..] == ticks && ticks[|ticks|..] == [] && Events([]) == [];
    hide Contiguous, Events, Replayable, ReplayFrames;
    for i := 0 to |ticks|
      invariant Contiguous(live, session, sub.snapshot.highWater)
      invariant sent == frames + Events(live)
      invariant lastSeq == sub.snapshot.highWater + |live| <= U64_MAX
      invariant AllFit(sent, bytes)
      invariant live + Delivered(ticks[i..], session, lastSeq, bytes)
                == Delivered(ticks, session, sub.snapshot.highWater, bytes)
      invariant Standing(ticks[i..], session, lastSeq, bytes)
                == Standing(ticks, session, sub.snapshot.highWater, bytes)
    {
      TickAt(ticks, i, session, lastSeq, bytes);
      match ticks[i]
      case Interrupted(cause) =>
        outcome := ConnectionOutcome(cause);
        return;
      case Ping =>
      case Empty =>
      case Lagged => return sent, Failed(SubscriberLagged), live;
      case Stopped => return sent, Failed(StreamUnavailable), live;
      case Live(envelope, stop) =>
        if lastSeq == U64_MAX
           || envelope.schema != SCHEMA_VERSION || envelope.session != session || envelope.number != lastSeq + 1
           || bytes(Event(envelope)) > MAX_SERVER_MESSAGE_BYTES
        {
          return sent, Failed(StreamUnavailable), live;
        }
        if stop.Some? {
          outcome := ConnectionOutcome(stop.value);
          return;
        }
        LiveExtends(live, session, sub.snapshot.highWater, envelope);
        sent := sent + [Event(envelope)];
        live := live + [envelope];
        lastSeq := envelope.number;
    }
    outcome := Ongoing;
  }
}
