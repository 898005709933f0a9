/**
 * Which frames a browser socket accepts at all: exactly the sequences of the replay-then-live
 * protocol, for any sender.
 */
module StreamAcceptance {
  import opened CloudTypes
  import opened StreamServer
  import opened StreamClient

  /** One frame as it reaches the handler: its size, and what storage does meanwhile. */
  datatype Delivery = Delivery(frame: Frame, bytes: nat, io: Storage)

  function Fed(c: Controller, id: nat, ds: seq<Delivery>): Controller {
    if ds == [] then c
    else
      var last := ds[|ds| - 1];
      OnMessage(Fed(c, id, ds[..|ds| - 1]), id, last.frame, last.bytes, last.io)
  }

  /** The highest number seen, starting from the cursor. */
  function Reach(after: nat, ds: seq<Delivery>): nat {
    if ds == [] then after
    else
      var r, f := Reach(after, ds[..|ds| - 1]), ds[|ds| - 1].frame;
      if f.Event? && f.envelope.number > r then f.envelope.number else r
  }

  /** An event of this session that the browser can read. */
  predicate Readable(home: Identity, f: Frame) {
    && f.Event? && f.envelope.schema == 1 && f.envelope.session == home.session && f.envelope.typed
    && f.envelope.number <= MAX_SAFE_INTEGER
  }

  /** Not further than one past everything seen before. */
  predicate Follows1(after: nat, ds: seq<Delivery>, k: nat)
    requires k < |ds|
  {
    ds[k].frame.Event? ==> ds[k].frame.envelope.number <= Reach(after, ds[..k]) + 1
  }

  /**
   * A beginning of the protocol with replay bound `bound` and `p` replayed events: begin, events up
   * to the bound, the snapshot once the bound is reached, end, events past the bound; no number is
   * skipped, and no frame is too long.
   */
  predicate InOrder(home: Identity, after: EventSeq, ds: seq<Delivery>, bound: EventSeq, p: nat) {
    && (ds != [] ==> ds[0].frame == ReplayBegin(home.session, after, bound) && after <= bound <= MAX_SAFE_INTEGER)
    && (ds != [] ==> p < |ds|)
    && (forall k :: 1 <= k <= p && k < |ds| ==> Readable(home, ds[k].frame) && ds[k].frame.envelope.number <= bound)
    && (p + 1 < |ds| ==>
          && ds[p + 1].frame == SnapshotFrame(Snapshot(home.session, home.instance, bound, true), bound)
          && Reach(after, ds[..p + 1]) == bound)
    && (p + 2 < |ds| ==> ds[p + 2].frame == ReplayEnd(home.session, bound))
    && (forall k :: p + 3 <= k < |ds| ==> Readable(home, ds[k].frame) && ds[k].frame.envelope.number > bound)
    && (forall k :: 0 <= k < |ds| ==> ds[k].bytes <= JSON_LIMIT && Follows1(after, ds, k))
  }

  /** A socket that has just opened from the cursor. */
  predicate JustOpened(c: Controller, id: nat, home: Identity) {
    && Hears(c, id) && c.identity == Some(home) && c.lastSeq <= MAX_SAFE_INTEGER
    && c.streams[id].phase == Begin && c.streams[id].after == c.lastSeq
  }

  function PhaseAt(n: nat, p: nat): Phase {
    if n == 0 then Begin else if n <= p + 1 then Replay else if n == p + 2 then Snapshotted else Streaming
  }

  /** Where the socket stands after `n` accepted frames. */
  predicate Stands(c: Controller, d: Controller, id: nat, n: nat, bound: EventSeq, p: nat, reach: nat) {
    && Hears(d, id) && id < |c.streams| && d.identity == c.identity && d.lastSeq == reach <= MAX_SAFE_INTEGER
    && d.streams[id].phase == PhaseAt(n, p) && d.streams[id].after == c.streams[id].after
    && (n > 0 ==> d.streams[id].highWater == bound)
  }

  /** One more frame fits. */
  predicate Fits(home: Identity, after: EventSeq, n: nat, bound: EventSeq, p: nat, reach: nat, f: Frame) {
    if n == 0 then f == ReplayBegin(home.session, after, bound) && after <= bound <= MAX_SAFE_INTEGER
    else if n <= p then false
    else if f.Event? then
      && (n == p + 1 || n >= p + 3) && Readable(home, f) && f.envelope.number <= reach + 1
      && (if n == p + 1 then f.envelope.number <= bound else f.envelope.number > bound)
    else if f.SnapshotFrame? then
      && n == p + 1 && reach == bound
      && f == SnapshotFrame(Snapshot(home.session, home.instance, bound, true), bound)
    else n == p + 2 && f == ReplayEnd(home.session, bound)
  }

  function Counted(n: nat, p: nat, f: Frame): nat { if n == p + 1 && f.Event? then p + 1 else p }

  function Further(reach: nat, f: Frame): nat {
    if f.Event? && f.envelope.number > reach then f.envelope.number else reach
  }

  // ----- one frame

  lemma EventTaken(c: Controller, d: Controller, id: nat, home: Identity, n: nat, bound: EventSeq, p: nat, reach: nat,
                   e: Envelope, io: Storage)
    requires JustOpened(c, id, home) && Stands(c, d, id, n, bound, p, reach) && (n == 0 || n > p)
    ensures var d', f := HandleEvent(d, id, e, io), Event(e);
            if n > 0 && Fits(home, c.lastSeq, n, bound, p, reach, f)
            then Stands(c, d', id, n + 1, bound, Counted(n, p, f), Further(reach, f))
            else !Hears(d', id)
  {
    hide Trim;
  }

  lemma OtherTaken(c: Controller, d: Controller, id: nat, home: Identity, n: nat, bound: EventSeq, p: nat, reach: nat,
                   f: Frame, bytes: nat, io: Storage)
    requires JustOpened(c, id, home) && Stands(c, d, id, n, bound, p, reach) && n > p
    requires !f.Event? && !f.ErrorFrame? && bytes <= JSON_LIMIT
    ensures var d' := HandleFrame(d, id, f, bytes, io);
            if Fits(home, c.lastSeq, n, bound, p, reach, f)
            then Stands(c, d', id, n + 1, bound, p, reach)
            else !Hears(d', id)
  {
    hide HandleEvent, HandleError;
  }

  lemma FirstTaken(c: Controller, d: Controller, id: nat, home: Identity, f: Frame, bytes: nat, io: Storage)
    requires JustOpened(c, id, home) && Stands(c, d, id, 0, 0, 0, c.lastSeq) && bytes <= JSON_LIMIT
    requires !f.Event? && !f.ErrorFrame?
    ensures var d' := HandleFrame(d, id, f, bytes, io);
            if && f.ReplayBegin? && f.session == home.session && f.after == c.lastSeq
               && c.lastSeq <= f.highWater <= MAX_SAFE_INTEGER
            then Stands(c, d', id, 1, f.highWater, 0, c.lastSeq)
            else !Hears(d', id)
  {
    hide HandleEvent, HandleError;
  }

  lemma ErrorEnds(d: Controller, id: nat, f: Frame, io: Storage)
    requires Hears(d, id) && f.ErrorFrame?
    ensures !Hears(HandleError(d, id, f, io), id)
  {
    hide ErrorFrameValid;
  }

  lemma TooLongEnds(d: Controller, id: nat, f: Frame, bytes: nat, io: Storage)
    requires Hears(d, id) && d.identity.Some? && bytes > JSON_LIMIT
    ensures !Hears(HandleFrame(d, id, f, bytes, io), id)
  {
    hide HandleEvent, HandleError;
  }

  /** After the first frame: the next one is accepted exactly if it fits. */
  lemma NextTaken(c: Controller, d: Controller, id: nat, home: Identity, n: nat, bound: EventSeq, p: nat, reach: nat,
                  x: Delivery)
    requires JustOpened(c, id, home) && Stands(c, d, id, n, bound, p, reach) && n > p
    ensures var d' := OnMessage(d, id, x.frame, x.bytes, x.io);
            if x.bytes <= JSON_LIMIT && Fits(home, c.lastSeq, n, bound, p, reach, x.frame)
            then Stands(c, d', id, n + 1, bound, Counted(n, p, x.frame), Further(reach, x.frame))
            else !Hears(d', id)
  {
    hide HandleEvent, HandleError, Fits, IsSeq;
    if x.bytes > JSON_LIMIT {
      TooLongEnds(d, id, x.frame, x.bytes, x.io);
    } else if x.frame.ErrorFrame? {
      ErrorEnds(d, id, x.frame, x.io);
      ErrorNeverFits(home, c.lastSeq, n, bound, p, reach, x.frame);
    } else if x.frame.Event? {
      EventTaken(c, d, id, home, n, bound, p, reach, x.frame.envelope, x.io);
    } else {
      OtherTaken(c, d, id, home, n, bound, p, reach, x.frame, x.bytes, x.io);
    }
  }

  lemma ErrorNeverFits(home: Identity, after: EventSeq, n: nat, bound: EventSeq, p: nat, reach: nat, f: Frame)
    requires f.ErrorFrame?
    ensures !Fits(home, after, n, bound, p, reach, f)
  {
  }

  // ----- sequences of frames

  lemma CutIsSame(ds: seq<Delivery>, x: Delivery, k: nat)
    requires k <= |ds|
    ensures (ds + [x])[..k] == ds[..k] && (ds + [x])[..|ds|] == ds
  {
  }

  lemma FollowsGrows(after: EventSeq, ds: seq<Delivery>, x: Delivery)
    requires forall k :: 0 <= k < |ds| ==> ds[k].bytes <= JSON_LIMIT && Follows1(after, ds, k)
    requires x.bytes <= JSON_LIMIT && (x.frame.Event? ==> x.frame.envelope.number <= Reach(after, ds) + 1)
    ensures var all := ds + [x];
            forall k :: 0 <= k < |all| ==> all[k].bytes <= JSON_LIMIT && Follows1(after, all, k)
  {
    hide Reach;
    var all := ds + [x];
    forall k | 0 <= k < |all| ensures all[k].bytes <= JSON_LIMIT && Follows1(after, all, k) {
      CutIsSame(ds, x, if k < |ds| then k else |ds|);
      if k < |ds| {
        assert Follows1(after, ds, k);
      }
    }
  }

  /** Adding a frame that fits keeps the order. */
  lemma OrderGrows(home: Identity, after: EventSeq, ds: seq<Delivery>, bound: EventSeq, p: nat, x: Delivery)
    requires ds != [] && InOrder(home, after, ds, bound, p)
    requires x.bytes <= JSON_LIMIT && Fits(home, after, |ds|, bound, p, Reach(after, ds), x.frame)
    ensures InOrder(home, after, ds + [x], bound, Counted(|ds|, p, x.frame))
  {
    hide Reach, Readable, Follows1;
    FollowsGrows(after, ds, x);
    var q := Counted(|ds|, p, x.frame);
    CutIsSame(ds, x, if q + 1 <= |ds| then q + 1 else |ds|);
  }

  lemma FollowsShrinks(after: EventSeq, ds: seq<Delivery>)
    requires ds != [] && forall k :: 0 <= k < |ds| ==> ds[k].bytes <= JSON_LIMIT && Follows1(after, ds, k)
    ensures var n := |ds| - 1; var rest := ds[..n];
            && (forall k :: 0 <= k < n ==> rest[k].bytes <= JSON_LIMIT && Follows1(after, rest, k))
            && ds[n].bytes <= JSON_LIMIT
            && (ds[n].frame.Event? ==> ds[n].frame.envelope.number <= Reach(after, rest) + 1)
  {
    hide Reach;
    var n := |ds| - 1;
    var rest := ds[..n];
    forall k | 0 <= k < n ensures rest[k].bytes <= JSON_LIMIT && Follows1(after, rest, k) {
      assert Follows1(after, ds, k);
      assert rest[..k] == ds[..k];
    }
    assert Follows1(after, ds, n);
  }

  lemma ShorterInOrder(home: Identity, after: EventSeq, ds: seq<Delivery>, bound: EventSeq, q: nat, p: nat)
    requires |ds| > 1 && InOrder(home, after, ds, bound, q) && p == if q == |ds| - 1 then q - 1 else q
    ensures InOrder(home, after, ds[..|ds| - 1], bound, p)
  {
    hide Reach, Follows1, Readable;
    FollowsShrinks(after, ds);
    var n := |ds| - 1;
    if p + 1 <= n {
      assert ds[..n][..p + 1] == ds[..p + 1];
    }
  }

  lemma LastFits(home: Identity, after: EventSeq, ds: seq<Delivery>, bound: EventSeq, q: nat, p: nat)
    requires |ds| > 1 && InOrder(home, after, ds, bound, q) && p == if q == |ds| - 1 then q - 1 else q
    ensures ds[|ds| - 1].bytes <= JSON_LIMIT
    ensures Fits(home, after, |ds| - 1, bound, p, Reach(after, ds[..|ds| - 1]), ds[|ds| - 1].frame)
    ensures Counted(|ds| - 1, p, ds[|ds| - 1].frame) == q
  {
    hide Reach, Follows1;
    FollowsShrinks(after, ds);
    var n := |ds| - 1;
    var f := ds[n].frame;
    if q == n || n >= q + 3 {
      assert Readable(home, f);
    }
  }

  /** And a longer sequence in order is a shorter one with a frame that fits. */
  lemma OrderShrinks(home: Identity, after: EventSeq, ds: seq<Delivery>, bound: EventSeq, q: nat) returns (p: nat)
    requires |ds| > 1 && InOrder(home, after, ds, bound, q)
    ensures var n := |ds| - 1;
            && n > p && InOrder(home, after, ds[..n], bound, p) && ds[n].bytes <= JSON_LIMIT
            && Fits(home, after, n, bound, p, Reach(after, ds[..n]), ds[n].frame)
            && Counted(n, p, ds[n].frame) == q
  {
    p := if q == |ds| - 1 then q - 1 else q;
    ShorterInOrder(home, after, ds, bound, q, p);
    LastFits(home, after, ds, bound, q, p);
    assert q < |ds|;
    hide InOrder, Fits, Reach;
  }

  /** What an accepted sequence leaves the socket like. */
  ghost predicate Accepted(c: Controller, id: nat, home: Identity, ds: seq<Delivery>, bound: EventSeq, p: nat) {
    && c.lastSeq <= MAX_SAFE_INTEGER && InOrder(home, c.lastSeq, ds, bound, p)
    && Stands(c, Fed(c, id, ds), id, |ds|, bound, p, Reach(c.lastSeq, ds))
  }

  lemma AcceptedOne(c: Controller, id: nat, home: Identity, x: Delivery) returns (bound: EventSeq)
    requires JustOpened(c, id, home)
    ensures Hears(OnMessage(c, id, x.frame, x.bytes, x.io), id) ==> Accepted(c, id, home, [x], bound, 0)
    ensures !Hears(OnMessage(c, id, x.frame, x.bytes, x.io), id) ==>
              forall b: EventSeq, p :: !InOrder(home, c.lastSeq, [x], b, p)
  {
    assert [x][..0] == [] && Fed(c, id, []) == c && Reach(c.lastSeq, []) == c.lastSeq;
    assert [x][0] == x && Fed(c, id, [x]) == OnMessage(c, id, x.frame, x.bytes, x.io);
    bound := if x.frame.ReplayBegin? then x.frame.highWater else 0;
    if x.bytes > JSON_LIMIT {
      TooLongEnds(c, id, x.frame, x.bytes, x.io);
    } else if x.frame.ErrorFrame? {
      ErrorEnds(c, id, x.frame, x.io);
    } else if x.frame.Event? {
      EventTaken(c, c, id, home, 0, 0, 0, c.lastSeq, x.frame.envelope, x.io);
    } else {
      FirstTaken(c, c, id, home, x.frame, x.bytes, x.io);
    }
    hide HandleEvent, HandleError, IsSeq;
  }

  /** A socket that is still heard has got a beginning of the protocol. */
  lemma {:induction false} HeardIsInOrder(c: Controller, id: nat, home: Identity, ds: seq<Delivery>)
    returns (bound: EventSeq, p: nat)
    requires JustOpened(c, id, home) && Hears(Fed(c, id, ds), id)
    ensures Accepted(c, id, home, ds, bound, p) && (ds != [] ==> p < |ds|)
    decreases |ds|
  {
    hide Stands, InOrder, Fits, OnMessage, Reach, Hears;
    if ds == [] {
      bound, p := 0, 0;
      AcceptedNone(c, id, home);
    } else if |ds| == 1 {
      assert ds == [ds[0]] && ds[..0] == [];
      bound := AcceptedOne(c, id, home, ds[0]);
      p := 0;
    } else {
      var n := |ds| - 1;
      StaysUnheard(c, id, ds);
      bound, p := HeardIsInOrder(c, id, home, ds[..n]);
      NextTaken(c, Fed(c, id, ds[..n]), id, home, n, bound, p, Reach(c.lastSeq, ds[..n]), ds[n]);
      OrderGrows(home, c.lastSeq, ds[..n], bound, p, ds[n]);
      ReachStep(c.lastSeq, ds);
      assert ds[..n] + [ds[n]] == ds;
      p := Counted(n, p, ds[n].frame);
    }
  }

  lemma AcceptedNone(c: Controller, id: nat, home: Identity)
    requires JustOpened(c, id, home)
    ensures Accepted(c, id, home, [], 0, 0)
  {
  }

  /** Whatever reaches a socket that is not heard changes nothing. */
  lemma StaysUnheard(c: Controller, id: nat, ds: seq<Delivery>)
    requires ds != [] && Hears(Fed(c, id, ds), id)
    ensures Hears(Fed(c, id, ds[..|ds| - 1]), id)
  {
    hide HandleFrame;
  }

  /** And every beginning of the protocol keeps it heard. */
  lemma {:induction false} InOrderIsHeard(c: Controller, id: nat, home: Identity, ds: seq<Delivery>, bound: EventSeq,
                                          p: nat)
    requires JustOpened(c, id, home) && InOrder(home, c.lastSeq, ds, bound, p)
    ensures Hears(Fed(c, id, ds), id)
    ensures ds != [] ==> Stands(c, Fed(c, id, ds), id, |ds|, bound, p, Reach(c.lastSeq, ds))
    decreases |ds|
  {
    hide Stands, InOrder, Fits, OnMessage, Reach, Hears;
    if ds == [] {
    } else if |ds| == 1 {
      assert ds == [ds[0]] && ds[..0] == [];
      FirstIsHeard(c, id, home, ds[0], bound, p);
    } else {
      var n := |ds| - 1;
      var q := OrderShrinks(home, c.lastSeq, ds, bound, p);
      InOrderIsHeard(c, id, home, ds[..n], bound, q);
      NextTaken(c, Fed(c, id, ds[..n]), id, home, n, bound, q, Reach(c.lastSeq, ds[..n]), ds[n]);
      ReachStep(c.lastSeq, ds);
      StandsHeard(c, Fed(c, id, ds), id, |ds|, bound, p, Reach(c.lastSeq, ds));
    }
  }

  lemma ReachStep(after: nat, ds: seq<Delivery>)
    requires ds != []
    ensures Reach(after, ds) == Further(Reach(after, ds[..|ds| - 1]), ds[|ds| - 1].frame)
  {
  }

  lemma StandsHeard(c: Controller, d: Controller, id: nat, n: nat, bound: EventSeq, p: nat, reach: nat)
    requires Stands(c, d, id, n, bound, p, reach)
    ensures Hears(d, id)
  {
  }

  lemma FirstIsHeard(c: Controller, id: nat, home: Identity, x: Delivery, bound: EventSeq, p: nat)
    requires JustOpened(c, id, home) && InOrder(home, c.lastSeq, [x], bound, p)
    ensures Hears(Fed(c, id, [x]), id) && Stands(c, Fed(c, id, [x]), id, 1, bound, p, Reach(c.lastSeq, [x]))
  {
    assert [x][..0] == [] && [x][0] == x;
    assert Fed(c, id, []) == c && Fed(c, id, [x]) == OnMessage(c, id, x.frame, x.bytes, x.io);
    FirstTaken(c, c, id, home, x.frame, x.bytes, x.io);
    hide HandleEvent, HandleError, IsSeq;
  }

  /**
   * A socket accepts exactly the beginnings of the protocol, from any sender; and its cursor is then
   * the highest number it was given.
   */
  lemma AcceptsExactly(c: Controller, id: nat, home: Identity, ds: seq<Delivery>)
    requires JustOpened(c, id, home)
    ensures Hears(Fed(c, id, ds), id) <==> exists bound: EventSeq, p :: InOrder(home, c.lastSeq, ds, bound, p)
    ensures Hears(Fed(c, id, ds), id) ==> Fed(c, id, ds).lastSeq == Reach(c.lastSeq, ds)
  {
    hide InOrder, Fed, Hears;
    if Hears(Fed(c, id, ds), id) {
      var bound, p := HeardIsInOrder(c, id, home, ds);
    }
    forall bound: EventSeq, p | InOrder(home, c.lastSeq, ds, bound, p) ensures Hears(Fed(c, id, ds), id) {
      InOrderIsHeard(c, id, home, ds, bound, p);
    }
  }
}
