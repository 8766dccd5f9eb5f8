/** A whole run in which a second fast retransmit moves the mark and the threshold of a recovery. */
module RecoveryRun {
  import opened Common
  import opened Ranges
  import opened Congestion
  import opened RetransmitTimer
  import opened SecureChannel
  import opened Reorder
  import opened LossRecovery
  import opened AckHandling
  import opened Endpoint
  import opened Channel
  import opened ChannelInvariant
  import opened ChannelReceipts
  import opened ChannelTheorems
  import opened ChannelProgress
  import opened RecoveryEpisode

  // ---- reading

  /** `n` chunks were read into the empty queue of `e`, and nothing else happened. */
  ghost predicate Filled(e: Endpoint, n: nat, f: Endpoint) {
    && f.nextOutbound == e.nextOutbound + n && |f.send.pending| == n
    && f.send.(pending := e.send.pending) == e.send
    && (forall i :: 0 <= i < n ==> f.send.pending[i].sequence == e.nextOutbound + i && f.send.pending[i].attempts == 1)
    && f.status == e.status && f.readClosed == e.readClosed && f.close == e.close
    && |f.read| == |e.read| + n
  }

  lemma ReadOneMore(e: Endpoint, n: nat, f: Endpoint, chunk: Bytes)
    requires Filled(e, n, f) && f.nextOutbound < U64_MAX
    ensures Filled(e, n + 1, OnRead(f, chunk, 0.0))
  {
  }

  lemma {:induction false} ReadMany(c: Channel, chunk: Bytes, n: nat) returns (actions: seq<Action>, d: Channel)
    requires Sound(c) && c.left.status.Running? && 0 < |chunk| <= MAX_PLAINTEXT
    requires !c.left.readClosed && c.left.close.None? && c.left.send.pending == []
    requires n <= SendWindowSize(c.left.send.window) && c.left.nextOutbound + n <= U64_MAX
    ensures Sound(d) && Follows(c, actions, d) && d.right == c.right && Filled(c.left, n, d.left)
  {
    NoStep(c);
    hide Sound, Follows;
    actions, d := [], c;
    if n > 0 {
      var first, b := ReadMany(c, chunk, n - 1);
      assert MayRead(b.left);
      ReadOneMore(c.left, n - 1, b.left, chunk);
      var ev := ReadEvent(chunk, 0.0);
      hide OnRead, Filled;
      d := OneStep(b, Left, ev);
      FollowsOn(c, first, b, [Action(Left, ev)], d);
      actions := first + [Action(Left, ev)];
    }
  }

  // ---- arriving

  /** The right end expects `k` and holds the numbers above it up to `q`. */
  ghost predicate Holds(r: Endpoint, k: int, q: int) {
    r.inbound.expected == k && r.inbound.buffered.Keys == Span(k + 2, q) && r.status.Running?
  }

  lemma SackOfSpan(lo: u64, hi: u64)
    requires lo <= hi
    ensures Numbers(Span(lo, hi)) && SackRanges(Span(lo, hi)) == [Range(lo, hi)]
  {
    OneRun(Span(lo, hi), Range(lo, hi));
    hide Runs, Span;
    assert [Range(lo, hi)][..1] == [Range(lo, hi)];
  }

  lemma OneRun(keys: set<int>, r: Range)
    requires r.start <= r.end && keys == Span(r.start, r.end)
    ensures Numbers(keys) && Runs(keys) == [r]
  {
    CoverSingle(r);
    assert Canonical([r]) && Numbers(keys);
    hide Runs, Cover, Canonical, Span;
    CanonicalUnique(Runs(keys), [r]);
  }

  lemma HoldsMeans(r: Endpoint, k: int, q: int)
    requires Holds(r, k, q)
    ensures r.status.Running? && r.inbound.expected == k
  {
  }

  lemma SackOfNothing()
    ensures SackRanges({}) == []
  {
    EmptyCover(Runs({}));
    hide Runs;
  }

  /** A packet that is expected, with nothing buffered. */
  lemma NextArrives(s: Endpoint, r: Endpoint, m: Envelope)
    requires Linked(s, r) && m in s.sent && m.Data? && m.sequence == r.inbound.expected && r.inbound.buffered == map[]
    ensures var n := OnData(r, m.sequence, m.payload);
      && n.inbound == Inbound(m.sequence + 1, map[]) && n.status == r.status
      && n.sent == r.sent + [Ack(m.sequence + 1, [])]
  {
    assert IsSealedChunk(s, m.sequence, m.payload);
    DataKeepsReceiver(s, r, m.sequence, m.payload);
    assert Queued(r.inbound, m.sequence, m.payload).0 == Inbound(m.sequence + 1, map[]);
    SackOfNothing();
    hide OnData, Queued, SackRanges;
  }

  /** A packet beyond a missing one, which makes the held numbers one longer. */
  lemma LaterArrives(s: Endpoint, r: Endpoint, m: Envelope, k: int)
    requires Linked(s, r) && m in s.sent && m.Data? && 0 <= k && k + 2 <= m.sequence <= k + MAX_REORDER_BUFFER
    requires Holds(r, k, m.sequence - 1)
    ensures var n := OnData(r, m.sequence, m.payload);
      Holds(n, k, m.sequence) && n.sent == r.sent + [Ack(k, [Range(k + 2, m.sequence)])]
  {
    assert IsSealedChunk(s, m.sequence, m.payload) && InWindow(r.inbound);
    BufferLater(r.inbound, k, m.sequence, m.payload);
    DataKeepsReceiver(s, r, m.sequence, m.payload);
    hide Linked, Queued, Span, OnData, SackRanges, ReceiverOk, IsSealedChunk, InWindow;
    SackOfSpan(k + 2, m.sequence);
  }

  lemma BufferLater(b: Inbound<Sealed>, k: int, q: int, payload: Sealed)
    requires InWindow(b) && b.expected == k && b.buffered.Keys == Span(k + 2, q - 1)
    requires k + 2 <= q <= k + MAX_REORDER_BUFFER
    ensures var n := Queued(b, q, payload).0;
      n.expected == k && n.buffered.Keys == Span(k + 2, q)
  {
    CapacityNeverRejects(b, q);
    hide InWindow;
    assert Span(k + 2, q - 1) + {q} == Span(k + 2, q);
  }

  lemma PacketOf(c: Channel, q: int) returns (m: Envelope)
    requires Sound(c) && 0 <= q < |c.left.read|
    ensures m in c.left.sent && m.Data? && m.sequence == q && Linked(c.left, c.right)
  {
    PairedLinks(c, Left);
    hide Sound, Linked, ReceiverOk;
    m := ReadChunkWasSent(c.left, q);
  }

  lemma DataArrives(c: Channel, m: Envelope) returns (actions: seq<Action>, d: Channel)
    requires Sound(c) && c.right.status.Running? && m in c.left.sent && m.Data?
    ensures Sound(d) && Follows(c, actions, d) && OnlyArrivals(actions)
    ensures d.right == OnData(c.right, m.sequence, m.payload) && d.left == c.left
  {
    hide Sound, Follows, OnlyArrivals, OnData;
    actions, d := Receive(c, Right, m, 0.0);
  }

  /** What was read at the left arrives at the right, in order. */
  lemma {:induction false} ArriveInOrder(c: Channel, n: nat) returns (actions: seq<Action>, d: Channel)
    requires Sound(c) && c.right.status.Running? && c.right.inbound == Inbound(0, map[]) && n <= |c.left.read|
    ensures Sound(d) && Follows(c, actions, d) && d.left == c.left
    ensures d.right.status.Running? && d.right.inbound == Inbound(n, map[])
    ensures n > 0 ==> Ack(n, []) in d.right.sent
  {
    NoStep(c);
    hide Sound, Follows;
    actions, d := [], c;
    if n > 0 {
      var first, b := ArriveInOrder(c, n - 1);
      hide Linked, OnData, OnlyArrivals;
      var m := PacketOf(b, n - 1);
      NextArrives(b.left, b.right, m);
      var last;
      last, d := DataArrives(b, m);
      assert d.right.sent[|b.right.sent|] == Ack(n, []);
      FollowsOn(c, first, b, last, d);
      actions := first + last;
    }
  }

  /** The packets after a missing pair arrive, up to `q`. */
  lemma {:induction false} ArriveAhead(c: Channel, k: nat, p: int, q: int) returns (actions: seq<Action>, d: Channel)
    requires Sound(c) && Holds(c.right, k, p) && k + 1 <= p < q < |c.left.read| && q <= k + MAX_REORDER_BUFFER
    ensures Sound(d) && Follows(c, actions, d) && OnlyArrivals(actions) && d.left == c.left && Holds(d.right, k, q)
    ensures q <= U64_MAX && Ack(k, [Range(k + 2, q)]) in d.right.sent
    decreases q - p
  {
    NoStep(c);
    hide Sound, Follows, Holds;
    var first, b := [], c;
    if p < q - 1 {
      first, b := ArriveAhead(c, k, p, q - 1);
    }
    HoldsMeans(b.right, k, q - 1);
    hide Linked, OnData, OnlyArrivals;
    var m := PacketOf(b, q);
    LaterArrives(b.left, b.right, m, k);
    var last;
    last, d := DataArrives(b, m);
    assert d.right.sent[|b.right.sent|] == Ack(k, [Range(k + 2, q)]);
    FollowsOn(c, first, b, last, d);
    actions := first + last;
  }

  // ---- acknowledgements at the left end

  /** Four packets are acknowledged in full: the window doubles, and nothing is counted. */
  lemma FullAck(e: Endpoint, f: Endpoint)
    requires e.send == SendState([], {}, INITIAL_WINDOW, INITIAL_RTO, NO_ESTIMATE, NO_ACKS)
    requires Filled(e, 4, f) && e.nextOutbound == 0 && !e.readClosed
    ensures var n := OnAck(f, 4, [], 0.0);
      && n.send.pending == [] && n.send.sacked == {} && n.send.window == Window(8.0, MAX_WINDOW_SIZE, None)
      && n.send.tracker == Tracker(Some(4), 0, None)
      && n.status == f.status && n.close == f.close && n.readClosed == f.readClosed
      && n.nextOutbound == f.nextOutbound && n.read == f.read
  {
    EmptyCover([]);
    KeepBelow(f.send.pending, 4, {});
    assert SackedAfter({}, 4, []) == {};
    hide Keep, RttSample, Sampled, Cover, Avoid;
  }

  lemma {:induction false} KeepBelow(q: seq<Pending>, next: int, sacked: set<int>)
    requires forall i :: 0 <= i < |q| ==> q[i].sequence < next
    ensures Keep(q, next, sacked) == []
  {
    if q != [] {
      KeepBelow(q[1..], next, sacked);
    }
  }

  /** An acknowledgement that asks for packet `i` of what it leaves queued: the packet is sent again. */
  ghost predicate AskedFor(e: Endpoint, send: SendState, i: nat, n: Endpoint) {
    && i < |send.pending|
    && (exists p :: n.send == send.(pending := send.pending[i := p])
          && p.sequence == send.pending[i].sequence && p.attempts == send.pending[i].attempts + 1)
    && n.status == e.status && n.read == e.read
  }

  lemma AckAsksFor(e: Endpoint, ranges: seq<Range>, i: nat)
    requires
      var (send, resend) := AfterAck(e.send, 4, ranges, 0.0);
      && i < |send.pending| && resend == Some(send.pending[i].sequence) && send.pending[i].attempts < MAX_ATTEMPTS
      && forall j :: 0 <= j < i ==> send.pending[j].sequence != send.pending[i].sequence
    requires e.status.Running?
    ensures AskedFor(e, AfterAck(e.send, 4, ranges, 0.0).0, i, OnAck(e, 4, ranges, 0.0))
  {
    var (send, resend) := AfterAck(e.send, 4, ranges, 0.0);
    hide AfterAck;
    FoundAt(send.pending, i);
    var p := send.pending[i];
    assert OnAck(e, 4, ranges, 0.0).send
        == send.(pending := send.pending[i := p.(attempts := p.attempts + 1, lastSentAt := 0.0)]);
  }

  lemma {:induction false} FoundAt(q: seq<Pending>, i: nat)
    requires i < |q| && forall j :: 0 <= j < i ==> q[j].sequence != q[i].sequence
    ensures IndexOf(q, q[i].sequence) == i
  {
    if i > 0 {
      FoundAt(q[1..], i - 1);
    }
  }

  /** Packets 4 to 11 are in flight and were sent once each. */
  ghost predicate InFlight(e: Endpoint) {
    && EightInFlight(e.send) && e.status.Running? && |e.read| == 12
    && forall i :: 0 <= i < 8 ==> e.send.pending[i].attempts == 1
  }

  /** In recovery with mark 12: packets 4 and 5 missing, 6 to 8 reported. */
  ghost predicate Entered(e: Endpoint) {
    && |e.send.pending| == 5 && e.send.pending[0].sequence == 4 && e.send.pending[1].sequence == 5
    && (forall i :: 2 <= i < 5 ==> e.send.pending[i].sequence == 7 + i)
    && e.send.pending[0].attempts == 2 && e.send.pending[1].attempts == 1
    && e.send.sacked == Span(6, 8) && e.send.window == Window(5.5, 2.5, Some(12))
    && e.send.tracker == Tracker(Some(4), 3, Some(4)) && e.status.Running? && |e.read| == 12
  }

  /** The same with 9 to 11 reported as well. */
  ghost predicate AllReported(e: Endpoint) {
    && |e.send.pending| == 2 && e.send.pending[0].sequence == 4 && e.send.pending[1].sequence == 5
    && e.send.pending[0].attempts == 3 && e.send.pending[1].attempts == 1
    && e.send.sacked == Span(6, 11) && e.send.window == Window(4.5, 2.5, Some(12))
    && e.send.tracker == Tracker(Some(4), 6, Some(4)) && e.status.Running? && |e.read| == 12
  }

  lemma FirstAck(e: Endpoint)
    requires InFlight(e)
    ensures Entered(OnAck(e, 4, [Range(6, 8)], 0.0))
  {
    FirstReport(e.send, 0.0);
    hide AfterAck, Span;
    FiveRemain(e.send.pending);
    AckAsksFor(e, [Range(6, 8)], 0);
    hide OnAck;
  }

  lemma FiveRemain(p: seq<Pending>)
    requires |p| == 8 && forall i :: 0 <= i < 8 ==> p[i].sequence == 4 + i && p[i].attempts == 1
    ensures
      var q := p[..2] + p[5..];
      && |q| == 5 && q[0].sequence == 4 && q[1].sequence == 5 && q[0].attempts == q[1].attempts == 1
      && forall i :: 2 <= i < 5 ==> q[i].sequence == 7 + i
  {
    assert forall i :: 2 <= i < 5 ==> (p[..2] + p[5..])[i] == p[i + 3];
  }

  lemma SecondAck(e: Endpoint)
    requires Entered(e)
    ensures AllReported(OnAck(e, 4, [Range(6, 11)], 0.0))
  {
    SecondReport(e.send, 0.0);
    hide AfterAck;
    AckAsksFor(e, [Range(6, 11)], 0);
    hide OnAck, Span;
  }

  lemma ThirdAck(e: Endpoint)
    requires AllReported(e)
    ensures OnAck(e, 4, [Range(6, 11)], 0.0).send.window == Window(5.0, 2.0, Some(6))
  {
    ThirdReport(e.send, 0.0);
    hide AfterAck, Fires;
    var send := AfterAck(e.send, 4, [Range(6, 11)], 0.0).0;
    WindowIsKept(e, [Range(6, 11)]);
    hide OnAck;
  }

  lemma WindowIsKept(e: Endpoint, ranges: seq<Range>)
    ensures OnAck(e, 4, ranges, 0.0).send.window == AfterAck(e.send, 4, ranges, 0.0).0.window
  {
    AckStepWindow(e, 4, ranges, 0.0);
  }

  // ---- the run

  /** Four chunks are read, delivered and acknowledged, which opens the window to eight; eight more are read. */
  lemma EightAreInFlight(chunk: Bytes, secret: Bytes, id: Bytes) returns (actions: seq<Action>, d: Channel)
    requires 0 < |chunk| <= MAX_PLAINTEXT
    ensures Sound(d) && Follows(Opened(secret, id), actions, d)
    ensures InFlight(d.left) && Holds(d.right, 4, 5)
  {
    var c := Opened(secret, id);
    OpenedIsSound(secret, id);
    assert SendWindowSize(INITIAL_WINDOW) == 4 && SendWindowSize(Window(8.0, MAX_WINDOW_SIZE, None)) == 8;
    hide Sound, Follows, OnAck, Filled;
    var first, c1 := ReadMany(c, chunk, 4);
    FilledMeans(c.left, 4, c1.left);
    var second, c2 := ArriveInOrder(c1, 4);
    FullAck(c.left, c2.left);
    var third, c3 := Receive(c2, Left, Ack(4, []), 0.0);
    var fourth;
    fourth, d := ReadMany(c3, chunk, 8);
    FilledAgain(c3.left, d.left);
    FollowsOn(c, first, c1, second, c2);
    FollowsOn(c, first + second, c2, third, c3);
    FollowsOn(c, first + second + third, c3, fourth, d);
    actions := first + second + third + fourth;
  }

  lemma OpenedIsSound(secret: Bytes, id: Bytes)
    ensures Sound(Opened(secret, id))
  {
    OpenedIsPaired(secret, id);
  }

  lemma FilledMeans(e: Endpoint, n: nat, f: Endpoint)
    requires Filled(e, n, f)
    ensures |f.read| == |e.read| + n && f.nextOutbound == e.nextOutbound + n
    ensures f.status == e.status && f.readClosed == e.readClosed && f.close == e.close
  {
  }

  lemma FilledAgain(e: Endpoint, f: Endpoint)
    requires Filled(e, 8, f) && e.nextOutbound == 4 == |e.read| && e.status.Running?
    requires e.send.sacked == {} && e.send.window.recovery.None? && e.send.tracker == Tracker(Some(4), 0, None)
    ensures InFlight(f)
  {
  }

  /**
     The run goes on: 6 to 8 arrive and are reported, which starts a recovery with mark 12 and threshold
     2.5; 9 to 11 arrive and are reported twice. Messages arrive, and that is all; the mark has moved to
     6 and the threshold to 2.
   */
  lemma MarkMovesInARun(chunk: Bytes, secret: Bytes, id: Bytes) returns (c: Channel, actions: seq<Action>, d: Channel)
    requires 0 < |chunk| <= MAX_PLAINTEXT
    ensures Reachable(c) && c.left.send.window == Window(5.5, 2.5, Some(12))
    ensures Follows(c, actions, d) && OnlyArrivals(actions)
    ensures Reachable(d) && d.left.send.window == Window(5.0, 2.0, Some(6))
  {
    var start, c0 := EightAreInFlight(chunk, secret, id);
    OpenedIsReachable(secret, id);
    hide Sound, Follows, Reachable, Holds, OnlyArrivals, InFlight;
    StaysReachable(Opened(secret, id), start, c0);
    var first;
    first, c := RecoveryStarts(c0);
    StaysReachable(c0, first, c);
    hide Entered;
    actions, d := RecoveryRestarts(c);
    StaysReachable(c, actions, d);
  }

  /** An acknowledgement of packet 4 arrives at the left end. */
  lemma AckArrives(c: Channel, ranges: seq<Range>) returns (actions: seq<Action>, d: Channel)
    requires Sound(c) && c.left.status.Running? && Ack(4, ranges) in c.right.sent
    ensures Sound(d) && Follows(c, actions, d) && OnlyArrivals(actions)
    ensures d.left == OnAck(c.left, 4, ranges, 0.0) && d.right == c.right
  {
    hide Sound, Follows, OnlyArrivals, OnAck;
    actions, d := Receive(c, Left, Ack(4, ranges), 0.0);
  }

  lemma RecoveryStarts(c: Channel) returns (actions: seq<Action>, d: Channel)
    requires Sound(c) && InFlight(c.left) && Holds(c.right, 4, 5)
    ensures Sound(d) && Follows(c, actions, d) && Entered(d.left) && Holds(d.right, 4, 8)
  {
    assert c.left.status.Running? && |c.left.read| == 12;
    FirstAck(c.left);
    hide Sound, Follows, OnAck, Holds, InFlight, Entered;
    var first, b := ArriveAhead(c, 4, 5, 8);
    var second;
    second, d := AckArrives(b, [Range(6, 8)]);
    FollowsOn(c, first, b, second, d);
    actions := first + second;
  }

  lemma StillRunning(e: Endpoint)
    requires AllReported(e)
    ensures e.status.Running?
  {
  }

  lemma RecoveryRestarts(c: Channel) returns (actions: seq<Action>, d: Channel)
    requires Sound(c) && Entered(c.left) && Holds(c.right, 4, 8)
    ensures Follows(c, actions, d) && OnlyArrivals(actions) && d.left.send.window == Window(5.0, 2.0, Some(6))
  {
    assert c.left.status.Running? && |c.left.read| == 12;
    SecondAck(c.left);
    StillRunning(OnAck(c.left, 4, [Range(6, 11)], 0.0));
    hide Sound, Follows, OnAck, Holds, Entered, AllReported, OnlyArrivals;
    var first, b := ArriveAhead(c, 4, 8, 11);
    var second, b2 := AckArrives(b, [Range(6, 11)]);
    ThirdAck(b2.left);
    var third;
    third, d := AckArrives(b2, [Range(6, 11)]);
    FollowsOn(c, first, b, second, b2);
    FollowsOn(c, first + second, b2, third, d);
    actions := first + second + third;
  }

  lemma OpenedIsReachable(secret: Bytes, id: Bytes)
    ensures Reachable(Opened(secret, id))
  {
    var states, actions: seq<Action> := [Opened(secret, id)], [];
    assert Run(states, actions, secret, id) && Opened(secret, id) == states[|actions|];
  }
}
