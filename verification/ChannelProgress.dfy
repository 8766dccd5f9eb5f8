/** A channel is never stuck: from every reachable state an orderly finish without loss is possible. */
module ChannelProgress {
  import opened Common
  import opened Ranges
  import opened SecureChannel
  import opened Reorder
  import opened LossRecovery
  import opened AckHandling
  import opened AckProperties
  import opened Endpoint
  import opened Channel
  import opened ChannelInvariant
  import opened ChannelSteps
  import opened ChannelReceipts
  import opened ChannelTheorems

  // ---- the close handshake is never forgotten

  /** A stream that has ended and has nothing outstanding has sent its close. */
  ghost predicate CloseStarted(e: Endpoint) {
    && (e.readClosed && e.send.pending == [] && e.status.Running? ==> e.close.Some?)
    && (e.close.Some? ==> CloseSends(e.sent) > 0)
  }

  lemma StartCloseStarts(e: Endpoint, now: Millis)
    requires e.close.Some? ==> CloseSends(e.sent) > 0
    ensures CloseStarted(MaybeStartClose(e, now))
  {
    CountsSnoc(e.sent, Close(e.nextOutbound));
  }

  lemma ResendKeepsCloses(e: Endpoint, i: nat, now: Millis)
    requires i < |e.send.pending|
    ensures var n := Resend(e, i, now);
      && n.close == e.close && n.readClosed == e.readClosed && |n.send.pending| == |e.send.pending|
      && CloseSends(n.sent) == CloseSends(e.sent)
  {
    var p := e.send.pending[i];
    CountsSnoc(e.sent, Data(p.sequence, p.payload));
  }

  lemma ResendCloseKeepsCloses(e: Endpoint, now: Millis)
    requires e.close.Some?
    ensures var n := ResendClose(e, now);
      n.close.Some? && n.send == e.send && CloseSends(n.sent) >= CloseSends(e.sent)
  {
    CountsSnoc(e.sent, Close(e.close.value.finalSequence));
  }

  lemma TickKeepsCloseStarted(e: Endpoint, now: Millis)
    requires CloseStarted(e) && e.status.Running?
    ensures CloseStarted(OnTick(e, now))
  {
    var i := TimedOutIndex(e.send.pending, now, e.send.rto);
    var resent := e;
    if i < |e.send.pending| {
      ResendKeepsCloses(e, i, now);
      resent := Resend(e, i, now);
    }
    if e.close.Some? {
      ResendCloseKeepsCloses(resent, now);
    }
    hide Resend, ResendClose, CloseSends, TimedOutIndex;
  }

  lemma AckKeepsCloseStarted(e: Endpoint, next: u64, ranges: seq<Range>, now: Millis)
    requires CloseStarted(e)
    ensures CloseStarted(OnAck(e, next, ranges, now))
  {
    var (send, resend) := AfterAck(e.send, next, ranges, now);
    hide AfterAck;
    var acked := e.(send := send, highestAck := Max(e.highestAck, next));
    if resend.Some? && IndexOf(send.pending, resend.value) < |send.pending| {
      ResendKeepsCloses(acked, IndexOf(send.pending, resend.value), now);
    }
    hide Resend, CloseSends;
    StartCloseStarts(AckedAndResent(e, next, ranges, now), now);
  }

  lemma StepKeepsCloseStarted(e: Endpoint, ev: Event)
    requires CloseStarted(e) && Enabled(e, ev)
    ensures CloseStarted(Step(e, ev))
  {
    match ev
    case ReadEvent(chunk, now) =>
      hide SealAt;
      if e.nextOutbound < U64_MAX {
        CountsSnoc(e.sent, OnRead(e, chunk, now).sent[|e.sent|]);
      }
    case EofEvent(now) => StartCloseStarts(e.(readClosed := true), now);
    case TickEvent(now) => TickKeepsCloseStarted(e, now);
    case AbortEvent =>
    case ReceiveEvent(m, now) =>
      match m {
        case Ack(next, ranges) => AckKeepsCloseStarted(e, next, ranges, now);
        case Data(sequence, payload) =>
          hide Queued, OpenAll, SackRanges;
          CountsSnoc(e.sent, Report(Queued(e.inbound, sequence, payload).0));
        case Close(finalSequence) =>
          hide SackRanges;
          CountsSnoc(e.sent, Report(e.inbound));
          CountsSnoc(e.sent, CloseAck(finalSequence));
        case CloseAck(_) =>
      }
  }

  // ---- continuing a channel

  ghost predicate Sound(c: Channel) {
    Paired(c.left, c.right) && CloseStarted(c.left) && CloseStarted(c.right)
  }

  ghost predicate BothRunning(c: Channel) { c.left.status.Running? && c.right.status.Running? }

  /** `d` comes out of `c` by these actions. */
  ghost predicate Follows(c: Channel, actions: seq<Action>, d: Channel)
    decreases |actions|
  {
    if actions == [] then d == c
    else
      && MayHappen(c, actions[0].side, actions[0].event)
      && Follows(Apply(c, actions[0].side, actions[0].event), actions[1..], d)
  }

  lemma {:induction false} FollowsOn(c: Channel, first: seq<Action>, d: Channel, rest: seq<Action>, e: Channel)
    requires Follows(c, first, d) && Follows(d, rest, e)
    ensures Follows(c, first + rest, e)
    ensures OnlyArrivals(first) && OnlyArrivals(rest) ==> OnlyArrivals(first + rest)
    decreases |first|
  {
    if first == [] {
      assert first + rest == rest;
    } else {
      assert (first + rest)[1..] == first[1..] + rest;
      FollowsOn(Apply(c, first[0].side, first[0].event), first[1..], d, rest, e);
    }
  }

  /** Messages arrive and local streams end; nothing is read and no timer fires. */
  ghost predicate OnlyArrivals(actions: seq<Action>) {
    forall i :: 0 <= i < |actions| ==> actions[i].event.ReceiveEvent? || actions[i].event.EofEvent?
  }

  lemma NoStep(c: Channel)
    ensures Follows(c, [], c) && OnlyArrivals([])
  {
  }

  lemma OneStep(c: Channel, side: Side, ev: Event) returns (d: Channel)
    requires Sound(c) && MayHappen(c, side, ev)
    ensures Sound(d) && Follows(c, [Action(side, ev)], d)
    ensures At(d, side) == Step(At(c, side), ev) && At(d, Other(side)) == At(c, Other(side))
  {
    d := Apply(c, side, ev);
    hide Paired, CloseStarted;
    Swap(c.left, c.right);
    StepKeepsPaired(At(c, side), At(c, Other(side)), ev);
    Swap(d.left, d.right);
    StepKeepsCloseStarted(At(c, side), ev);
    hide Enabled, Step;
    var action := Action(side, ev);
    assert [action][1..] == [];
    assert Follows(d, [], d);
  }

  /** Any message the other end has sent may arrive at a running end. */
  lemma Receive(c: Channel, side: Side, m: Envelope, now: Millis) returns (actions: seq<Action>, d: Channel)
    requires Sound(c) && At(c, side).status.Running? && m in At(c, Other(side)).sent
    ensures Sound(d) && Follows(c, actions, d) && OnlyArrivals(actions)
    ensures At(d, side) == OnMessage(At(c, side), m, now) && At(d, Other(side)) == At(c, Other(side))
  {
    hide Sound, Follows, OnMessage;
    var ev := ReceiveEvent(m, now);
    d := OneStep(c, side, ev);
    actions := [Action(side, ev)];
  }

  lemma {:induction false} RunIsSound(states: seq<Channel>, actions: seq<Action>, secret: Bytes, id: Bytes)
    requires Run(states, actions, secret, id)
    ensures Sound(states[|actions|])
  {
    if actions == [] {
      OpenedIsPaired(secret, id);
    } else {
      var n := |actions| - 1;
      RunIsSound(states[..n + 1], actions[..n], secret, id);
      hide Sound;
      var d := OneStep(states[n], actions[n].side, actions[n].event);
    }
  }

  // ---- delivering what was read

  lemma {:induction false} CountedDataWasSent(sent: seq<Envelope>, sequence: int) returns (m: Envelope)
    requires DataSends(sent, sequence) > 0
    ensures m in sent && m.Data? && m.sequence == sequence
  {
    m := sent[|sent| - 1];
    if !(m.Data? && m.sequence == sequence) {
      m := CountedDataWasSent(sent[..|sent| - 1], sequence);
    }
  }

  lemma {:induction false} CountedCloseWasSent(sent: seq<Envelope>) returns (m: Envelope)
    requires CloseSends(sent) > 0
    ensures m in sent && m.Close?
  {
    m := sent[|sent| - 1];
    if !m.Close? {
      m := CountedCloseWasSent(sent[..|sent| - 1]);
    }
  }

  /** Every chunk that was read is in some packet on the network. */
  lemma ReadChunkWasSent(s: Endpoint, sequence: int) returns (m: Envelope)
    requires SenderOk(s) && 0 <= sequence < |s.read|
    ensures m in s.sent && m.Data? && m.sequence == sequence && IsSealedChunk(s, sequence, m.payload)
  {
    m := CountedDataWasSent(s.sent, sequence);
  }

  /** What the arrival of a packet from `s` may change at `r`. */
  ghost predicate Answered(s: Endpoint, r: Endpoint, n: Endpoint, sequence: int) {
    && OnlyReceived(r, n)
    && r.inbound.expected <= n.inbound.expected
    && (sequence == r.inbound.expected ==> r.inbound.expected < n.inbound.expected)
    && 0 <= n.inbound.expected <= |s.read|
    && n.written == s.read[..n.inbound.expected]
    && exists m :: m in n.sent && m.Ack? && m.next == n.inbound.expected
  }

  ghost predicate OnlyReceived(r: Endpoint, n: Endpoint) {
    && n.status == r.status && n.send == r.send && n.read == r.read
  }

  lemma PacketIsAnswered(s: Endpoint, r: Endpoint, m: Envelope)
    requires Linked(s, r) && m in s.sent && m.Data?
    ensures Answered(s, r, OnData(r, m.sequence, m.payload), m.sequence)
  {
    assert IsSealedChunk(s, m.sequence, m.payload);
    DataKeepsReceiver(s, r, m.sequence, m.payload);
    var n := OnData(r, m.sequence, m.payload);
    hide OnData;
    assert m.sequence == r.inbound.expected ==> r.inbound.expected < n.inbound.expected;
    hide Queued;
    ReportContents(s, n);
    assert n.sent[|r.sent|] == Report(n.inbound);
  }

  lemma PairedLinks(c: Channel, side: Side)
    requires Sound(c)
    ensures Linked(At(c, side), At(c, Other(side)))
    ensures SenderOk(At(c, side)) && ReceiverOk(At(c, side), At(c, Other(side)))
    ensures CloseStarted(At(c, side))
  {
  }

  /** One more packet from `side` arrives, and is answered. */
  lemma ReceiveChunk(c: Channel, side: Side, sequence: int, now: Millis) returns (actions: seq<Action>, d: Channel)
    requires Sound(c) && BothRunning(c) && 0 <= sequence < |At(c, side).read|
    ensures Sound(d) && BothRunning(d) && Follows(c, actions, d) && OnlyArrivals(actions)
    ensures At(d, side) == At(c, side)
    ensures Answered(At(c, side), At(c, Other(side)), At(d, Other(side)), sequence)
  {
    PairedLinks(c, side);
    hide Sound, Linked, Follows, CloseStarted, OnData, ReceiverOk;
    var s, r := At(c, side), At(c, Other(side));
    var m := ReadChunkWasSent(s, sequence);
    hide SenderOk, Answered;
    hide OnlyArrivals;
    actions, d := Receive(c, Other(side), m, now);
    PacketIsAnswered(s, r, m);
    assert OnlyReceived(r, At(d, Other(side))) by { AnsweredMeans(s, r, At(d, Other(side)), sequence); }
  }

  lemma AnsweredMeans(s: Endpoint, r: Endpoint, n: Endpoint, sequence: int)
    requires Answered(s, r, n, sequence)
    ensures OnlyReceived(r, n)
  {
  }

  /** Everything read at `side` can be delivered from what has already been sent. */
  lemma {:induction false} Deliver(c: Channel, side: Side, now: Millis) returns (actions: seq<Action>, d: Channel)
    requires Sound(c) && BothRunning(c)
    ensures Sound(d) && BothRunning(d) && Follows(c, actions, d) && OnlyArrivals(actions)
    ensures At(d, side) == At(c, side) && OnlyReceived(At(c, Other(side)), At(d, Other(side)))
    ensures At(d, Other(side)).inbound.expected == |At(c, side).read|
    ensures At(d, Other(side)).written == At(c, side).read
    decreases |At(c, side).read| - At(c, Other(side)).inbound.expected
  {
    PairedLinks(c, side);
    NoStep(c);
    hide Sound, Linked, Follows, SenderOk, CloseStarted, OnlyArrivals;
    var expected := At(c, Other(side)).inbound.expected;
    actions, d := [], c;
    if expected < |At(c, side).read| {
      var first, b := ReceiveChunk(c, side, expected, now);
      BoundedByRead(b, side);
      var rest;
      rest, d := Deliver(b, side, now);
      FollowsOn(c, first, b, rest, d);
      actions := first + rest;
    }
  }

  lemma BoundedByRead(c: Channel, side: Side)
    requires Sound(c)
    ensures At(c, Other(side)).inbound.expected <= |At(c, side).read|
  {
    PairedLinks(c, side);
  }

  // ---- draining the queue

  /** An acknowledgement of the whole stream empties the queue and asks for nothing. */
  lemma FullAckEmptiesQueue(s: Endpoint, ranges: seq<Range>, now: Millis)
    requires SenderOk(s)
    ensures var n := OnAck(s, s.nextOutbound, ranges, now);
      n.send.pending == [] && n.status == s.status && n.read == s.read && n.written == s.written && n.inbound == s.inbound
  {
    var (send, resend) := AfterAck(s.send, s.nextOutbound, ranges, now);
    QueueIsFiltered(s.send, s.nextOutbound, ranges, now);
    EmptyOrInhabited(send.pending);
    ResendIsQueued(s.send, s.nextOutbound, ranges, now);
    hide AfterAck;
  }

  lemma EmptyOrInhabited(q: seq<Pending>)
    ensures q == [] || exists p :: p in q
  {
    if q != [] {
      assert q[0] in q;
    }
  }

  /** The queue at `side` can be emptied, by the packets and answers of the two ends alone. */
  lemma Drain(c: Channel, side: Side, now: Millis) returns (actions: seq<Action>, d: Channel)
    requires Sound(c) && BothRunning(c)
    ensures Sound(d) && BothRunning(d) && Follows(c, actions, d) && OnlyArrivals(actions)
    ensures At(d, side).read == At(c, side).read && At(d, side).written == At(c, side).written
    ensures OnlyReceived(At(c, Other(side)), At(d, Other(side)))
    ensures At(d, side).send.pending == [] && At(d, Other(side)).written == At(c, side).read
  {
    hide Sound, Follows, OnlyArrivals, OnData, OnClose, OnAck;
    actions, d := Deliver(c, side, now);
    if At(d, side).send.pending != [] {
      var b, first := d, actions;
      QueuedWasRead(b, side);
      var again, e := ReceiveChunk(b, side, 0, now);
      BoundedByRead(e, side);
      FollowsOn(c, first, b, again, e);
      var m :| m in At(e, Other(side)).sent && m.Ack? && m.next == At(e, Other(side)).inbound.expected;
      SoundSender(e, side);
      hide SenderOk;
      FullAckEmptiesQueue(At(e, side), m.ranges, now);
      var last;
      last, d := Receive(e, side, m, now);
      FollowsOn(c, first + again, e, last, d);
      actions := first + again + last;
    }
  }

  lemma SoundSender(c: Channel, side: Side)
    requires Sound(c)
    ensures SenderOk(At(c, side)) && At(c, side).nextOutbound == |At(c, side).read|
  {
  }

  lemma QueuedWasRead(c: Channel, side: Side)
    requires Sound(c) && At(c, side).send.pending != []
    ensures |At(c, side).read| > 0
  {
    PairedLinks(c, side);
    assert At(c, side).send.pending[0] in At(c, side).send.pending;
  }

  // ---- finishing

  /** With an empty queue the local stream may end, and then its close has been sent. */
  lemma Finished(c: Channel, side: Side, now: Millis) returns (actions: seq<Action>, d: Channel)
    requires Sound(c) && BothRunning(c) && At(c, side).send.pending == []
    ensures Sound(d) && BothRunning(d) && Follows(c, actions, d) && OnlyArrivals(actions)
    ensures At(d, side).close.Some? && At(d, Other(side)) == At(c, Other(side))
    ensures At(d, side).read == At(c, side).read && At(d, side).written == At(c, side).written
  {
    NoStep(c);
    actions, d := [], c;
    if At(c, side).close.None? {
      PairedLinks(c, side);
      var ev := EofEvent(now);
      hide Sound, Follows, SenderOk, Linked, ReceiverOk;
      d := OneStep(c, side, ev);
      actions := [Action(side, ev)];
    }
  }

  lemma SentCloseIsDue(s: Endpoint, r: Endpoint) returns (m: Envelope)
    requires Linked(s, r) && CloseStarted(s) && s.close.Some?
    ensures m in s.sent && m.Close?
    ensures m.finalSequence == s.close.value.finalSequence <= r.inbound.expected
  {
    m := CountedCloseWasSent(s.sent);
    assert m.finalSequence in Closes(s.sent);
  }

  /** A close that was sent may arrive, and so may the answer to it. */
  lemma Shut(c: Channel, side: Side, now: Millis) returns (actions: seq<Action>, d: Channel)
    requires Sound(c) && BothRunning(c) && At(c, side).close.Some?
    ensures Sound(d) && Follows(c, actions, d) && OnlyArrivals(actions)
    ensures At(d, side) == At(c, side).(status := LeftByCloseAck)
    ensures var r, n := At(c, Other(side)), At(d, Other(side));
      n.status.LeftByPeerClose? && n.read == r.read && n.written == r.written
  {
    PairedLinks(c, side);
    hide Sound, Linked, Follows, OnlyArrivals, SenderOk, ReceiverOk, CloseStarted, OnMessage;
    var s, r := At(c, side), At(c, Other(side));
    var close := SentCloseIsDue(s, r);
    CloseEndsBoth(s, r, close.finalSequence, now);
    var first, b := Receive(c, Other(side), close, now);
    assert At(b, Other(side)).sent[|r.sent|] == CloseAck(close.finalSequence);
    var last;
    last, d := Receive(b, side, CloseAck(close.finalSequence), now);
    FollowsOn(c, first, b, last, d);
    actions := first + last;
  }

  lemma CloseEndsBoth(s: Endpoint, r: Endpoint, finalSequence: u64, now: Millis)
    requires s.close.Some? && s.close.value.finalSequence == finalSequence <= r.inbound.expected
    ensures var n := OnMessage(r, Close(finalSequence), now);
      && n.status.LeftByPeerClose? && n.read == r.read && n.written == r.written
      && n.sent == r.sent + [CloseAck(finalSequence)]
    ensures OnMessage(s, CloseAck(finalSequence), now) == s.(status := LeftByCloseAck)
  {
    hide Report;
  }

  /**
     From every reachable channel whose two ends still run there is a way on, by arrivals alone, after
     which each end has written all the other read and both have left in an orderly way. It may use
     messages sent long ago; `ChannelRevival` is about a network that has lost them.
   */
  lemma OrderlyFinishIsPossible(c: Channel, side: Side, now: Millis) returns (actions: seq<Action>, d: Channel)
    requires Reachable(c) && BothRunning(c)
    ensures Reachable(d) && Follows(c, actions, d) && OnlyArrivals(actions)
    ensures At(d, side).status.LeftByCloseAck? && At(d, Other(side)).status.LeftByPeerClose?
    ensures d.left.read == c.left.read && d.right.read == c.right.read
    ensures d.left.written == c.right.read && d.right.written == c.left.read
  {
    ReachableIsSound(c);
    hide Sound, Follows, OnlyArrivals, Reachable;
    var first, b1 := Drain(c, side, now);
    var second, b2 := Drain(b1, Other(side), now);
    FollowsOn(c, first, b1, second, b2);
    var third, b3 := Finished(b2, side, now);
    FollowsOn(c, first + second, b2, third, b3);
    var fourth;
    fourth, d := Shut(b3, side, now);
    FollowsOn(c, first + second + third, b3, fourth, d);
    actions := first + second + third + fourth;
    StaysReachable(c, actions, d);
  }

  lemma ReachableIsSound(c: Channel)
    requires Reachable(c)
    ensures Sound(c)
  {
    var states, actions, secret, id :| Run(states, actions, secret, id) && c == states[|actions|];
    RunIsSound(states, actions, secret, id);
  }

  lemma {:induction false} StaysReachable(c: Channel, actions: seq<Action>, d: Channel)
    requires Reachable(c) && Follows(c, actions, d)
    ensures Reachable(d)
    decreases |actions|
  {
    if actions != [] {
      var states, done, secret, id :| Run(states, done, secret, id) && c == states[|done|];
      hide Enabled, Step;
      var next := Apply(c, actions[0].side, actions[0].event);
      assert Run(states + [next], done + [actions[0]], secret, id);
      assert (states + [next])[|done + [actions[0]]|] == next;
      StaysReachable(next, actions[1..], d);
    }
  }
}
