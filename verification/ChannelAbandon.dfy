/** What an orderly exit does not promise: the leaving endpoint's own unacknowledged data. */
module ChannelAbandon {
  import opened Congestion
  import opened SecureChannel
  import opened Reorder
  import opened LossRecovery
  import opened AckHandling
  import opened Endpoint
  import opened Channel
  import opened ChannelInvariant
  import opened ChannelTheorems

  /**
     What an endpoint abandons when it leaves: it loses nothing exactly when every packet it still has
     queued has already been written by the peer.
   */
  lemma AbandonsNothingIfWritten(c: Channel, side: Side)
    requires Reachable(c)
    ensures
      var s, r := At(c, side), At(c, Other(side));
      r.written == s.read <==> forall p :: p in s.send.pending ==> p.sequence < |r.written|
  {
    ReachableIsLinked(c, side);
    NothingIsLost(c, side);
    DeliveredIsPrefixOfRead(c, side);
    var s, r := At(c, side), At(c, Other(side));
    assert forall p :: p in s.send.pending ==> IsSealedChunk(s, p.sequence, p.payload);
    if |r.written| < |s.read| {
      var p :| p in s.send.pending && p.sequence == |r.written|;
    }
  }

  /** In particular with an empty queue. */
  lemma EmptyQueueAbandonsNothing(c: Channel, side: Side)
    requires Reachable(c)
    requires At(c, side).send.pending == []
    ensures At(c, Other(side)).written == At(c, side).read
  {
    AbandonsNothingIfWritten(c, side);
  }

  /** The left end reads a chunk that never arrives, and then the right end closes first. */
  ghost function AbandoningActions(chunk: Bytes): seq<Action> {
    [Action(Left, ReadEvent(chunk, 0.0)),
     Action(Right, EofEvent(0.0)),
     Action(Left, ReceiveEvent(Close(0), 0.0)),
     Action(Right, ReceiveEvent(CloseAck(0), 0.0))]
  }

  /** Both ends leave in an orderly way although a chunk that was read is never written. */
  lemma PeerCloseAbandonsOwnData(chunk: Bytes, secret: Bytes, id: Bytes) returns (c: Channel)
    requires 0 < |chunk| <= MAX_PLAINTEXT
    ensures Reachable(c)
    ensures c.left.status.LeftByPeerClose? && c.right.status.LeftByCloseAck?
    ensures c.left.read == [chunk] && c.right.written == []
  {
    hide AfterAck, Queued, OpenAll, SackRanges, SealAt, TimedOutIndex, Resend, ResendClose, IndexOf, BuildNonce;
    var actions := AbandoningActions(chunk);
    var c0 := Opened(secret, id);
    var c1 := c0.(left := OnRead(c0.left, chunk, 0.0));
    var c2 := c1.(right := OnEof(c1.right, 0.0));
    var c3 := c2.(left := OnClose(c2.left, 0));
    c := c3.(right := OnCloseAck(c3.right, 0));
    assert c2.right.sent == [Close(0)];
    assert c3.left.sent[1] == CloseAck(0);
    assert SendWindowSize(INITIAL_WINDOW) == 4;
    var states := [c0, c1, c2, c3, c];
    assert Run(states, actions, secret, id);
    assert c == states[|actions|];
  }

  /** The chunk arrives and is written, but its acknowledgement is lost. */
  ghost function LostAckActions(chunk: Bytes, packet: Envelope): seq<Action> {
    [Action(Left, ReadEvent(chunk, 0.0)),
     Action(Right, ReceiveEvent(packet, 0.0)),
     Action(Right, EofEvent(0.0)),
     Action(Left, ReceiveEvent(Close(0), 0.0))]
  }

  /** An end may leave with a packet still queued and yet lose nothing. */
  lemma QueuedIsNotAlwaysLost(chunk: Bytes, secret: Bytes, id: Bytes) returns (c: Channel)
    requires 0 < |chunk| <= MAX_PLAINTEXT
    ensures Reachable(c) && c.left.status.LeftByPeerClose?
    ensures c.left.send.pending != [] && c.right.written == c.left.read == [chunk]
  {
    hide AfterAck, Queued, OpenAll, SealAt, TimedOutIndex, Resend, ResendClose, IndexOf, BuildNonce;
    var c0 := Opened(secret, id);
    var c1 := c0.(left := OnRead(c0.left, chunk, 0.0));
    var packet := c1.left.sent[0];
    var c2 := c1.(right := OnData(c1.right, 0, packet.payload));
    FirstPacketIsWritten(chunk, secret, id);
    hide OnData;
    var c3 := c2.(right := OnEof(c2.right, 0.0));
    c := c3.(left := OnClose(c3.left, 0));
    assert c3.right.sent[1] == Close(0);
    assert SendWindowSize(INITIAL_WINDOW) == 4;
    var actions, states := LostAckActions(chunk, packet), [c0, c1, c2, c3, c];
    assert Run(states, actions, secret, id);
    assert c == states[|actions|];
  }

  lemma FirstPacketIsWritten(chunk: Bytes, secret: Bytes, id: Bytes)
    ensures
      var c := Opened(secret, id);
      var packet := SealAt(c.left.sendDirection, 0, chunk);
      var n := OnData(c.right, 0, packet);
      n == c.right.(inbound := n.inbound, openCounter := 1, written := [chunk], sent := n.sent) && |n.sent| == 1
  {
    PairsMatch(secret, id);
    var c := Opened(secret, id);
    var packet := SealAt(c.left.sendDirection, 0, chunk);
    var r := c.right;
    assert Queued(r.inbound, 0, packet).1 == [packet];
    hide Queued, SackRanges;
    OpensOnlyInStep(c.left.sendDirection, 0, 0, chunk);
    assert [packet][1..] == [];
    assert OpenAll(r.receiveDirection, 0, [packet]) == [chunk];
  }
}
