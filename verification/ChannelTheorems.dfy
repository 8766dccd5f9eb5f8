/** What every run of a direct channel guarantees. */
module ChannelTheorems {
  import opened Common
  import opened Ranges
  import opened Congestion
  import opened RetransmitTimer
  import opened SecureChannel
  import opened Reorder
  import opened LossRecovery
  import opened AckHandling
  import opened Endpoint
  import opened Channel
  import opened ChannelInvariant
  import opened ChannelSteps
  import opened ChannelReceipts

  ghost predicate Reachable(c: Channel) {
    exists states, actions, secret, id :: Run(states, actions, secret, id) && c == states[|actions|]
  }

  lemma OpenedIsPaired(sharedSecret: Bytes, channelId: Bytes)
    ensures var c := Opened(sharedSecret, channelId); Paired(c.left, c.right)
  {
    PairsMatch(sharedSecret, channelId);
  }

  lemma {:induction false} RunKeepsPaired(states: seq<Channel>, actions: seq<Action>, secret: Bytes, id: Bytes)
    requires Run(states, actions, secret, id)
    ensures var c := states[|actions|]; Paired(c.left, c.right)
  {
    hide Paired;
    if actions == [] {
      OpenedIsPaired(secret, id);
    } else {
      var n := |actions| - 1;
      RunKeepsPaired(states[..n + 1], actions[..n], secret, id);
      var c, side := states[n], actions[n].side;
      Swap(c.left, c.right);
      StepKeepsPaired(At(c, side), At(c, Other(side)), actions[n].event);
      Swap(states[n + 1].left, states[n + 1].right);
    }
  }

  /** Both directions of a reachable channel satisfy the invariant. */
  lemma ReachableIsLinked(c: Channel, side: Side)
    requires Reachable(c)
    ensures Linked(At(c, side), At(c, Other(side))) && Linked(At(c, Other(side)), At(c, side))
  {
    var states, actions, secret, id :| Run(states, actions, secret, id) && c == states[|actions|];
    RunKeepsPaired(states, actions, secret, id);
  }

  // ---- delivery

  /** What one end has written is a prefix of what the other has read: in order, once each, unaltered. */
  lemma DeliveredIsPrefixOfRead(c: Channel, side: Side)
    requires Reachable(c)
    ensures At(c, Other(side)).written <= At(c, side).read
  {
    ReachableIsLinked(c, side);
  }

  /** A chunk that has been read is still queued for resending, or the peer has it for good. */
  lemma NothingIsLost(c: Channel, side: Side)
    requires Reachable(c)
    ensures var s, r := At(c, side), At(c, Other(side));
      && (forall q :: 0 <= q < |s.read| ==>
           q in PendingSequences(s.send.pending) || q < |r.written| || q in r.inbound.buffered)
      && (|r.written| < |s.read| ==> |r.written| in PendingSequences(s.send.pending))
  {
    ReachableIsLinked(c, side);
    var s, r := At(c, side), At(c, Other(side));
    forall q | 0 <= q < |s.read|
      ensures q in PendingSequences(s.send.pending) || Received(r.inbound, q)
    {
      if s.highestAck <= q {
        assert q in PendingSequences(s.send.pending) || q in Reported(r.sent);
      }
    }
    assert !Received(r.inbound, r.inbound.expected);
  }

  /**
     The highest cumulative acknowledgement is the end of the stream or the front of the queue; so
     the queue is empty exactly when everything is acknowledged, and then no recovery is in force.
   */
  lemma HighestAckIsFront(c: Channel, side: Side)
    requires Reachable(c)
    ensures var s := At(c, side);
      && (s.highestAck == s.nextOutbound || Front(s.send.pending) == Some(s.highestAck))
      && (s.send.pending == [] <==> s.highestAck == s.nextOutbound)
      && (s.send.pending == [] ==> s.send.window.recovery.None?)
  {
    ReachableIsLinked(c, side);
    var s := At(c, side);
    if s.send.pending != [] {
      assert s.send.pending[0] in s.send.pending;
    }
  }

  // ---- closing

  /** Once a close has been sent, the peer has written the whole stream, and keeps to it. */
  lemma CloseMeansDelivered(c: Channel, side: Side)
    requires Reachable(c)
    ensures var s, r := At(c, side), At(c, Other(side));
      (s.close.Some? || Closes(s.sent) != {}) ==> r.written == s.read && s.readClosed
  {
    ReachableIsLinked(c, side);
    var s, r := At(c, side), At(c, Other(side));
    if Closes(s.sent) != {} {
      assert s.close.Some?;
    }
  }

  /** A close that arrives is never ahead of the receiver, so the receiver confirms it and leaves. */
  lemma CloseIsNeverEarly(c: Channel, side: Side, finalSequence: u64)
    requires Reachable(c)
    requires Close(finalSequence) in At(c, side).sent
    ensures var r := At(c, Other(side));
      && finalSequence <= r.inbound.expected
      && (r.status.Running? ==> OnClose(r, finalSequence).status == LeftByPeerClose)
  {
    ReachableIsLinked(c, side);
    var m := Close(finalSequence);
    assert m.Close? && m.finalSequence in Closes(At(c, side).sent);
  }

  /** Should a close come early all the same, it would be answered by the present report, and nothing else change. */
  lemma EarlyCloseIsAnswered(r: Endpoint, finalSequence: u64)
    requires r.inbound.expected < finalSequence
    ensures OnClose(r, finalSequence) == r.(sent := r.sent + [Report(r.inbound)])
  {
  }

  /** A confirmation that arrives is always for the close in flight, so the endpoint leaves. */
  lemma CloseAckIsNeverStray(c: Channel, side: Side, finalSequence: u64)
    requires Reachable(c)
    requires At(c, side).status.Running? && CloseAck(finalSequence) in At(c, Other(side)).sent
    ensures OnCloseAck(At(c, side), finalSequence).status == LeftByCloseAck
  {
    ReachableIsLinked(c, side);
    CloseAckKeepsPaired(At(c, side), At(c, Other(side)), finalSequence);
  }

  /** Leaving in either orderly way means one direction is complete; two closes mean both are. */
  lemma OrderlyExits(c: Channel, side: Side)
    requires Reachable(c)
    ensures var s, r := At(c, side), At(c, Other(side));
      && (s.status.LeftByCloseAck? ==> r.written == s.read)
      && (s.status.LeftByPeerClose? ==> s.written == r.read)
      && (s.close.Some? && r.close.Some? ==> r.written == s.read && s.written == r.read)
  {
    ReachableIsLinked(c, side);
  }

  // ---- encryption

  /** The counters stay in step with the stream, and every packet that arrives opens. */
  lemma DecryptionNeverFails(c: Channel, side: Side, sequence: u64, payload: Sealed)
    requires Reachable(c)
    requires At(c, Other(side)).status.Running? && Data(sequence, payload) in At(c, side).sent
    ensures var s, r := At(c, side), At(c, Other(side));
      && s.sealCounter == s.nextOutbound == |s.read|
      && r.openCounter == |r.written|
      && OnData(r, sequence, payload).status.Running?
  {
    ReachableIsLinked(c, side);
    var s, r := At(c, side), At(c, Other(side));
    var m := Data(sequence, payload);
    assert m.Data? && IsSealedChunk(s, m.sequence, m.payload);
    DataKeepsReceiver(s, r, sequence, payload);
  }

  /** A sequence is always sent as the same ciphertext. */
  lemma ResendsRepeatTheCiphertext(c: Channel, side: Side, m: Envelope, k: Envelope)
    requires Reachable(c)
    requires m in At(c, side).sent && k in At(c, side).sent && m.Data? && k.Data?
    ensures m.sequence == k.sequence <==> m.payload.nonce == k.payload.nonce
    ensures m.sequence == k.sequence ==> m.payload == k.payload
  {
    ReachableIsLinked(c, side);
    var s := At(c, side);
    assert IsSealedChunk(s, m.sequence, m.payload) && IsSealedChunk(s, k.sequence, k.payload);
    if m.payload.nonce == k.payload.nonce {
      BuildNonceInjective(s.sendDirection.noncePrefix, m.sequence, s.sendDirection.noncePrefix, k.sequence);
    }
  }

  lemma {:induction false} DirectionsNeverChange(states: seq<Channel>, actions: seq<Action>, secret: Bytes, id: Bytes)
    requires Run(states, actions, secret, id)
    ensures var c := states[|actions|];
      && c.left.sendDirection == SecureChannelPair(secret, id, Initiator).0
      && c.right.sendDirection == SecureChannelPair(secret, id, Responder).0
  {
    if actions != [] {
      var n := |actions| - 1;
      DirectionsNeverChange(states[..n + 1], actions[..n], secret, id);
      StepKeepsDirection(At(states[n], actions[n].side), actions[n].event);
    }
  }

  lemma StepKeepsDirection(e: Endpoint, ev: Event)
    requires Enabled(e, ev)
    ensures Step(e, ev).sendDirection == e.sendDirection
  {
    hide AfterAck;
    hide Queued;
  }

  /** No packet sent by one end carries the nonce of a packet sent by the other. */
  lemma NoNonceSharedBetweenEnds(c: Channel, m: Envelope, k: Envelope)
    requires Reachable(c)
    requires m in c.left.sent && k in c.right.sent && m.Data? && k.Data?
    ensures m.payload.nonce != k.payload.nonce
  {
    ReachableIsLinked(c, Left);
    var states, actions, secret, id :| Run(states, actions, secret, id) && c == states[|actions|];
    DirectionsNeverChange(states, actions, secret, id);
    PairsMatch(secret, id);
    assert IsSealedChunk(c.left, m.sequence, m.payload) && IsSealedChunk(c.right, k.sequence, k.payload);
    if m.payload.nonce == k.payload.nonce {
      BuildNonceInjective(c.left.sendDirection.noncePrefix, m.sequence, c.right.sendDirection.noncePrefix, k.sequence);
    }
  }

  // ---- bounds

  lemma {:induction false} PendingSequencesSize(q: seq<Pending>)
    ensures |PendingSequences(q)| <= |q|
  {
    if q == [] {
      assert PendingSequences(q) == {};
    } else {
      PendingSequencesSize(q[1..]);
      assert forall p :: p in q <==> p == q[0] || p in q[1..];
      assert PendingSequences(q) == PendingSequences(q[1..]) + {q[0].sequence};
    }
  }

  /** Queue, reorder buffer and the distance between the two ends are bounded. */
  lemma BuffersAreBounded(c: Channel, side: Side)
    requires Reachable(c)
    ensures var s, r := At(c, side), At(c, Other(side));
      && |s.send.pending| <= 32
      && InWindow(r.inbound) && |r.inbound.buffered| <= MAX_REORDER_BUFFER
      && r.inbound.expected <= s.nextOutbound <= r.inbound.expected + 96
      && forall q :: r.inbound.expected < q <= r.inbound.expected + MAX_REORDER_BUFFER && q !in r.inbound.buffered
           ==> |r.inbound.buffered| < MAX_REORDER_BUFFER
  {
    ReachableIsLinked(c, side);
    NothingIsLost(c, side);
    var s, r := At(c, side), At(c, Other(side));
    WindowBoundsSize(r.inbound);
    forall q | r.inbound.expected < q <= r.inbound.expected + MAX_REORDER_BUFFER && q !in r.inbound.buffered
      ensures |r.inbound.buffered| < MAX_REORDER_BUFFER
    {
      CapacityNeverRejects(r.inbound, q);
    }
    AtMostApart(s.send.pending, r.inbound.buffered.Keys, r.inbound.expected, s.nextOutbound);
  }

  /** Every number from `lo` up to `hi` is in one of the two, so they are no further apart than both hold. */
  lemma AtMostApart(pending: seq<Pending>, buffered: set<int>, lo: int, hi: int)
    requires lo <= hi && forall q :: lo <= q < hi ==> q in PendingSequences(pending) || q in buffered
    ensures hi - lo <= |pending| + |buffered|
  {
    var between, queued := Span(lo, hi - 1), PendingSequences(pending);
    SpanSize(lo, hi - 1);
    SubsetSize(between, queued + buffered);
    PendingSequencesSize(pending);
    UnionSize(queued, buffered);
  }

  lemma UnionSize(a: set<int>, b: set<int>)
    ensures |a + b| <= |a| + |b|
  {
    assert a + b == a + (b - a);
    SubsetSize(b - a, b);
  }

  /** Window and timer never leave their limits. */
  lemma WindowAndTimerAreBounded(c: Channel, side: Side)
    requires Reachable(c)
    ensures InBounds(At(c, side).send.window) && RtoInBounds(At(c, side).send.rto)
  {
    ReachableIsLinked(c, side);
  }

  // ---- retransmission

  ghost function SumSends(sent: seq<Envelope>, n: nat): nat {
    if n == 0 then 0 else SumSends(sent, n - 1) + DataSends(sent, n - 1)
  }

  lemma {:induction false} SumSendsSnoc(sent: seq<Envelope>, m: Envelope, n: nat)
    ensures SumSends(sent + [m], n) == SumSends(sent, n) + if m.Data? && m.sequence < n then 1 else 0
  {
    if n != 0 {
      SumSendsSnoc(sent, m, n - 1);
      CountsSnoc(sent, m);
    }
  }

  lemma {:induction false} TotalIsSum(sent: seq<Envelope>, n: nat)
    requires forall m :: m in sent && m.Data? ==> m.sequence < n
    ensures TotalDataSends(sent) == SumSends(sent, n)
  {
    if sent == [] {
      NoSends(n);
    } else {
      var front, m := sent[..|sent| - 1], sent[|sent| - 1];
      assert sent == front + [m];
      TotalIsSum(front, n);
      SumSendsSnoc(front, m, n);
    }
  }

  lemma {:induction false} NoSends(n: nat)
    ensures SumSends([], n) == 0
  {
    if n != 0 {
      NoSends(n - 1);
    }
  }

  lemma {:induction false} SumSendsBound(sent: seq<Envelope>, n: nat)
    requires forall q :: DataSends(sent, q) <= MAX_ATTEMPTS
    ensures SumSends(sent, n) <= MAX_ATTEMPTS * n
  {
    if n != 0 {
      SumSendsBound(sent, n - 1);
    }
  }

  /** No chunk and no close is sent more than twenty times, so all sends are bounded by the chunks read. */
  lemma SendsAreBounded(c: Channel, side: Side)
    requires Reachable(c)
    ensures var s := At(c, side);
      && (forall q :: DataSends(s.sent, q) <= MAX_ATTEMPTS)
      && CloseSends(s.sent) <= MAX_ATTEMPTS
      && TotalDataSends(s.sent) <= MAX_ATTEMPTS * |s.read|
  {
    ReachableIsLinked(c, side);
    var s := At(c, side);
    forall m | m in s.sent && m.Data?
      ensures m.sequence < |s.read|
    {
      assert IsSealedChunk(s, m.sequence, m.payload);
    }
    TotalIsSum(s.sent, |s.read|);
    SumSendsBound(s.sent, |s.read|);
  }
}
