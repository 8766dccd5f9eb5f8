/** What holds between a sender `s` and a receiver `r` in every reachable state of a channel. */
module ChannelInvariant {
  import opened Common
  import opened Ranges
  import opened Congestion
  import opened RetransmitTimer
  import opened SecureChannel
  import opened Reorder
  import opened LossRecovery
  import opened AckHandling
  import opened Endpoint
  import opened Channel

  // ---- what an endpoint has sent, by kind

  ghost function AckNumbers(sent: seq<Envelope>): set<int> { set m | m in sent && m.Ack? :: m.next }

  /** Every sequence some acknowledgement has reported selectively. */
  ghost function Reported(sent: seq<Envelope>): set<int> {
    set m, x | m in sent && m.Ack? && x in Cover(m.ranges) :: x
  }

  ghost function Closes(sent: seq<Envelope>): set<int> { set m | m in sent && m.Close? :: m.finalSequence }

  ghost function CloseAcks(sent: seq<Envelope>): set<int> { set m | m in sent && m.CloseAck? :: m.finalSequence }

  /** How often a sequence has been sent. */
  ghost function DataSends(sent: seq<Envelope>, sequence: int): nat {
    if sent == [] then 0
    else
      var m := sent[|sent| - 1];
      DataSends(sent[..|sent| - 1], sequence) + if m.Data? && m.sequence == sequence then 1 else 0
  }

  ghost function CloseSends(sent: seq<Envelope>): nat {
    if sent == [] then 0
    else CloseSends(sent[..|sent| - 1]) + if sent[|sent| - 1].Close? then 1 else 0
  }

  /** All data packets sent, counting repetitions. */
  ghost function TotalDataSends(sent: seq<Envelope>): nat {
    if sent == [] then 0
    else TotalDataSends(sent[..|sent| - 1]) + if sent[|sent| - 1].Data? then 1 else 0
  }

  // ---- the sending half

  ghost function PendingSequences(q: seq<Pending>): set<int> { set p | p in q :: p.sequence }

  /** The one ciphertext chunk `q` is ever sent as. */
  ghost function SealedChunk(s: Endpoint, q: int): Sealed
    requires 0 <= q < |s.read| && q <= U64_MAX
  {
    SealAt(s.sendDirection, q, s.read[q])
  }

  ghost predicate IsSealedChunk(s: Endpoint, q: int, payload: Sealed) {
    0 <= q < |s.read| && q <= U64_MAX && payload == SealedChunk(s, q)
  }

  ghost predicate CountersOk(s: Endpoint) {
    |s.read| == s.nextOutbound == s.sealCounter
  }

  ghost predicate QueueOk(s: Endpoint) {
    && Sorted(s.send.pending)
    && |s.send.pending| <= 32
    && forall p :: p in s.send.pending ==> IsSealedChunk(s, p.sequence, p.payload)
  }

  ghost predicate ControlOk(s: Endpoint) {
    && InBounds(s.send.window)
    && RtoInBounds(s.send.rto)
    && (s.send.window.recovery.Some? ==> s.send.pending != [] && s.send.window.recovery.value <= s.nextOutbound)
    && (s.close.Some? ==> s.close.value.finalSequence == s.nextOutbound && s.send.pending == [] && s.readClosed)
  }

  /** The highest cumulative acknowledgement is the front of the queue, or the queue is empty and it is the end. */
  ghost predicate HighestOk(s: Endpoint) {
    && 0 <= s.highestAck <= s.nextOutbound
    && (forall p :: p in s.send.pending ==> s.highestAck <= p.sequence)
    && (s.highestAck == s.nextOutbound || Front(s.send.pending) == Some(s.highestAck))
  }

  ghost predicate DataOk(s: Endpoint) {
    forall m :: m in s.sent && m.Data? ==> IsSealedChunk(s, m.sequence, m.payload)
  }

  ghost predicate AttemptsOk(s: Endpoint) {
    && (forall p :: p in s.send.pending ==> p.attempts == DataSends(s.sent, p.sequence))
    && (forall q :: if 0 <= q < s.nextOutbound then 1 <= DataSends(s.sent, q) <= MAX_ATTEMPTS
                    else DataSends(s.sent, q) == 0)
    && CloseSends(s.sent) == (if s.close.Some? then s.close.value.attempts else 0) <= MAX_ATTEMPTS
  }

  ghost predicate SenderOk(s: Endpoint) {
    CountersOk(s) && QueueOk(s) && ControlOk(s) && HighestOk(s) && DataOk(s) && AttemptsOk(s)
  }

  // ---- between the two halves

  ghost predicate Received(b: Inbound<Sealed>, q: int) { q < b.expected || q in b.buffered }

  ghost predicate ReceiverOk(s: Endpoint, r: Endpoint) {
    && r.receiveDirection == s.sendDirection
    && 0 <= r.inbound.expected <= |s.read|
    && r.openCounter == r.inbound.expected
    && r.written == s.read[..r.inbound.expected]
    && InWindow(r.inbound)
    && forall k :: k in r.inbound.buffered ==> IsSealedChunk(s, k, r.inbound.buffered[k])
  }

  /** Acknowledgements never contradict each other, nor what the receiver holds. */
  ghost predicate ReportsOk(r: Endpoint) {
    Consistent(r.inbound, AckNumbers(r.sent), Reported(r.sent))
  }

  ghost predicate Consistent(b: Inbound<Sealed>, acks: set<int>, reported: set<int>) {
    && (forall n :: n in acks ==> 0 <= n <= b.expected && n !in reported)
    && (forall x :: x in reported ==> Received(b, x))
  }

  ghost predicate AckOk(s: Endpoint, r: Endpoint) {
    && s.highestAck <= r.inbound.expected
    && s.highestAck !in Reported(r.sent)
    && s.send.sacked <= Reported(r.sent)
    && forall q :: s.highestAck <= q < s.nextOutbound ==> q in PendingSequences(s.send.pending) || q in Reported(r.sent)
  }

  ghost predicate CloseOk(s: Endpoint, r: Endpoint) {
    && (forall f :: f in Closes(s.sent) ==> s.close.Some? && f == s.close.value.finalSequence)
    && (s.close.Some? ==> r.inbound.expected == s.nextOutbound)
    && (forall f :: f in CloseAcks(r.sent) ==>
          s.close.Some? && f == s.close.value.finalSequence && r.status == LeftByPeerClose)
    && (s.status == LeftByCloseAck || r.status == LeftByPeerClose ==> s.close.Some?)
  }

  ghost predicate Linked(s: Endpoint, r: Endpoint) {
    SenderOk(s) && ReceiverOk(s, r) && ReportsOk(r) && AckOk(s, r) && CloseOk(s, r)
  }

  ghost predicate Inv(c: Channel) {
    Linked(c.left, c.right) && Linked(c.right, c.left)
  }

  // ---- one more message

  lemma SentSnoc(sent: seq<Envelope>, m: Envelope)
    ensures AckNumbers(sent + [m]) == AckNumbers(sent) + if m.Ack? then {m.next} else {}
    ensures Closes(sent + [m]) == Closes(sent) + if m.Close? then {m.finalSequence} else {}
    ensures CloseAcks(sent + [m]) == CloseAcks(sent) + if m.CloseAck? then {m.finalSequence} else {}
  {
    assert forall k :: k in sent + [m] <==> k in sent || k == m;
  }

  lemma ReportedSnoc(sent: seq<Envelope>, m: Envelope)
    ensures Reported(sent + [m]) == Reported(sent) + if m.Ack? then Cover(m.ranges) else {}
  {
    hide Cover;
    forall x | x in Reported(sent) + if m.Ack? then Cover(m.ranges) else {}
      ensures x in Reported(sent + [m])
    {
      if x in Reported(sent) {
        var k :| k in sent && k.Ack? && x in Cover(k.ranges);
        assert k in sent + [m];
      } else {
        assert m in sent + [m];
      }
    }
  }

  lemma CountsSnoc(sent: seq<Envelope>, m: Envelope)
    ensures forall q :: DataSends(sent + [m], q) == DataSends(sent, q) + if m.Data? && m.sequence == q then 1 else 0
    ensures CloseSends(sent + [m]) == CloseSends(sent) + if m.Close? then 1 else 0
    ensures TotalDataSends(sent + [m]) == TotalDataSends(sent) + if m.Data? then 1 else 0
  {
    assert (sent + [m])[..|sent|] == sent;
  }

  // ---- halves that a step leaves alone

  /** Nothing the peer relies on in `s` as a receiver has changed. */
  ghost predicate SameReceivingHalf(r: Endpoint, n: Endpoint) {
    && n.receiveDirection == r.receiveDirection
    && n.inbound == r.inbound && n.openCounter == r.openCounter && n.written == r.written
    && AckNumbers(n.sent) == AckNumbers(r.sent)
    && Reported(n.sent) == Reported(r.sent)
    && CloseAcks(n.sent) == CloseAcks(r.sent)
    && r.status.Running? && !n.status.LeftByPeerClose?
  }

  lemma ReceivingHalfUntouched(s: Endpoint, r: Endpoint, n: Endpoint)
    requires Linked(s, r) && SameReceivingHalf(r, n)
    ensures Linked(s, n)
  {
  }

  ghost predicate SameSendingHalf(s: Endpoint, n: Endpoint) {
    && n.sendDirection == s.sendDirection && n.read == s.read
    && n.nextOutbound == s.nextOutbound && n.sealCounter == s.sealCounter
    && n.send == s.send && n.close == s.close && n.readClosed == s.readClosed && n.highestAck == s.highestAck
    && SameOutgoing(s.sent, n.sent)
    && (n.status.LeftByCloseAck? ==> s.close.Some?)
  }

  ghost predicate SameOutgoing(sent: seq<Envelope>, now: seq<Envelope>) {
    && (forall m :: m in now && m.Data? ==> m in sent)
    && (forall q :: DataSends(now, q) == DataSends(sent, q))
    && CloseSends(now) == CloseSends(sent)
    && Closes(now) == Closes(sent)
  }

  lemma SendingHalfUntouched(s: Endpoint, n: Endpoint, r: Endpoint)
    requires Linked(s, r) && SameSendingHalf(s, n)
    requires r.status == LeftByPeerClose ==> s.close.Some?
    ensures Linked(n, r)
  {
    assert CountersOk(n) && HighestOk(n) && ControlOk(n);
    assert QueueOk(n) && DataOk(n) by {
      assert forall q, payload :: IsSealedChunk(s, q, payload) <==> IsSealedChunk(n, q, payload);
    }
    assert ReceiverOk(n, r) by {
      assert forall q, payload :: IsSealedChunk(s, q, payload) <==> IsSealedChunk(n, q, payload);
    }
  }

  lemma AckLeavesOutgoing(sent: seq<Envelope>, m: Envelope)
    requires m.Ack? || m.CloseAck?
    ensures SameOutgoing(sent, sent + [m])
  {
    SentSnoc(sent, m);
    CountsSnoc(sent, m);
  }
}
