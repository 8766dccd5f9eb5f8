/** Receiving any message the peer has sent keeps the two halves of a channel linked. */
module ChannelReceipts {
  import opened Common
  import opened Ranges
  import opened SecureChannel
  import opened Reorder
  import opened LossRecovery
  import opened AckHandling
  import opened AckProperties
  import opened Endpoint
  import opened ChannelInvariant
  import opened ChannelSteps

  // ---- acknowledgements

  ghost predicate GenuineAck(r: Endpoint, next: int, ranges: seq<Range>) {
    next in AckNumbers(r.sent) && Cover(ranges) <= Reported(r.sent)
  }

  lemma SentAckIsGenuine(r: Endpoint, next: u64, ranges: seq<Range>)
    requires Ack(next, ranges) in r.sent
    ensures GenuineAck(r, next, ranges)
  {
    var m := Ack(next, ranges);
    assert m.Ack? && m.next == next;
    forall x | x in Cover(m.ranges)
      ensures x in Reported(r.sent)
    {
      assert m in r.sent && m.Ack? && x in Cover(m.ranges);
    }
  }

  /** The acknowledgement without the resend that may follow it. */
  ghost function Absorbed(s: Endpoint, next: u64, ranges: seq<Range>, now: Millis): Endpoint {
    s.(send := AfterAck(s.send, next, ranges, now).0, highestAck := Max(s.highestAck, next))
  }

  /** The new front is the highest acknowledgement, because no report ever contained that number. */
  lemma AbsorbKeepsFront(s: Endpoint, r: Endpoint, next: u64, ranges: seq<Range>, now: Millis)
    requires Linked(s, r) && GenuineAck(r, next, ranges)
    ensures HighestOk(Absorbed(s, next, ranges, now))
    ensures AckOk(Absorbed(s, next, ranges, now), r)
  {
    var n := Absorbed(s, next, ranges, now);
    QueueIsFiltered(s.send, next, ranges, now);
    hide AfterAck;
    hide Keep;
    hide Reported;
    hide AckNumbers;
    hide Cover;
    assert n.send.sacked <= Reported(r.sent);
    assert n.highestAck !in Reported(r.sent) && 0 <= n.highestAck <= s.nextOutbound;
    forall q | n.highestAck <= q < n.nextOutbound && q in PendingSequences(s.send.pending)
      ensures q in PendingSequences(n.send.pending) || q in Reported(r.sent)
    {
      var p :| p in s.send.pending && p.sequence == q;
    }
    if n.highestAck != n.nextOutbound {
      assert n.highestAck in PendingSequences(s.send.pending) by {
        if n.highestAck == s.highestAck {
          assert s.send.pending[0] in s.send.pending;
        }
      }
      assert n.highestAck in PendingSequences(n.send.pending);
      LeastIsFront(n.send.pending, n.highestAck);
    }
  }

  lemma LeastIsFront(q: seq<Pending>, least: int)
    requires Sorted(q) && least in PendingSequences(q)
    requires forall p :: p in q ==> least <= p.sequence
    ensures Front(q) == Some(least)
  {
    var p :| p in q && p.sequence == least;
    var i :| 0 <= i < |q| && q[i] == p;
    assert q[0] in q;
    assert forall j :: 0 < j < |q| ==> q[0].sequence < q[j].sequence;
  }

  lemma AbsorbKeepsControl(s: Endpoint, r: Endpoint, next: u64, ranges: seq<Range>, now: Millis)
    requires Linked(s, r) && GenuineAck(r, next, ranges)
    ensures ControlOk(Absorbed(s, next, ranges, now))
  {
    var n := Absorbed(s, next, ranges, now);
    QueueIsFiltered(s.send, next, ranges, now);
    BoundsKept(s.send, next, ranges, now);
    RecoveryAfterAck(s.send, next, ranges, now);
    AbsorbKeepsFront(s, r, next, ranges, now);
    hide AfterAck;
    hide Cover;
    if n.send.pending != [] {
      var last := n.send.pending[|n.send.pending| - 1];
      assert last in n.send.pending;
    } else if s.send.pending != [] {
      assert s.send.pending[0] in s.send.pending;
    }
  }

  lemma AbsorbKeepsQueue(s: Endpoint, next: u64, ranges: seq<Range>, now: Millis)
    requires SenderOk(s)
    ensures var n := Absorbed(s, next, ranges, now);
      CountersOk(n) && QueueOk(n) && DataOk(n) && AttemptsOk(n)
    ensures s.close.Some? ==> Absorbed(s, next, ranges, now).send.pending == []
  {
    var n := Absorbed(s, next, ranges, now);
    QueueIsFiltered(s.send, next, ranges, now);
    assert |n.send.pending| <= |s.send.pending|;
    hide AfterAck, Keep, Cover, Sorted, DataSends;
    assert forall q, payload :: IsSealedChunk(s, q, payload) <==> IsSealedChunk(n, q, payload);
    hide IsSealedChunk;
  }

  lemma SameCloseHandshake(s: Endpoint, n: Endpoint, r: Endpoint)
    requires CloseOk(s, r)
    requires n.sent == s.sent && n.close == s.close && n.nextOutbound == s.nextOutbound && n.status == s.status
    ensures CloseOk(n, r)
  {
  }

  lemma AbsorbKeepsPaired(s: Endpoint, r: Endpoint, next: u64, ranges: seq<Range>, now: Millis)
    requires Paired(s, r) && s.status.Running? && GenuineAck(r, next, ranges)
    ensures Paired(Absorbed(s, next, ranges, now), r)
  {
    var n := Absorbed(s, next, ranges, now);
    hide Paired, Linked, SenderOk, ReceiverOk, ReportsOk, AckOk, CloseOk, GenuineAck, AfterAck;
    hide CountersOk, QueueOk, ControlOk, HighestOk, DataOk, AttemptsOk;
    Parts(s, r);
    AbsorbKeepsQueue(s, next, ranges, now);
    AbsorbKeepsFront(s, r, next, ranges, now);
    AbsorbKeepsControl(s, r, next, ranges, now);
    SameStream(s, n, r);
    SameCloseHandshake(s, n, r);
    assert SameReceivingHalf(s, n);
    ReceivingHalfUntouched(r, s, n);
    Parts(n, r);
  }

  lemma AckKeepsPaired(s: Endpoint, r: Endpoint, next: u64, ranges: seq<Range>, now: Millis)
    requires Paired(s, r) && s.status.Running? && Ack(next, ranges) in r.sent
    ensures Paired(OnAck(s, next, ranges, now), r)
  {
    hide Paired;
    hide AfterAck;
    SentAckIsGenuine(r, next, ranges);
    AbsorbKeepsPaired(s, r, next, ranges, now);
    var n := Absorbed(s, next, ranges, now);
    var resend := AfterAck(s.send, next, ranges, now).1;
    var resent := n;
    if resend.Some? && IndexOf(n.send.pending, resend.value) < |n.send.pending| {
      var i := IndexOf(n.send.pending, resend.value);
      ResendKeepsPaired(n, r, i, now);
      resent := Resend(n, i, now);
    }
    assert resent == AckedAndResent(s, next, ranges, now);
    if resent.status.Running? {
      StartCloseKeepsPaired(resent, r, now);
    }
  }

  // ---- data

  /** Released payloads are the next chunks of the stream, and every one of them opens. */
  lemma {:induction false} NextChunksOpen(s: Endpoint, r: Endpoint, from: int, ready: seq<Sealed>)
    requires r.receiveDirection == s.sendDirection
    requires 0 <= from && from + |ready| <= |s.read| <= U64_MAX
    requires forall i :: 0 <= i < |ready| ==> ready[i] == SealedChunk(s, from + i)
    ensures OpenAll(r.receiveDirection, from, ready) == s.read[from..from + |ready|]
    decreases |ready|
  {
    if ready != [] {
      OpensOnlyInStep(s.sendDirection, from, from, s.read[from]);
      forall i | 0 <= i < |ready[1..]|
        ensures ready[1..][i] == SealedChunk(s, from + 1 + i)
      {
      }
      NextChunksOpen(s, r, from + 1, ready[1..]);
    }
  }

  /** What a genuine packet does to the buffer: it only grows, and holds only genuine chunks. */
  lemma QueuedGenuine(s: Endpoint, r: Endpoint, sequence: u64, payload: Sealed)
    requires ReceiverOk(s, r) && |s.read| <= U64_MAX && IsSealedChunk(s, sequence, payload)
    ensures
      var (inbound, ready) := Queued(r.inbound, sequence, payload);
      && inbound.expected == r.inbound.expected + |ready| <= |s.read|
      && (forall i :: 0 <= i < |ready| ==> ready[i] == SealedChunk(s, r.inbound.expected + i))
      && InWindow(inbound)
      && (forall k :: k in inbound.buffered ==> IsSealedChunk(s, k, inbound.buffered[k]))
      && (forall q :: Received(r.inbound, q) ==> Received(inbound, q))
      && !Received(r.inbound, inbound.expected)
  {
    var (inbound, ready) := Queued(r.inbound, sequence, payload);
    QueuedKeepsWindow(r.inbound, sequence, payload);
    if sequence == r.inbound.expected {
      assert inbound.expected > r.inbound.expected + 1 ==> inbound.expected - 1 in r.inbound.buffered;
    }
  }

  lemma DataKeepsReceiver(s: Endpoint, r: Endpoint, sequence: u64, payload: Sealed)
    requires ReceiverOk(s, r) && |s.read| <= U64_MAX && IsSealedChunk(s, sequence, payload)
    ensures var n := OnData(r, sequence, payload);
      && ReceiverOk(s, n)
      && r.inbound.expected <= n.inbound.expected
      && n == Emit(r.(inbound := n.inbound, openCounter := n.openCounter, written := n.written), Report(n.inbound))
      && n.inbound == Queued(r.inbound, sequence, payload).0
  {
    QueuedGenuine(s, r, sequence, payload);
    ReleasedAreWritten(s, r, sequence, payload);
    hide Queued, OpenAll, Report, IsSealedChunk, InWindow, Received;
  }

  /** What is released opens, and continues what was written. */
  lemma ReleasedAreWritten(s: Endpoint, r: Endpoint, sequence: u64, payload: Sealed)
    requires ReceiverOk(s, r) && |s.read| <= U64_MAX && IsSealedChunk(s, sequence, payload)
    ensures
      var (inbound, ready) := Queued(r.inbound, sequence, payload);
      var plaintexts := OpenAll(r.receiveDirection, r.openCounter, ready);
      && |plaintexts| == |ready| && 0 <= inbound.expected <= |s.read|
      && r.written + plaintexts == s.read[..inbound.expected]
  {
    var (inbound, ready) := Queued(r.inbound, sequence, payload);
    QueuedGenuine(s, r, sequence, payload);
    hide Queued, InWindow, Received, IsSealedChunk;
    NextChunksOpen(s, r, r.inbound.expected, ready);
    hide OpenAll;
    assert s.read[..r.inbound.expected] + s.read[r.inbound.expected..inbound.expected] == s.read[..inbound.expected];
  }

  /** The acknowledgement sent for the new state contradicts none sent before. */
  lemma ReportKeepsReports(s: Endpoint, r: Endpoint, n: Endpoint)
    requires ReportsOk(r) && ReceiverOk(s, n) && |s.read| <= U64_MAX
    requires n.sent == r.sent + [Report(n.inbound)]
    requires r.inbound.expected <= n.inbound.expected
    requires forall q :: Received(r.inbound, q) ==> Received(n.inbound, q)
    requires !Received(r.inbound, n.inbound.expected)
    ensures ReportsOk(n)
    ensures Reported(r.sent) <= Reported(n.sent)
    ensures forall x :: x in Reported(n.sent) - Reported(r.sent) ==> n.inbound.expected < x
    ensures CloseAcks(n.sent) == CloseAcks(r.sent)
  {
    var m := Report(n.inbound);
    ReportContents(s, n);
    ReportedSnoc(r.sent, m);
    SentSnoc(r.sent, m);
    assert 0 <= n.inbound.expected;
    hide Report, Cover, Reported, AckNumbers, CloseAcks, ReceiverOk, Received, Consistent;
    ConsistentNext(r.inbound, n.inbound, AckNumbers(r.sent), Reported(r.sent), Cover(m.ranges));
  }

  lemma ConsistentNext(b: Inbound<Sealed>, n: Inbound<Sealed>, acks: set<int>, reported: set<int>, added: set<int>)
    requires Consistent(b, acks, reported)
    requires 0 <= n.expected && b.expected <= n.expected
    requires forall q :: Received(b, q) ==> Received(n, q)
    requires !Received(b, n.expected)
    requires forall x :: x in added ==> x in n.buffered && n.expected < x
    ensures Consistent(n, acks + {n.expected}, reported + added)
  {
  }

  lemma ReportContents(s: Endpoint, n: Endpoint)
    requires ReceiverOk(s, n) && |s.read| <= U64_MAX
    ensures var m := Report(n.inbound);
      && m.Ack? && m.next == n.inbound.expected
      && forall x :: x in Cover(m.ranges) ==> x in n.inbound.buffered && n.inbound.expected < x
  {
    var keys := n.inbound.buffered.Keys;
    forall k | k in keys
      ensures 0 <= k <= U64_MAX
    {
      assert IsSealedChunk(s, k, n.inbound.buffered[k]);
    }
    SackRangesReport(keys);
    hide SackRanges;
    hide Cover;
  }

  lemma DataKeepsPaired(s: Endpoint, r: Endpoint, sequence: u64, payload: Sealed)
    requires Paired(s, r) && r.status.Running? && Data(sequence, payload) in s.sent
    ensures Paired(s, OnData(r, sequence, payload))
  {
    var n := OnData(r, sequence, payload);
    var m := Data(sequence, payload);
    assert m.Data? && IsSealedChunk(s, m.sequence, m.payload);
    DataKeepsReceiver(s, r, sequence, payload);
    QueuedGenuine(s, r, sequence, payload);
    hide OnData;
    hide Queued;
    ReportKeepsReports(s, r, n);
    ReceiptKeepsLinked(s, r, n);
    AckLeavesOutgoing(r.sent, Report(n.inbound));
    SendingHalfUntouched(r, n, s);
  }

  lemma ReceiptKeepsLinked(s: Endpoint, r: Endpoint, n: Endpoint)
    requires Linked(s, r) && ReceiverOk(s, n) && ReportsOk(n)
    requires r.status.Running? && n.status.Running?
    requires r.inbound.expected <= n.inbound.expected
    requires Reported(r.sent) <= Reported(n.sent)
    requires forall x :: x in Reported(n.sent) - Reported(r.sent) ==> n.inbound.expected < x
    requires CloseAcks(n.sent) == CloseAcks(r.sent)
    ensures Linked(s, n)
  {
    hide Reported;
    hide CloseAcks;
    assert s.highestAck !in Reported(n.sent) - Reported(r.sent);
    assert AckOk(s, n);
    assert CloseOk(s, n);
  }

  // ---- the close handshake

  lemma CloseKeepsPaired(s: Endpoint, r: Endpoint, finalSequence: u64)
    requires Paired(s, r) && r.status.Running? && Close(finalSequence) in s.sent
    ensures Paired(s, OnClose(r, finalSequence))
    ensures OnClose(r, finalSequence).status == LeftByPeerClose
  {
    var n, m := OnClose(r, finalSequence), CloseAck(finalSequence);
    CloseArrivesInTime(s, r, finalSequence);
    SentSnoc(r.sent, m);
    ReportedSnoc(r.sent, m);
    AckLeavesOutgoing(r.sent, m);
    hide Paired, Linked, SenderOk, ReceiverOk, AckOk, CloseOk, SameOutgoing;
    assert n == Emit(r.(status := LeftByPeerClose), m);
    Parts(s, r);
    LeavingKeepsLinks(s, r, n);
    assert SameSendingHalf(r, n);
    SendingHalfUntouched(r, n, s);
    Parts(s, n);
  }

  lemma CloseArrivesInTime(s: Endpoint, r: Endpoint, finalSequence: u64)
    requires Paired(s, r) && Close(finalSequence) in s.sent
    ensures s.close.Some? && s.close.value.finalSequence == finalSequence == s.nextOutbound == r.inbound.expected
    ensures s.status.LeftByPeerClose? ==> r.close.Some?
  {
    var m := Close(finalSequence);
    assert m.Close? && m.finalSequence in Closes(s.sent);
  }

  lemma LeavingKeepsLinks(s: Endpoint, r: Endpoint, n: Endpoint)
    requires ReceiverOk(s, r) && ReportsOk(r) && AckOk(s, r) && CloseOk(s, r)
    requires s.close.Some? && n.status == LeftByPeerClose
    requires n.receiveDirection == r.receiveDirection && n.inbound == r.inbound
    requires n.openCounter == r.openCounter && n.written == r.written
    requires AckNumbers(n.sent) == AckNumbers(r.sent) && Reported(n.sent) == Reported(r.sent)
    requires CloseAcks(n.sent) == CloseAcks(r.sent) + {s.close.value.finalSequence}
    ensures ReceiverOk(s, n) && ReportsOk(n) && AckOk(s, n) && CloseOk(s, n)
  {
  }

  lemma CloseAckKeepsPaired(s: Endpoint, r: Endpoint, finalSequence: u64)
    requires Paired(s, r) && s.status.Running? && CloseAck(finalSequence) in r.sent
    ensures Paired(OnCloseAck(s, finalSequence), r)
    ensures OnCloseAck(s, finalSequence).status == LeftByCloseAck
  {
    var n := OnCloseAck(s, finalSequence);
    var m := CloseAck(finalSequence);
    assert m.CloseAck? && m.finalSequence in CloseAcks(r.sent);
    SendingHalfUntouched(s, n, r);
    ReceivingHalfUntouched(r, s, n);
  }

  // ---- every step

  lemma StepKeepsPaired(s: Endpoint, r: Endpoint, ev: Event)
    requires Paired(s, r) && Enabled(s, ev)
    requires ev.ReceiveEvent? ==> ev.message in r.sent
    ensures Paired(Step(s, ev), r)
  {
    hide Paired;
    match ev
    case ReadEvent(chunk, now) => ReadKeepsPaired(s, r, chunk, now);
    case EofEvent(now) => EofKeepsPaired(s, r, now);
    case TickEvent(now) => TickKeepsPaired(s, r, now);
    case AbortEvent => FailKeepsPaired(s, r);
    case ReceiveEvent(m, now) =>
      match m {
        case Data(sequence, payload) => Swap(r, s); DataKeepsPaired(r, s, sequence, payload); Swap(r, Step(s, ev));
        case Ack(next, ranges) => AckKeepsPaired(s, r, next, ranges, now);
        case Close(finalSequence) => Swap(r, s); CloseKeepsPaired(r, s, finalSequence); Swap(r, Step(s, ev));
        case CloseAck(finalSequence) => CloseAckKeepsPaired(s, r, finalSequence);
      }
  }

  lemma Swap(s: Endpoint, r: Endpoint)
    ensures Paired(s, r) <==> Paired(r, s)
  {
  }
}
