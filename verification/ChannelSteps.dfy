/** Every step of an endpoint keeps the two halves of a channel linked. */
module ChannelSteps {
  import opened Common
  import opened Congestion
  import opened RetransmitTimer
  import opened SecureChannel
  import opened LossRecovery
  import opened Endpoint
  import opened ChannelInvariant

  /** `s` and `r` are linked in both directions. */
  ghost predicate Paired(s: Endpoint, r: Endpoint) { Linked(s, r) && Linked(r, s) }

  /** The clauses of `Paired`, for proofs that use them as they stand. */
  lemma Parts(s: Endpoint, r: Endpoint)
    ensures Paired(s, r) <==> Linked(s, r) && Linked(r, s)
    ensures Linked(s, r) <==> SenderOk(s) && ReceiverOk(s, r) && ReportsOk(r) && AckOk(s, r) && CloseOk(s, r)
    ensures SenderOk(s) <==> CountersOk(s) && QueueOk(s) && ControlOk(s) && HighestOk(s) && DataOk(s) && AttemptsOk(s)
  {
  }

  // ---- sending again

  lemma ResentQueue(s: Endpoint, i: nat, now: Millis)
    requires SenderOk(s) && i < |s.send.pending| && s.send.pending[i].attempts < MAX_ATTEMPTS
    ensures var n := Resend(s, i, now);
      && QueueOk(n) && AttemptsOk(n)
      && PendingSequences(n.send.pending) == PendingSequences(s.send.pending)
  {
    var n := Resend(s, i, now);
    var p, q := s.send.pending[i], n.send.pending;
    CountsSnoc(s.sent, Data(p.sequence, p.payload));
    forall x | x in q
      ensures IsSealedChunk(n, x.sequence, x.payload) && x.attempts == DataSends(n.sent, x.sequence)
    {
      var j :| 0 <= j < |q| && q[j] == x;
      assert s.send.pending[j].sequence == x.sequence;
      assert j != i ==> x.sequence != p.sequence;
    }
    assert p in s.send.pending;
    forall j | 0 <= j < |q|
      ensures q[j].sequence == s.send.pending[j].sequence
    {
    }
    SameSequences(s.send.pending, q);
  }

  lemma SameSequences(a: seq<Pending>, b: seq<Pending>)
    requires |a| == |b| && forall j :: 0 <= j < |a| ==> a[j].sequence == b[j].sequence
    ensures PendingSequences(a) == PendingSequences(b)
  {
    forall x
      ensures x in PendingSequences(a) <==> x in PendingSequences(b)
    {
      if x in PendingSequences(a) {
        var p :| p in a && p.sequence == x;
        var j :| 0 <= j < |a| && a[j] == p;
        assert b[j] in b;
      }
      if x in PendingSequences(b) {
        var p :| p in b && p.sequence == x;
        var j :| 0 <= j < |b| && b[j] == p;
        assert a[j] in a;
      }
    }
  }

  lemma FailKeepsPaired(s: Endpoint, r: Endpoint)
    requires Paired(s, r) && s.status.Running?
    ensures Paired(Fail(s), r)
  {
    SendingHalfUntouched(s, Fail(s), r);
    ReceivingHalfUntouched(r, s, Fail(s));
  }

  lemma DataLeavesReceivingHalf(s: Endpoint, n: Endpoint, m: Envelope, r: Endpoint)
    requires Linked(r, s) && s.status.Running? && n.status.Running?
    requires m.Data? || m.Close?
    requires n.sent == s.sent + [m]
    requires n.receiveDirection == s.receiveDirection && n.inbound == s.inbound
    requires n.openCounter == s.openCounter && n.written == s.written
    ensures Linked(r, n)
  {
    SentSnoc(s.sent, m);
    ReportedSnoc(s.sent, m);
    ReceivingHalfUntouched(r, s, n);
  }

  lemma ResendKeepsSender(s: Endpoint, i: nat, now: Millis)
    requires SenderOk(s) && i < |s.send.pending| && s.send.pending[i].attempts < MAX_ATTEMPTS
    ensures SenderOk(Resend(s, i, now))
  {
    var n := Resend(s, i, now);
    var p := s.send.pending[i];
    ResentQueue(s, i, now);
    assert p in s.send.pending;
    assert IsSealedChunk(n, p.sequence, p.payload);
    DataOkSnoc(s, n, Data(p.sequence, p.payload));
    hide QueueOk, DataOk, AttemptsOk, Sorted;
    forall x | x in n.send.pending
      ensures n.highestAck <= x.sequence
    {
      assert x.sequence in PendingSequences(n.send.pending);
    }
  }

  lemma ResendKeepsPaired(s: Endpoint, r: Endpoint, i: nat, now: Millis)
    requires Paired(s, r) && s.status.Running? && i < |s.send.pending|
    ensures Paired(Resend(s, i, now), r)
  {
    hide Paired, Linked, SenderOk, ReceiverOk, ReportsOk, AckOk, CloseOk;
    var n := Resend(s, i, now);
    var p := s.send.pending[i];
    Parts(s, r);
    if p.attempts + 1 > MAX_ATTEMPTS {
      FailKeepsPaired(s, r);
    } else {
      var m := Data(p.sequence, p.payload);
      ResendKeepsSender(s, i, now);
      ResentQueue(s, i, now);
      SameStream(s, n, r);
      SentSnoc(s.sent, m);
      CloseEndsTheStream(s, r);
      SameLinks(s, n, r);
      DataLeavesReceivingHalf(s, n, m, r);
      Parts(n, r);
    }
  }

  lemma CloseEndsTheStream(s: Endpoint, r: Endpoint)
    requires CloseOk(s, r)
    ensures s.close.Some? ==> r.inbound.expected == s.nextOutbound
    ensures s.status.LeftByCloseAck? ==> s.close.Some?
  {
  }

  lemma DataOkSnoc(s: Endpoint, n: Endpoint, m: Envelope)
    requires DataOk(s) && n.sent == s.sent + [m]
    requires n.sendDirection == s.sendDirection && s.read <= n.read
    requires m.Data? ==> IsSealedChunk(n, m.sequence, m.payload)
    ensures DataOk(n)
  {
  }

  /** What the receiver holds stays right while the sender's stream only grows. */
  lemma SameStream(s: Endpoint, n: Endpoint, r: Endpoint)
    requires ReceiverOk(s, r)
    requires n.sendDirection == s.sendDirection && s.read <= n.read
    ensures ReceiverOk(n, r)
  {
    assert forall q, payload :: IsSealedChunk(s, q, payload) ==> IsSealedChunk(n, q, payload);
  }

  lemma ResendCloseKeepsSender(s: Endpoint, now: Millis)
    requires SenderOk(s) && s.close.Some? && s.close.value.attempts < MAX_ATTEMPTS
    ensures SenderOk(ResendClose(s, now))
  {
    var n, m := ResendClose(s, now), Close(s.close.value.finalSequence);
    CountsSnoc(s.sent, m);
    DataOkSnoc(s, n, m);
    hide DataOk, Sorted, DataSends, CloseSends;
  }

  lemma ResendCloseKeepsPaired(s: Endpoint, r: Endpoint, now: Millis)
    requires Paired(s, r) && s.status.Running? && s.close.Some?
    ensures Paired(ResendClose(s, now), r)
  {
    hide Paired, Linked, SenderOk, ReceiverOk, ReportsOk, AckOk, CloseOk;
    var n := ResendClose(s, now);
    var c := s.close.value;
    Parts(s, r);
    if c.attempts + 1 > MAX_ATTEMPTS {
      FailKeepsPaired(s, r);
    } else {
      var m := Close(c.finalSequence);
      ResendCloseKeepsSender(s, now);
      SameStream(s, n, r);
      SentSnoc(s.sent, m);
      CloseEndsTheStream(s, r);
      SameLinks(s, n, r);
      DataLeavesReceivingHalf(s, n, m, r);
      Parts(n, r);
    }
  }

  lemma StartCloseKeepsSender(s: Endpoint, now: Millis)
    requires SenderOk(s) && s.close.None? && s.send.pending == [] && s.readClosed
    ensures SenderOk(MaybeStartClose(s, now)) && s.highestAck == s.nextOutbound
  {
    var n, m := MaybeStartClose(s, now), Close(s.nextOutbound);
    CountsSnoc(s.sent, m);
    DataOkSnoc(s, n, m);
    hide DataOk, Sorted, DataSends, CloseSends;
  }

  /** With nothing outstanding the receiver has released the whole stream. */
  lemma AcknowledgedIsReleased(s: Endpoint, r: Endpoint)
    requires SenderOk(s) && ReceiverOk(s, r) && AckOk(s, r) && s.highestAck == s.nextOutbound
    ensures r.inbound.expected == s.nextOutbound
  {
  }

  /** The close handshake starts only when the peer has already written everything. */
  lemma StartCloseKeepsPaired(s: Endpoint, r: Endpoint, now: Millis)
    requires Paired(s, r) && s.status.Running?
    ensures Paired(MaybeStartClose(s, now), r)
  {
    hide Paired, Linked, SenderOk, ReceiverOk, ReportsOk, AckOk, CloseOk;
    var n := MaybeStartClose(s, now);
    if n != s {
      var m := Close(s.nextOutbound);
      Parts(s, r);
      StartCloseKeepsSender(s, now);
      AcknowledgedIsReleased(s, r);
      SameStream(s, n, r);
      SentSnoc(s.sent, m);
      SameLinks(s, n, r);
      DataLeavesReceivingHalf(s, n, m, r);
      Parts(n, r);
    }
  }

  /** The window may be cut and the timer changed at will, within their bounds. */
  lemma TimersKeepPaired(s: Endpoint, r: Endpoint, window: Window, rto: Millis)
    requires Paired(s, r) && s.status.Running?
    requires InBounds(window) && RtoInBounds(rto)
    requires window.recovery.None? || window == s.send.window
    ensures Paired(s.(send := s.send.(window := window, rto := rto)), r)
  {
    hide Paired, Linked, SenderOk, ReceiverOk, ReportsOk, AckOk, CloseOk;
    var n := s.(send := s.send.(window := window, rto := rto));
    Parts(s, r);
    TimersKeepSender(s, window, rto);
    SameStream(s, n, r);
    assert SameReceivingHalf(s, n);
    ReceivingHalfUntouched(r, s, n);
    CloseEndsTheStream(s, r);
    SameLinks(s, n, r);
    Parts(n, r);
  }

  lemma TimersKeepSender(s: Endpoint, window: Window, rto: Millis)
    requires SenderOk(s) && InBounds(window) && RtoInBounds(rto)
    requires window.recovery.None? || window == s.send.window
    ensures SenderOk(s.(send := s.send.(window := window, rto := rto)))
  {
    DataOkSame(s, s.(send := s.send.(window := window, rto := rto)));
    hide DataOk, QueueOk, DataSends;
  }

  lemma SameLinks(s: Endpoint, n: Endpoint, r: Endpoint)
    requires AckOk(s, r) && CloseOk(s, r)
    requires n.highestAck == s.highestAck && n.send.sacked == s.send.sacked && n.nextOutbound == s.nextOutbound
    requires PendingSequences(n.send.pending) == PendingSequences(s.send.pending)
    requires Closes(n.sent) <= Closes(s.sent) + (if n.close.Some? then {n.close.value.finalSequence} else {})
    requires s.close.Some? ==> n.close.Some? && n.close.value.finalSequence == s.close.value.finalSequence
    requires n.close.Some? ==> r.inbound.expected == n.nextOutbound
    requires n.status.LeftByCloseAck? ==> n.close.Some?
    ensures AckOk(n, r) && CloseOk(n, r)
  {
  }

  lemma DataOkSame(s: Endpoint, n: Endpoint)
    requires n.sendDirection == s.sendDirection && n.read == s.read && n.sent == s.sent
    requires n.send.pending == s.send.pending
    ensures DataOk(s) ==> DataOk(n)
    ensures QueueOk(s) ==> QueueOk(n)
  {
    assert forall q, payload :: IsSealedChunk(s, q, payload) <==> IsSealedChunk(n, q, payload);
  }

  lemma TickKeepsPaired(s: Endpoint, r: Endpoint, now: Millis)
    requires Paired(s, r) && s.status.Running?
    ensures Paired(OnTick(s, now), r)
  {
    hide Paired;
    var i := TimedOutIndex(s.send.pending, now, s.send.rto);
    var resent := s;
    if i < |s.send.pending| {
      ResendKeepsPaired(s, r, i, now);
      resent := Resend(s, i, now);
    }
    if resent.status.Running? {
      var closed := resent;
      if CloseDue(s, now) {
        ResendCloseKeepsPaired(resent, r, now);
        closed := ResendClose(resent, now);
      }
      if closed.status.Running? {
        BoundedTimers(closed, r, s.send.rto, |s.send.pending|);
        if i < |s.send.pending| {
          TimersKeepPaired(closed, r, Timeout(s.send.window, |s.send.pending|), Backoff(s.send.rto));
        } else if CloseDue(s, now) {
          TimersKeepPaired(closed, r, closed.send.window, Backoff(s.send.rto));
        }
      }
    }
  }

  lemma BoundedTimers(s: Endpoint, r: Endpoint, rto: Millis, inflight: nat)
    requires Paired(s, r)
    ensures InBounds(s.send.window) && RtoInBounds(Backoff(rto)) && InBounds(Timeout(s.send.window, inflight))
  {
  }

  // ---- reading

  lemma EofKeepsPaired(s: Endpoint, r: Endpoint, now: Millis)
    requires Paired(s, r) && s.status.Running?
    ensures Paired(OnEof(s, now), r)
  {
    hide Paired, Linked, SenderOk, ReceiverOk, ReportsOk, AckOk, CloseOk;
    var n := s.(readClosed := true);
    Parts(s, r);
    EndOfStreamKeepsSender(s);
    SameStream(s, n, r);
    assert SameReceivingHalf(s, n);
    ReceivingHalfUntouched(r, s, n);
    CloseEndsTheStream(s, r);
    SameLinks(s, n, r);
    Parts(n, r);
    StartCloseKeepsPaired(n, r, now);
  }

  lemma EndOfStreamKeepsSender(s: Endpoint)
    requires SenderOk(s)
    ensures SenderOk(s.(readClosed := true))
  {
    DataOkSame(s, s.(readClosed := true));
    hide DataOk, QueueOk, DataSends;
  }

  lemma ReadKeepsQueue(s: Endpoint, chunk: Bytes, now: Millis)
    requires SenderOk(s) && MayRead(s) && s.nextOutbound < U64_MAX
    ensures var n := OnRead(s, chunk, now);
      && CountersOk(n) && QueueOk(n)
      && PendingSequences(n.send.pending) == PendingSequences(s.send.pending) + {s.nextOutbound}
      && forall q, payload :: IsSealedChunk(s, q, payload) ==> IsSealedChunk(n, q, payload)
  {
    var n := OnRead(s, chunk, now);
    var p := n.send.pending[|s.send.pending|];
    assert IsSealedChunk(n, p.sequence, p.payload);
    assert forall q, payload :: IsSealedChunk(s, q, payload) ==> IsSealedChunk(n, q, payload);
    assert forall x :: x in n.send.pending <==> x in s.send.pending || x == p;
    assert PendingSequences(n.send.pending) == PendingSequences(s.send.pending) + {p.sequence};
    forall i | 0 <= i < |s.send.pending|
      ensures s.send.pending[i].sequence < p.sequence
    {
      assert s.send.pending[i] in s.send.pending;
    }
  }

  lemma ReadKeepsSender(s: Endpoint, chunk: Bytes, now: Millis)
    requires SenderOk(s) && MayRead(s) && s.nextOutbound < U64_MAX
    ensures SenderOk(OnRead(s, chunk, now))
  {
    var n := OnRead(s, chunk, now);
    var p := n.send.pending[|s.send.pending|];
    var m := Data(p.sequence, p.payload);
    ReadKeepsQueue(s, chunk, now);
    assert forall x :: x in n.send.pending <==> x in s.send.pending || x == p;
    hide Sorted;
    DataOkSnoc(s, n, m);
    CountsSnoc(s.sent, m);
    assert DataSends(s.sent, s.nextOutbound) == 0;
    hide DataSends;
    assert AttemptsOk(n);
  }

  lemma ReadKeepsLinks(s: Endpoint, r: Endpoint, chunk: Bytes, now: Millis)
    requires SenderOk(s) && MayRead(s) && s.nextOutbound < U64_MAX && AckOk(s, r) && CloseOk(s, r)
    ensures AckOk(OnRead(s, chunk, now), r) && CloseOk(OnRead(s, chunk, now), r)
  {
    ReadKeepsQueue(s, chunk, now);
    SentSnoc(s.sent, OnRead(s, chunk, now).sent[|s.sent|]);
    hide SenderOk;
    hide Reported;
    hide PendingSequences;
    hide IsSealedChunk;
    hide Closes;
    hide CloseAcks;
  }

  lemma ReadKeepsPaired(s: Endpoint, r: Endpoint, chunk: Bytes, now: Millis)
    requires Paired(s, r) && s.status.Running? && MayRead(s)
    ensures Paired(OnRead(s, chunk, now), r)
  {
    if s.nextOutbound == U64_MAX {
      FailKeepsPaired(s, r);
      return;
    }
    hide Paired, Linked, SenderOk, ReceiverOk, ReportsOk, AckOk, CloseOk;
    var n := OnRead(s, chunk, now);
    Parts(s, r);
    ReadKeepsSender(s, chunk, now);
    ReadKeepsLinks(s, r, chunk, now);
    SameStream(s, n, r);
    DataLeavesReceivingHalf(s, n, n.sent[|s.sent|], r);
    Parts(n, r);
  }
}
