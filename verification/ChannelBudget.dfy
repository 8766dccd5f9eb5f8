/** Retransmission ends: every send spends from a budget that only reading replenishes. */
module ChannelBudget {
  import opened Common
  import opened Ranges
  import opened Congestion
  import opened RetransmitTimer
  import opened SecureChannel
  import opened Reorder
  import opened LossRecovery
  import opened AckHandling
  import opened AckProperties
  import opened Endpoint
  import opened Channel
  import opened ChannelInvariant
  import opened ChannelTheorems

  /** The attempts left to the packets in a queue. */
  ghost function Remaining(q: seq<Pending>): int {
    if q == [] then 0 else MAX_ATTEMPTS - q[0].attempts + Remaining(q[1..])
  }

  /** The sends an endpoint can still make without reading anything more. */
  ghost function Budget(e: Endpoint): int {
    Remaining(e.send.pending) + MAX_ATTEMPTS - if e.close.Some? then e.close.value.attempts else 0
  }

  ghost function Sends(e: Endpoint): nat { TotalDataSends(e.sent) + CloseSends(e.sent) }

  ghost predicate WithinAttempts(q: seq<Pending>) {
    forall p :: p in q ==> p.attempts <= MAX_ATTEMPTS
  }

  ghost predicate Solvent(e: Endpoint) {
    && WithinAttempts(e.send.pending)
    && (e.close.Some? ==> e.close.value.attempts <= MAX_ATTEMPTS)
  }

  lemma {:induction false} RemainingUpdate(q: seq<Pending>, i: nat, p: Pending)
    requires i < |q|
    ensures Remaining(q[i := p]) == Remaining(q) + q[i].attempts - p.attempts
  {
    if i == 0 {
      assert q[0 := p][1..] == q[1..];
    } else {
      assert q[i := p][1..] == q[1..][i - 1 := p];
      RemainingUpdate(q[1..], i - 1, p);
    }
  }

  lemma {:induction false} RemainingSnoc(q: seq<Pending>, p: Pending)
    ensures Remaining(q + [p]) == Remaining(q) + MAX_ATTEMPTS - p.attempts
  {
    if q == [] {
      assert q + [p] == [p];
    } else {
      assert (q + [p])[1..] == q[1..] + [p];
      RemainingSnoc(q[1..], p);
    }
  }

  lemma {:induction false} RemainingKeep(q: seq<Pending>, next: int, sacked: set<int>)
    requires WithinAttempts(q)
    ensures 0 <= Remaining(Keep(q, next, sacked)) <= Remaining(q)
    ensures WithinAttempts(Keep(q, next, sacked))
  {
    KeepMembers(q, next, sacked);
    if q != [] {
      assert q[0] in q && forall p :: p in q[1..] ==> p in q;
      RemainingKeep(q[1..], next, sacked);
    }
  }

  lemma {:induction false} RemainingIsNatural(q: seq<Pending>)
    requires WithinAttempts(q)
    ensures 0 <= Remaining(q)
  {
    if q != [] {
      assert q[0] in q && forall p :: p in q[1..] ==> p in q;
      RemainingIsNatural(q[1..]);
    }
  }

  lemma LinkedIsSolvent(s: Endpoint)
    requires SenderOk(s)
    ensures Solvent(s) && 0 <= Budget(s)
  {
    RemainingIsNatural(s.send.pending);
  }

  /** `n` has spent from the budget of `s` for everything it sent since. */
  ghost predicate Paid(s: Endpoint, n: Endpoint) {
    && Solvent(n)
    && Sends(s) <= Sends(n)
    && Budget(n) + Sends(n) <= Budget(s) + Sends(s)
  }

  lemma ResendPays(s: Endpoint, i: nat, now: Millis)
    requires Solvent(s) && i < |s.send.pending|
    ensures var n := Resend(s, i, now);
      Paid(s, n) && n.close == s.close && (n.status.Failed? || Budget(n) < Budget(s))
  {
    var n := Resend(s, i, now);
    var p := s.send.pending[i];
    if p.attempts + 1 <= MAX_ATTEMPTS {
      RemainingUpdate(s.send.pending, i, n.send.pending[i]);
      CountsSnoc(s.sent, Data(p.sequence, p.payload));
    }
  }

  lemma ResendClosePays(s: Endpoint, now: Millis)
    requires Solvent(s) && s.close.Some?
    ensures var n := ResendClose(s, now);
      Paid(s, n) && (n.status.Failed? || Budget(n) < Budget(s))
  {
    CountsSnoc(s.sent, Close(s.close.value.finalSequence));
  }

  lemma StartClosePays(s: Endpoint, now: Millis)
    requires Solvent(s)
    ensures Paid(s, MaybeStartClose(s, now))
  {
    CountsSnoc(s.sent, Close(s.nextOutbound));
  }

  /** A timer that finds something due spends from the budget or ends the channel. */
  lemma TickPays(s: Endpoint, now: Millis)
    requires Solvent(s)
    ensures var n := OnTick(s, now);
      && Paid(s, n)
      && (TimedOutIndex(s.send.pending, now, s.send.rto) < |s.send.pending| || CloseDue(s, now)
          ==> n.status.Failed? || Budget(n) < Budget(s))
  {
    hide Resend, ResendClose, Paid, Solvent, Budget, TimedOutIndex, Timeout, Backoff, CloseDue;
    var i := TimedOutIndex(s.send.pending, now, s.send.rto);
    var resent := s;
    PaidNothing(s);
    if i < |s.send.pending| {
      ResendPays(s, i, now);
      resent := Resend(s, i, now);
    }
    if resent.status.Failed? {
      return;
    }
    PaidSoFar(s, resent);
    var closed := resent;
    if CloseDue(s, now) {
      DueCloseExists(s, now);
      ResendClosePays(resent, now);
      closed := ResendClose(resent, now);
      PaidTwice(s, resent, closed);
    }
    var n := OnTick(s, now);
    PaidAlike(s, closed, n);
  }

  lemma DueCloseExists(s: Endpoint, now: Millis)
    requires CloseDue(s, now)
    ensures s.close.Some?
  {
  }

  lemma PaidNothing(s: Endpoint)
    requires Solvent(s)
    ensures Paid(s, s)
  {
  }

  lemma PaidSoFar(s: Endpoint, n: Endpoint)
    requires Paid(s, n)
    ensures Solvent(n) && Budget(n) <= Budget(s)
  {
  }

  lemma PaidTwice(s: Endpoint, r: Endpoint, n: Endpoint)
    requires Paid(s, r) && Paid(r, n)
    ensures Paid(s, n) && Budget(n) <= Budget(r) <= Budget(s)
  {
  }

  /** Only the queue, the close and what was sent matter. */
  lemma PaidAlike(s: Endpoint, r: Endpoint, n: Endpoint)
    requires Paid(s, r)
    requires n.send.pending == r.send.pending && n.close == r.close && n.sent == r.sent
    ensures Paid(s, n) && Budget(n) == Budget(r)
  {
  }

  lemma AckPays(s: Endpoint, next: u64, ranges: seq<Range>, now: Millis)
    requires Solvent(s) && Sorted(s.send.pending)
    ensures Paid(s, OnAck(s, next, ranges, now))
  {
    var (send, resend) := AfterAck(s.send, next, ranges, now);
    var acked := s.(send := send, highestAck := Max(s.highestAck, next));
    QueueIsFiltered(s.send, next, ranges, now);
    RemainingKeep(s.send.pending, next, send.sacked);
    hide AfterAck, Keep, Sorted;
    assert Paid(s, acked);
    var resent := AckedAndResent(s, next, ranges, now);
    if resend.Some? && IndexOf(send.pending, resend.value) < |send.pending| {
      ResendPays(acked, IndexOf(send.pending, resend.value), now);
    }
    hide Resend, WithinAttempts, Remaining, TotalDataSends, CloseSends;
    assert Paid(s, resent);
    StartClosePays(resent, now);
  }

  lemma QuietReceiptPays(s: Endpoint, n: Endpoint, m: Envelope)
    requires Solvent(s)
    requires n.send == s.send && n.close == s.close
    requires n.sent == s.sent || (n.sent == s.sent + [m] && (m.Ack? || m.CloseAck?))
    ensures Paid(s, n)
  {
    CountsSnoc(s.sent, m);
  }

  /** Reading adds exactly one chunk's attempts; no other step adds anything. */
  lemma StepPays(s: Endpoint, ev: Event)
    requires SenderOk(s) && Enabled(s, ev)
    ensures ev.ReadEvent? && s.nextOutbound < U64_MAX ==>
      Budget(Step(s, ev)) + Sends(Step(s, ev)) == Budget(s) + Sends(s) + MAX_ATTEMPTS
    ensures !ev.ReadEvent? || s.nextOutbound == U64_MAX ==> Paid(s, Step(s, ev))
  {
    LinkedIsSolvent(s);
    match ev
    case ReadEvent(chunk, now) =>
      if s.nextOutbound < U64_MAX {
        var n := OnRead(s, chunk, now);
        RemainingSnoc(s.send.pending, n.send.pending[|s.send.pending|]);
        CountsSnoc(s.sent, n.sent[|s.sent|]);
      }
    case EofEvent(now) => StartClosePays(s.(readClosed := true), now);
    case TickEvent(now) => TickPays(s, now);
    case AbortEvent => QuietReceiptPays(s, Fail(s), Ack(0, []));
    case ReceiveEvent(m, now) =>
      match m {
        case Ack(next, ranges) => AckPays(s, next, ranges, now);
        case Data(sequence, payload) =>
          hide Queued, OpenAll, SackRanges;
          QuietReceiptPays(s, Step(s, ev), Report(Queued(s.inbound, sequence, payload).0));
        case Close(finalSequence) =>
          hide SackRanges;
          QuietReceiptPays(s, Step(s, ev), if finalSequence > s.inbound.expected then Report(s.inbound) else CloseAck(finalSequence));
        case CloseAck(finalSequence) => QuietReceiptPays(s, Step(s, ev), Ack(0, []));
      }
  }

  lemma PrefixIsReachable(states: seq<Channel>, actions: seq<Action>, secret: Bytes, id: Bytes, i: nat)
    requires Run(states, actions, secret, id) && i <= |actions|
    ensures Reachable(states[i])
  {
    assert Run(states[..i + 1], actions[..i], secret, id);
  }

  /** Over any stretch of a run without reads, one end sends no more than its budget at the start. */
  lemma {:induction false} SendsWithinBudget(
    states: seq<Channel>, actions: seq<Action>, secret: Bytes, id: Bytes, side: Side, first: int, last: int)
    requires Run(states, actions, secret, id) && 0 <= first <= last <= |actions|
    requires forall i :: first <= i < last && actions[i].side == side ==> !actions[i].event.ReadEvent?
    ensures 0 <= Budget(At(states[last], side))
    ensures Budget(At(states[last], side)) + Sends(At(states[last], side))
         <= Budget(At(states[first], side)) + Sends(At(states[first], side))
    decreases last - first
  {
    if first < last {
      SendsWithinBudget(states, actions, secret, id, side, first + 1, last);
      PrefixIsReachable(states, actions, secret, id, first);
      ReachableIsLinked(states[first], side);
      hide Budget, Sends, Linked;
      var c, action := states[first], actions[first];
      assert MayHappen(c, action.side, action.event) && states[first + 1] == Apply(c, action.side, action.event);
      if action.side == side {
        LinkedSender(At(c, side), At(c, Other(side)));
        StepPays(At(c, side), action.event);
      }
    } else {
      PrefixIsReachable(states, actions, secret, id, last);
      ReachableIsLinked(states[last], side);
      LinkedIsSolvent(At(states[last], side));
    }
  }

  lemma LinkedSender(s: Endpoint, r: Endpoint)
    requires Linked(s, r)
    ensures SenderOk(s)
  {
  }
}
