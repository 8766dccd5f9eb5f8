/** When an endpoint may send: reads within the window, and resends no sooner than the timeout. */
module TimerLaws {
  import opened Common
  import opened Ranges
  import opened Congestion
  import opened RetransmitTimer
  import opened SecureChannel
  import opened Reorder
  import opened LossRecovery
  import opened AckHandling
  import opened Endpoint
  import opened Channel
  import opened ChannelInvariant
  import opened ChannelTheorems
  import opened ChannelBudget

  // ---- reading

  /** A chunk may be read exactly while one more packet still fits the window. */
  lemma ReadsFitTheWindow(e: Endpoint, chunk: Bytes, now: Millis)
    requires InBounds(e.send.window) && 0 < |chunk| <= MAX_PLAINTEXT
    ensures Enabled(e, ReadEvent(chunk, now)) <==>
      && e.status.Running? && !e.readClosed && e.close.None?
      && |e.send.pending| as real + 1.0 <= e.send.window.cwnd
  {
  }

  /** So reading never makes more packets outstanding than the window of that moment. */
  lemma ReadStaysInWindow(c: Channel, side: Side, chunk: Bytes, now: Millis)
    requires Reachable(c) && Enabled(At(c, side), ReadEvent(chunk, now))
    ensures
      var e := At(c, side);
      |Step(e, ReadEvent(chunk, now)).send.pending| as real <= e.send.window.cwnd
  {
    WindowAndTimerAreBounded(c, side);
    ReadsFitTheWindow(At(c, side), chunk, now);
    hide Reachable;
  }

  // ---- the timer step

  /**
     A timer that finds a packet due halves the threshold, cuts the window to two packets and doubles the
     timeout up to two seconds; one that finds only the close due doubles the timeout; and one that
     finds nothing due changes nothing.
   */
  lemma TimerStep(e: Endpoint, now: Millis)
    requires e.status.Running? && RtoInBounds(e.send.rto)
    ensures
      var n := OnTick(e, now);
      var due := exists i :: 0 <= i < |e.send.pending| && TimedOut(e.send.pending[i], now, e.send.rto);
      && (due && n.status.Running? ==>
           n.send.window == Window(2.0, MaxR(2.0, MinR(32.0, |e.send.pending| as real / 2.0)), None))
      && (!due ==> n.send.window == e.send.window)
      && ((due || CloseDue(e, now)) && n.status.Running? ==> n.send.rto == MinR(2.0 * e.send.rto, 2000.0))
      && (!due && !CloseDue(e, now) ==> n == e)
  {
    var i := TimedOutIndex(e.send.pending, now, e.send.rto);
    if i < |e.send.pending| {
      ResendLeaves(e, i, now);
    }
    hide Resend;
  }

  lemma ResendLeaves(e: Endpoint, i: nat, now: Millis)
    requires i < |e.send.pending|
    ensures var n := Resend(e, i, now);
      n.send.window == e.send.window && n.send.rto == e.send.rto && n.close == e.close
  {
  }

  // ---- what is sent starts its clock

  /** A packet, or a close, last sent at `now` does not time out before the timeout has passed. */
  lemma FreshDoesNotTimeOut(lastSentAt: Millis, now: Millis, rto: Millis, t: Millis)
    requires now <= lastSentAt && now <= t < now + rto
    ensures Elapsed(t, lastSentAt) < rto
  {
  }

  /** Something in the queue carries this number and was last sent at `now`. */
  ghost predicate ClockStarted(e: Endpoint, sequence: int, now: Millis) {
    exists p :: p in e.send.pending && p.sequence == sequence && p.lastSentAt == now
  }

  lemma ResendStartsClock(e: Endpoint, i: nat, now: Millis)
    requires i < |e.send.pending| && e.status.Running?
    ensures var n := Resend(e, i, now);
      n.status.Running? ==>
        && ClockStarted(n, e.send.pending[i].sequence, now)
        && n.sent == e.sent + [Data(e.send.pending[i].sequence, e.send.pending[i].payload)]
    ensures Resend(e, i, now).status.Running? || Resend(e, i, now).sent == e.sent
    ensures Resend(e, i, now).status.Running? || Resend(e, i, now).status.Failed?
  {
    var n := Resend(e, i, now);
    if n.status.Running? {
      assert n.send.pending[i] in n.send.pending;
    }
  }

  lemma TickStartsClock(e: Endpoint, now: Millis, k: nat)
    requires e.status.Running?
    ensures
      var n := OnTick(e, now);
      n.status.Running? && |e.sent| <= k < |n.sent| && n.sent[k].Data? ==>
        var i := TimedOutIndex(e.send.pending, now, e.send.rto);
        i < |e.send.pending| && n.sent[k].sequence == e.send.pending[i].sequence && ClockStarted(n, n.sent[k].sequence, now)
  {
    var i := TimedOutIndex(e.send.pending, now, e.send.rto);
    if i < |e.send.pending| {
      ResendStartsClock(e, i, now);
      ResendLeaves(e, i, now);
    }
    hide Resend, TimedOutIndex, Timeout, Backoff;
  }

  lemma AckStartsClock(e: Endpoint, next: u64, ranges: seq<Range>, now: Millis, k: nat)
    requires e.status.Running?
    ensures
      var n := OnAck(e, next, ranges, now);
      n.status.Running? && |e.sent| <= k < |n.sent| && n.sent[k].Data? ==> ClockStarted(n, n.sent[k].sequence, now)
  {
    var (send, resend) := AfterAck(e.send, next, ranges, now);
    hide AfterAck;
    var acked := e.(send := send, highestAck := Max(e.highestAck, next));
    if resend.Some? && IndexOf(send.pending, resend.value) < |send.pending| {
      ResendStartsClock(acked, IndexOf(send.pending, resend.value), now);
    }
    hide Resend, IndexOf;
  }

  /** Whatever step sends a packet, for the first time or again, starts the packet's clock. */
  lemma SendingStartsClock(e: Endpoint, ev: Event, k: nat)
    requires Enabled(e, ev) && !ev.AbortEvent? && Step(e, ev).status.Running?
    requires |e.sent| <= k < |Step(e, ev).sent| && Step(e, ev).sent[k].Data?
    ensures ClockStarted(Step(e, ev), Step(e, ev).sent[k].sequence, ev.now)
  {
    match ev
    case ReadEvent(chunk, now) =>
      var n := OnRead(e, chunk, now);
      assert n.send.pending[|e.send.pending|] in n.send.pending;
    case TickEvent(now) =>
      TickStartsClock(e, now, k);
      hide OnTick;
    case ReceiveEvent(m, now) =>
      hide OnAck, Queued, OpenAll, SackRanges;
      if m.Ack? {
        AckStartsClock(e, m.next, m.ranges, now, k);
      }
    case _ =>
  }

  /** And so does whatever step sends a close. */
  lemma SendingStartsCloseClock(e: Endpoint, ev: Event, k: nat)
    requires Enabled(e, ev) && !ev.AbortEvent? && Step(e, ev).status.Running?
    requires |e.sent| <= k < |Step(e, ev).sent| && Step(e, ev).sent[k].Close?
    ensures var n := Step(e, ev);
      n.close.Some? && n.close.value.lastSentAt == ev.now
  {
    match ev
    case TickEvent(now) =>
      var i := TimedOutIndex(e.send.pending, now, e.send.rto);
      if i < |e.send.pending| {
        ResendStartsClock(e, i, now);
      }
      hide Resend, TimedOutIndex, Timeout, Backoff;
    case ReceiveEvent(m, now) =>
      hide Queued, OpenAll, SackRanges;
      if m.Ack? {
        AckSendsClose(e, m.next, m.ranges, now, k);
        hide OnAck;
      }
    case _ =>
  }

  lemma AckSendsClose(e: Endpoint, next: u64, ranges: seq<Range>, now: Millis, k: nat)
    requires e.status.Running?
    ensures
      var n := OnAck(e, next, ranges, now);
      n.status.Running? && |e.sent| <= k < |n.sent| && n.sent[k].Close? ==>
        n.close.Some? && n.close.value.lastSentAt == now
  {
    var (send, resend) := AfterAck(e.send, next, ranges, now);
    hide AfterAck;
    var acked := e.(send := send, highestAck := Max(e.highestAck, next));
    if resend.Some? && IndexOf(send.pending, resend.value) < |send.pending| {
      ResendStartsClock(acked, IndexOf(send.pending, resend.value), now);
    }
    hide Resend, IndexOf;
  }

  /** So nothing just sent is due again before the timeout then in force has passed. */
  lemma JustSentIsNotDue(e: Endpoint, ev: Event, k: nat, t: Millis)
    requires Enabled(e, ev) && !ev.AbortEvent? && Step(e, ev).status.Running?
    requires |e.sent| <= k < |Step(e, ev).sent| && ev.now <= t < ev.now + Step(e, ev).send.rto
    ensures
      var n := Step(e, ev);
      && (n.sent[k].Data? ==>
           exists p :: p in n.send.pending && p.sequence == n.sent[k].sequence && !TimedOut(p, t, n.send.rto))
      && (n.sent[k].Close? ==> n.close.Some? && !CloseDue(n, t))
  {
    var n := Step(e, ev);
    if n.sent[k].Data? {
      SendingStartsClock(e, ev, k);
      hide Step, Enabled;
      var p :| p in n.send.pending && p.sequence == n.sent[k].sequence && p.lastSentAt == ev.now;
      FreshDoesNotTimeOut(p.lastSentAt, ev.now, n.send.rto, t);
    } else if n.sent[k].Close? {
      SendingStartsCloseClock(e, ev, k);
    }
    hide Step, Enabled;
  }

  // ---- over a run

  /** Packet `q` has been numbered, and if it is queued it was last sent at `from` or later. */
  ghost predicate SentNotBefore(e: Endpoint, q: int, from: Millis) {
    e.status.Running? ==> q < e.nextOutbound && forall p :: p in e.send.pending && p.sequence == q ==> from <= p.lastSentAt
  }

  ghost predicate CloseNotBefore(e: Endpoint, from: Millis) {
    e.status.Running? ==> e.close.Some? && from <= e.close.value.lastSentAt
  }

  ghost predicate NotBefore(ev: Event, from: Millis) { !ev.AbortEvent? ==> from <= ev.now }

  lemma ResendNotBefore(e: Endpoint, i: nat, now: Millis, q: int, from: Millis)
    requires SentNotBefore(e, q, from) && i < |e.send.pending| && from <= now
    ensures SentNotBefore(Resend(e, i, now), q, from) && Resend(e, i, now).close.Some? == e.close.Some?
    ensures CloseNotBefore(e, from) ==> CloseNotBefore(Resend(e, i, now), from)
    ensures Resend(e, i, now).status.Running? ==> e.status.Running?
  {
  }

  lemma TickNotBefore(e: Endpoint, now: Millis, q: int, from: Millis)
    requires e.status.Running? && from <= now
    ensures SentNotBefore(e, q, from) ==> SentNotBefore(OnTick(e, now), q, from)
    ensures CloseNotBefore(e, from) ==> CloseNotBefore(OnTick(e, now), from)
  {
    var i := TimedOutIndex(e.send.pending, now, e.send.rto);
    if i < |e.send.pending| {
      if SentNotBefore(e, q, from) {
        ResendNotBefore(e, i, now, q, from);
      }
      ResendLeaves(e, i, now);
      ResendStartsClock(e, i, now);
    }
    hide Resend, TimedOutIndex, Timeout, Backoff;
  }

  lemma AckNotBefore(e: Endpoint, next: u64, ranges: seq<Range>, now: Millis, q: int, from: Millis)
    requires e.status.Running? && from <= now
    ensures SentNotBefore(e, q, from) ==> SentNotBefore(OnAck(e, next, ranges, now), q, from)
    ensures CloseNotBefore(e, from) ==> CloseNotBefore(OnAck(e, next, ranges, now), from)
  {
    var (send, resend) := AfterAck(e.send, next, ranges, now);
    KeepMembers(e.send.pending, next, SackedAfter(e.send.sacked, next, ranges));
    KeptIsQueue(e.send, next, ranges, now);
    hide AfterAck;
    var acked := e.(send := send, highestAck := Max(e.highestAck, next));
    if resend.Some? && IndexOf(send.pending, resend.value) < |send.pending| {
      var i := IndexOf(send.pending, resend.value);
      if SentNotBefore(acked, q, from) {
        ResendNotBefore(acked, i, now, q, from);
      }
      ResendLeaves(acked, i, now);
      ResendStartsClock(acked, i, now);
    }
    hide Resend, IndexOf;
  }

  lemma KeptIsQueue(s: SendState, next: int, ranges: seq<Range>, now: Millis)
    ensures AfterAck(s, next, ranges, now).0.pending == Keep(s.pending, next, SackedAfter(s.sacked, next, ranges))
  {
  }

  lemma StepNotBefore(e: Endpoint, ev: Event, q: int, from: Millis)
    requires Enabled(e, ev) && NotBefore(ev, from)
    ensures SentNotBefore(e, q, from) ==> SentNotBefore(Step(e, ev), q, from)
    ensures CloseNotBefore(e, from) ==> CloseNotBefore(Step(e, ev), from)
  {
    match ev
    case TickEvent(now) =>
      TickNotBefore(e, now, q, from);
      hide OnTick;
    case ReceiveEvent(m, now) =>
      hide OnAck, Queued, OpenAll, SackRanges;
      if m.Ack? {
        AckNotBefore(e, m.next, m.ranges, now, q, from);
      }
    case _ =>
  }

  /** Item `k` is a packet with the number `q` that the step from `e` to `n` sent. */
  ghost predicate NewData(e: Endpoint, n: Endpoint, k: nat, q: int) {
    |e.sent| <= k < |n.sent| && n.sent[k].Data? && n.sent[k].sequence == q
  }

  ghost predicate NewClose(e: Endpoint, n: Endpoint, k: nat) {
    |e.sent| <= k < |n.sent| && n.sent[k].Close?
  }

  ghost predicate SendsData(e: Endpoint, n: Endpoint, q: int) { exists k :: NewData(e, n, k, q) }

  ghost predicate SendsClose(e: Endpoint, n: Endpoint) { exists k :: NewClose(e, n, k) }

  /** Step `i` of the run is a step of `side` at `now` that sends a packet with the number `q`. */
  ghost predicate SendsAt(states: seq<Channel>, actions: seq<Action>, side: Side, i: nat, q: int, now: Millis) {
    && i < |actions| && i + 1 < |states| && actions[i].side == side && !actions[i].event.AbortEvent?
    && actions[i].event.now == now
    && SendsData(At(states[i], side), At(states[i + 1], side), q)
  }

  ghost predicate SendsCloseAt(states: seq<Channel>, actions: seq<Action>, side: Side, i: nat, now: Millis) {
    && i < |actions| && i + 1 < |states| && actions[i].side == side && !actions[i].event.AbortEvent?
    && actions[i].event.now == now
    && SendsClose(At(states[i], side), At(states[i + 1], side))
  }

  /** From step `i` on the clock of `side` does not go back before the time of that step. */
  ghost predicate ClockHolds(actions: seq<Action>, side: Side, i: nat, now: Millis) {
    forall a :: i < a < |actions| && actions[a].side == side ==> NotBefore(actions[a].event, now)
  }

  lemma StepOfRun(states: seq<Channel>, actions: seq<Action>, secret: Bytes, id: Bytes, side: Side, i: nat)
    requires Run(states, actions, secret, id) && i < |actions|
    ensures |states| == |actions| + 1
    ensures SenderOk(At(states[i], side)) && SenderOk(At(states[i + 1], side))
    ensures actions[i].side == side ==>
      && Enabled(At(states[i], side), actions[i].event)
      && At(states[i + 1], side) == Step(At(states[i], side), actions[i].event)
    ensures actions[i].side != side ==> At(states[i + 1], side) == At(states[i], side)
  {
    PrefixIsReachable(states, actions, secret, id, i);
    PrefixIsReachable(states, actions, secret, id, i + 1);
    ReachableIsLinked(states[i], side);
    ReachableIsLinked(states[i + 1], side);
    hide SenderOk, ReceiverOk, ReportsOk, AckOk, CloseOk, Reachable, Step, Enabled;
  }

  lemma {:induction false} StaysNotBefore(
    states: seq<Channel>, actions: seq<Action>, secret: Bytes, id: Bytes, side: Side, i: nat, k: nat, q: int, now: Millis)
    requires Run(states, actions, secret, id) && i < k <= |actions| && ClockHolds(actions, side, i, now)
    ensures |states| == |actions| + 1
    ensures SentNotBefore(At(states[i + 1], side), q, now) ==> SentNotBefore(At(states[k], side), q, now)
    ensures CloseNotBefore(At(states[i + 1], side), now) ==> CloseNotBefore(At(states[k], side), now)
    decreases k
  {
    hide Run, SentNotBefore, CloseNotBefore, SenderOk, Step, Enabled, NotBefore;
    StepOfRun(states, actions, secret, id, side, k - 1);
    if i + 1 < k {
      StaysNotBefore(states, actions, secret, id, side, i, k - 1, q, now);
      if actions[k - 1].side == side {
        StepNotBefore(At(states[k - 1], side), actions[k - 1].event, q, now);
      }
    }
  }

  lemma SenderNumbersQueue(e: Endpoint, q: int, now: Millis)
    requires SenderOk(e) && ClockStarted(e, q, now)
    ensures SentNotBefore(e, q, now)
  {
    var p :| p in e.send.pending && p.sequence == q && p.lastSentAt == now;
    assert IsSealedChunk(e, p.sequence, p.payload);
  }

  lemma SentIsNotBefore(states: seq<Channel>, actions: seq<Action>, secret: Bytes, id: Bytes, side: Side, i: nat, q: int, now: Millis)
    requires Run(states, actions, secret, id) && SendsAt(states, actions, side, i, q, now)
    ensures SentNotBefore(At(states[i + 1], side), q, now)
  {
    StepOfRun(states, actions, secret, id, side, i);
    hide Run, SenderOk;
    var e, ev := At(states[i], side), actions[i].event;
    var k :| NewData(e, At(states[i + 1], side), k, q);
    if Step(e, ev).status.Running? {
      SendingStartsClock(e, ev, k);
      hide Step, Enabled;
      SenderNumbersQueue(At(states[i + 1], side), q, now);
    }
  }

  /**
     Whenever the timer sends a packet that was sent before, whatever happened in between, at least the
     timeout in force has passed since, and so at least 120 milliseconds.
   */
  lemma TimerSendsAreApart(
    states: seq<Channel>, actions: seq<Action>, secret: Bytes, id: Bytes, side: Side,
    i: nat, k: nat, q: int, first: Millis, second: Millis)
    requires Run(states, actions, secret, id) && i < k
    requires SendsAt(states, actions, side, i, q, first) && ClockHolds(actions, side, i, first)
    requires SendsAt(states, actions, side, k, q, second) && actions[k].event.TickEvent?
    requires At(states[k + 1], side).status.Running?
    ensures first + At(states[k], side).send.rto <= second && first + 120.0 <= second
  {
    SentIsNotBefore(states, actions, secret, id, side, i, q, first);
    StaysNotBefore(states, actions, secret, id, side, i, k, q, first);
    StepOfRun(states, actions, secret, id, side, k);
    hide Run;
    var e := At(states[k], side);
    TickIsLate(e, second, q, first, At(states[k + 1], side));
    hide SenderOk, SentNotBefore;
  }

  lemma TickIsLate(e: Endpoint, now: Millis, q: int, from: Millis, n: Endpoint)
    requires SenderOk(e) && e.status.Running? && SentNotBefore(e, q, from) && n == OnTick(e, now) && n.status.Running?
    requires SendsData(e, n, q)
    ensures from + e.send.rto <= now && 120.0 <= e.send.rto
  {
    var k :| NewData(e, n, k, q);
    TickStartsClock(e, now, k);
    var i := TimedOutIndex(e.send.pending, now, e.send.rto);
    assert e.send.pending[i] in e.send.pending && TimedOut(e.send.pending[i], now, e.send.rto);
    hide OnTick;
  }

  lemma CloseTickIsLate(e: Endpoint, now: Millis, from: Millis, n: Endpoint)
    requires SenderOk(e) && e.status.Running? && CloseNotBefore(e, from) && n == OnTick(e, now) && n.status.Running?
    requires SendsClose(e, n)
    ensures from + e.send.rto <= now && 120.0 <= e.send.rto
  {
    assert CloseDue(e, now);
    hide OnTick;
  }

  /** The same for the close. */
  lemma TimerClosesAreApart(
    states: seq<Channel>, actions: seq<Action>, secret: Bytes, id: Bytes, side: Side,
    i: nat, k: nat, first: Millis, second: Millis)
    requires Run(states, actions, secret, id) && i < k
    requires SendsCloseAt(states, actions, side, i, first) && ClockHolds(actions, side, i, first)
    requires SendsCloseAt(states, actions, side, k, second) && actions[k].event.TickEvent?
    requires At(states[k + 1], side).status.Running?
    ensures first + At(states[k], side).send.rto <= second && first + 120.0 <= second
  {
    CloseIsNotBefore(states, actions, secret, id, side, i, first);
    StaysNotBefore(states, actions, secret, id, side, i, k, 0, first);
    StepOfRun(states, actions, secret, id, side, k);
    hide Run;
    CloseTickIsLate(At(states[k], side), second, first, At(states[k + 1], side));
    hide SenderOk, CloseNotBefore;
  }

  lemma CloseIsNotBefore(states: seq<Channel>, actions: seq<Action>, secret: Bytes, id: Bytes, side: Side, i: nat, now: Millis)
    requires Run(states, actions, secret, id) && SendsCloseAt(states, actions, side, i, now)
    ensures CloseNotBefore(At(states[i + 1], side), now)
  {
    StepOfRun(states, actions, secret, id, side, i);
    hide Run, SenderOk;
    var e, ev := At(states[i], side), actions[i].event;
    var k :| NewClose(e, At(states[i + 1], side), k);
    if Step(e, ev).status.Running? {
      SendingStartsCloseClock(e, ev, k);
    }
    hide Step, Enabled;
  }
}
