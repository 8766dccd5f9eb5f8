/** When a channel whose messages were all lost cannot go on: the attempts that recovery needs. */
module ChannelExhaustion {
  import opened Common
  import opened Ranges
  import opened Congestion
  import opened SecureChannel
  import opened Reorder
  import opened LossRecovery
  import opened AckHandling
  import opened Endpoint
  import opened Channel
  import opened ChannelInvariant
  import opened ChannelTheorems
  import opened ChannelProgress
  import opened ChannelRevival

  // ---- what a step adds to the network

  /** Data is answered with a report, and so would be a close that came too early. */
  ghost predicate IsAnswered(e: Endpoint, m: Envelope) {
    m.Data? || (m.Close? && m.finalSequence > e.inbound.expected)
  }

  /** The messages a step may append, by kind. */
  ghost predicate Appends(e: Endpoint, ev: Event, n: Endpoint) {
    && e.sent <= n.sent
    && (forall i :: |e.sent| <= i < |n.sent| ==>
          && (n.sent[i].Data? ==> ev.ReadEvent? || ev.TickEvent? || (ev.ReceiveEvent? && ev.message.Ack?))
          && (n.sent[i].Ack? ==> ev.ReceiveEvent? && IsAnswered(e, ev.message))
          && (n.sent[i].CloseAck? ==> ev.ReceiveEvent? && ev.message.Close?))
  }

  lemma ResendAppends(e: Endpoint, i: nat, now: Millis)
    requires i < |e.send.pending|
    ensures var n := Resend(e, i, now);
      n.inbound == e.inbound && (n.sent == e.sent || (exists m :: n.sent == e.sent + [m] && m.Data?))
  {
  }

  lemma TickAppends(e: Endpoint, now: Millis)
    ensures Appends(e, TickEvent(now), OnTick(e, now)) && OnTick(e, now).inbound == e.inbound
  {
    var i := TimedOutIndex(e.send.pending, now, e.send.rto);
    if i < |e.send.pending| {
      ResendAppends(e, i, now);
    }
    hide Resend, TimedOutIndex, Timeout;
  }

  lemma AckAppends(e: Endpoint, next: u64, ranges: seq<Range>, now: Millis)
    ensures Appends(e, ReceiveEvent(Ack(next, ranges), now), OnAck(e, next, ranges, now))
    ensures OnAck(e, next, ranges, now).inbound == e.inbound
  {
    var (send, resend) := AfterAck(e.send, next, ranges, now);
    hide AfterAck;
    var acked := e.(send := send, highestAck := Max(e.highestAck, next));
    if resend.Some? && IndexOf(send.pending, resend.value) < |send.pending| {
      ResendAppends(acked, IndexOf(send.pending, resend.value), now);
    }
    hide Resend;
  }

  /** The buffer after a packet, overflow included. */
  ghost function Stored(b: Inbound<Sealed>, sequence: int, payload: Sealed): Inbound<Sealed> {
    var n := Queued(b, sequence, payload).0;
    if n.expected > U64_MAX then Overflowed(b) else n
  }

  lemma StepAppends(e: Endpoint, ev: Event)
    requires Enabled(e, ev)
    ensures Appends(e, ev, Step(e, ev))
    ensures Step(e, ev).inbound == e.inbound ||
      (ev.ReceiveEvent? && ev.message.Data?
       && Step(e, ev).inbound == Stored(e.inbound, ev.message.sequence, ev.message.payload))
  {
    hide Queued, OpenAll, SackRanges;
    match ev
    case TickEvent(now) =>
      hide OnTick;
      TickAppends(e, now);
    case ReceiveEvent(m, now) =>
      hide OnAck;
      if m.Ack? {
        AckAppends(e, m.next, m.ranges, now);
      }
    case _ =>
  }

  // ---- counting what was sent since

  lemma {:induction false} SendsGrow(before: seq<Envelope>, sent: seq<Envelope>, sequence: int)
    requires before <= sent
    ensures DataSends(before, sequence) <= DataSends(sent, sequence)
    ensures (exists i :: |before| <= i < |sent| && sent[i].Data? && sent[i].sequence == sequence) ==>
      DataSends(before, sequence) < DataSends(sent, sequence)
    ensures CloseSends(before) <= CloseSends(sent)
    ensures (exists i :: |before| <= i < |sent| && sent[i].Close?) ==> CloseSends(before) < CloseSends(sent)
    decreases |sent|
  {
    if before != sent {
      SendsGrow(before, sent[..|sent| - 1], sequence);
    } else {
      assert before == sent;
    }
  }

  // ---- a packet the receiver lacks has to be sent

  lemma OnlyItselfIsReceived(b: Inbound<Sealed>, sequence: int, payload: Sealed, q: int)
    requires !Received(b, q) && Received(Stored(b, sequence, payload), q)
    ensures q == sequence
  {
  }

  /** Packet `q` was sent since `base`, or the receiver still lacks it. */
  ghost predicate SentOrMissing(base: Channel, c: Channel, side: Side, q: int) {
    || DataSends(At(base, side).sent, q) < DataSends(At(c, side).sent, q)
    || !Received(At(c, Other(side)).inbound, q)
  }

  lemma StepKeepsSentOrMissing(base: Channel, c: Channel, clock: Millis, a: Action, side: Side, q: int)
    requires Prefixed(base, c) && Allowed(base, c, clock, a) && SentOrMissing(base, c, side, q)
    ensures var d := Apply(c, a.side, a.event); Prefixed(base, d) && SentOrMissing(base, d, side, q)
  {
    var d := Apply(c, a.side, a.event);
    StepAppends(At(c, a.side), a.event);
    hide Step, Enabled, DataSends;
    if a.side == side {
      SendsGrow(At(c, side).sent, At(d, side).sent, q);
    } else if !Received(At(c, Other(side)).inbound, q) && Received(At(d, Other(side)).inbound, q) {
      var m := a.event.message;
      OnlyItselfIsReceived(At(c, Other(side)).inbound, m.sequence, m.payload, q);
      SendsGrow(At(base, side).sent, At(c, side).sent, q);
    }
  }

  // ---- a queue moves only by a packet the timer chooses

  /** The queue could move at the start, its end has failed, or nothing has moved. */
  ghost predicate MovableOrStill(base: Channel, start: Millis, c: Channel, side: Side) {
    || QueueCanMove(At(base, side), start)
    || At(c, side).status.Failed?
    || Still(At(base, side), At(base, Other(side)), At(c, side), At(c, Other(side)))
  }

  ghost predicate Still(s0: Endpoint, r0: Endpoint, s: Endpoint, r: Endpoint) {
    && s.send.pending == s0.send.pending && s.send.rto == s0.send.rto
    && r.inbound == r0.inbound
    && (forall i :: |s0.sent| <= i < |s.sent| ==> !s.sent[i].Data?)
    && (forall i :: |r0.sent| <= i < |r.sent| ==> !r.sent[i].Ack?)
  }

  /** A timer that finds nothing due changes nothing; one that finds a packet sends it or ends the channel. */
  lemma TickOnQueue(s: Endpoint, start: Millis, now: Millis)
    requires s.status.Running? && s.send.pending != [] && s.close.None? && s.send.rto > 0.0 && start <= now
    ensures QueueCanMove(s, start) || OnTick(s, now).status.Failed? || OnTick(s, now) == s
  {
    ChosenIsDueFirst(s.send.pending, now, s.send.rto, start);
    var i := TimedOutIndex(s.send.pending, now, s.send.rto);
    if i < |s.send.pending| && s.send.pending[i].attempts < MAX_ATTEMPTS {
      assert Sendable(s, start, i);
    }
  }

  /** Nothing but a timer or an acknowledgement touches a queue, once reading has stopped. */
  lemma QueueUntouched(s: Endpoint, ev: Event)
    requires Enabled(s, ev) && !ev.ReadEvent? && !ev.TickEvent? && !(ev.ReceiveEvent? && ev.message.Ack?)
    ensures Step(s, ev).send == s.send
  {
    hide Queued, OpenAll, SackRanges;
  }

  lemma SameQueueMoves(s: Endpoint, n: Endpoint, start: Millis)
    requires n.send.pending == s.send.pending && n.send.rto == s.send.rto
    ensures QueueCanMove(s, start) <==> QueueCanMove(n, start)
  {
    assert forall i: nat :: Sendable(s, start, i) <==> Sendable(n, start, i);
  }

  lemma SenderStaysStill(base: Channel, start: Millis, c: Channel, clock: Millis, side: Side, ev: Event)
    requires Sound(c) && Allowed(base, c, clock, Action(side, ev)) && start <= clock
    requires At(base, side).send.pending != []
    requires Still(At(base, side), At(base, Other(side)), At(c, side), At(c, Other(side)))
    ensures
      var s0, n := At(base, side), Step(At(c, side), ev);
      QueueCanMove(s0, start) || n.status.Failed? || Still(s0, At(base, Other(side)), n, At(c, Other(side)))
  {
    var s0, s := At(base, side), At(c, side);
    hide Sound;
    SoundQueue(c, side);
    SameQueueMoves(s0, s, start);
    hide QueueCanMove;
    if ev.TickEvent? {
      TickOnQueue(s, start, ev.now);
      hide OnTick;
    } else {
      StepAppends(s, ev);
      QueueUntouched(s, ev);
      hide Step;
    }
  }

  lemma SoundQueue(c: Channel, side: Side)
    requires Sound(c)
    ensures At(c, side).send.pending != [] ==> At(c, side).close.None? && At(c, side).send.rto > 0.0
  {
    PairedLinks(c, side);
    hide Sound;
  }

  lemma ReceiverStaysStill(base: Channel, c: Channel, clock: Millis, side: Side, ev: Event)
    requires Sound(c) && Allowed(base, c, clock, Action(Other(side), ev))
    requires Still(At(base, side), At(base, Other(side)), At(c, side), At(c, Other(side)))
    ensures Still(At(base, side), At(base, Other(side)), At(c, side), Step(At(c, Other(side)), ev))
  {
    var s, r := At(c, side), At(c, Other(side));
    hide Sound, Step, Linked;
    StepAppends(r, ev);
    if ev.ReceiveEvent? && ev.message.Close? {
      SentCloseFits(c, side, ev.message);
    }
  }

  lemma SentCloseFits(c: Channel, side: Side, m: Envelope)
    requires Sound(c) && m in At(c, side).sent && m.Close?
    ensures m.finalSequence <= At(c, Other(side)).inbound.expected
  {
    PairedLinks(c, side);
    assert m.finalSequence in Closes(At(c, side).sent);
  }

  // ---- a close is confirmed only after it was sent

  ghost predicate CloseSentOrOpen(base: Channel, c: Channel, side: Side) {
    || CloseSends(At(base, side).sent) < CloseSends(At(c, side).sent)
    || (&& !At(c, side).status.LeftByCloseAck?
        && forall i :: |At(base, Other(side)).sent| <= i < |At(c, Other(side)).sent| ==> !At(c, Other(side)).sent[i].CloseAck?)
  }

  lemma OnlyConfirmationLeaves(e: Endpoint, ev: Event)
    requires Enabled(e, ev) && !(ev.ReceiveEvent? && ev.message.CloseAck?)
    ensures !Step(e, ev).status.LeftByCloseAck?
  {
    hide AfterAck, Queued, OpenAll, SackRanges, TimedOutIndex;
  }

  lemma NewsIsLate(base: Endpoint, e: Endpoint, m: Envelope) returns (i: nat)
    requires m in News(base, e)
    ensures |base.sent| <= i < |e.sent| && e.sent[i] == m
  {
    var k :| 0 <= k < |News(base, e)| && News(base, e)[k] == m;
    i := |base.sent| + k;
  }

  /** At the closing end: a confirmation from before is not delivered. */
  lemma ClosingEndWaits(base: Channel, c: Channel, clock: Millis, ev: Event, side: Side)
    requires Prefixed(base, c) && Allowed(base, c, clock, Action(side, ev)) && CloseSentOrOpen(base, c, side)
    ensures CloseSentOrOpen(base, Apply(c, side, ev), side)
  {
    var s, r := At(c, side), At(c, Other(side));
    StepAppends(s, ev);
    SendsGrow(s.sent, Step(s, ev).sent, 0);
    if ev.ReceiveEvent? && ev.message.CloseAck? {
      var i := NewsIsLate(At(base, Other(side)), r, ev.message);
    } else {
      OnlyConfirmationLeaves(s, ev);
    }
    hide Step, Enabled, CloseSends;
  }

  /** At the other end: a close from before is not delivered, so none is confirmed. */
  lemma OtherEndWaits(base: Channel, c: Channel, clock: Millis, ev: Event, side: Side)
    requires Prefixed(base, c) && Allowed(base, c, clock, Action(Other(side), ev)) && CloseSentOrOpen(base, c, side)
    ensures CloseSentOrOpen(base, Apply(c, Other(side), ev), side)
  {
    var s, r := At(c, side), At(c, Other(side));
    StepAppends(r, ev);
    if ev.ReceiveEvent? && ev.message.Close? {
      var i := NewsIsLate(At(base, side), s, ev.message);
      SendsGrow(At(base, side).sent, s.sent, 0);
    }
    hide Step, Enabled, CloseSends;
  }

  // ---- along a whole continuation

  ghost predicate Kept(base: Channel, start: Millis, c: Channel, clock: Millis, side: Side, q: int) {
    && Sound(c) && Prefixed(base, c) && start <= clock
    && (!Received(At(base, Other(side)).inbound, q) ==> SentOrMissing(base, c, side, q))
    && MovableOrStill(base, start, c, side)
    && CloseSentOrOpen(base, c, side)
  }

  lemma StepKeepsQueue(base: Channel, start: Millis, c: Channel, clock: Millis, a: Action, side: Side)
    requires Sound(c) && start <= clock && Allowed(base, c, clock, a) && MovableOrStill(base, start, c, side)
    ensures MovableOrStill(base, start, Apply(c, a.side, a.event), side)
  {
    var s0, s := At(base, side), At(c, side);
    if Still(s0, At(base, Other(side)), s, At(c, Other(side))) && !QueueCanMove(s0, start) {
      if a.side == side {
        SenderStaysStill(base, start, c, clock, side, a.event);
      } else {
        ReceiverStaysStill(base, c, clock, side, a.event);
      }
    }
    hide Step, Enabled, Sound, Still, QueueCanMove;
  }

  lemma StepKeepsCloseSentOrOpen(base: Channel, c: Channel, clock: Millis, a: Action, side: Side)
    requires Prefixed(base, c) && Allowed(base, c, clock, a) && CloseSentOrOpen(base, c, side)
    ensures CloseSentOrOpen(base, Apply(c, a.side, a.event), side)
  {
    hide CloseSentOrOpen, Prefixed, Allowed, Apply;
    if a.side == side {
      ClosingEndWaits(base, c, clock, a.event, side);
    } else {
      OtherEndWaits(base, c, clock, a.event, side);
    }
  }

  lemma StepKeeps(base: Channel, start: Millis, c: Channel, clock: Millis, a: Action, side: Side, q: int)
    requires Kept(base, start, c, clock, side, q) && Allowed(base, c, clock, a)
    ensures Kept(base, start, Apply(c, a.side, a.event), EventTime(a.event, clock), side, q)
  {
    TimeGoesOn(base, c, clock, a);
    hide Sound, Prefixed, SentOrMissing, MovableOrStill, CloseSentOrOpen, Allowed, EventTime;
    var d := Move(base, c, clock, a);
    MoveIsApply(base, c, clock, a, d);
    StepStaysPrefixed(base, c, clock, a);
    if !Received(At(base, Other(side)).inbound, q) {
      StepKeepsSentOrMissing(base, c, clock, a, side, q);
    }
    StepKeepsQueue(base, start, c, clock, a, side);
    StepKeepsCloseSentOrOpen(base, c, clock, a, side);
  }

  lemma TimeGoesOn(base: Channel, c: Channel, clock: Millis, a: Action)
    requires Allowed(base, c, clock, a)
    ensures clock <= EventTime(a.event, clock)
  {
  }

  lemma MoveIsApply(base: Channel, c: Channel, clock: Millis, a: Action, d: Channel)
    requires Allowed(base, c, clock, a)
    requires At(d, a.side) == Step(At(c, a.side), a.event) && At(d, Other(a.side)) == At(c, Other(a.side))
    ensures d == Apply(c, a.side, a.event)
  {
    hide Step, Enabled;
  }

  lemma StepStaysPrefixed(base: Channel, c: Channel, clock: Millis, a: Action)
    requires Prefixed(base, c) && Allowed(base, c, clock, a)
    ensures Prefixed(base, Apply(c, a.side, a.event))
  {
    StepAppends(At(c, a.side), a.event);
    hide Step, Enabled;
  }

  lemma {:induction false} PathKeeps(
    base: Channel, start: Millis, c: Channel, clock: Millis, actions: seq<Action>, d: Channel, end: Millis, side: Side, q: int)
    requires Revives(base, c, clock, actions, d, end) && Kept(base, start, c, clock, side, q)
    ensures Kept(base, start, d, end, side, q)
    decreases |actions|
  {
    if actions != [] {
      hide Kept, Allowed;
      StepKeeps(base, start, c, clock, actions[0], side, q);
      PathKeeps(base, start, Apply(c, actions[0].side, actions[0].event), EventTime(actions[0].event, clock),
                actions[1..], d, end, side, q);
    }
  }

  lemma KeptToTheEnd(c: Channel, clock: Millis, actions: seq<Action>, d: Channel, end: Millis, side: Side, q: int)
    requires Sound(c) && BothRunning(c) && Revives(c, c, clock, actions, d, end)
    ensures Kept(c, clock, d, end, side, q)
  {
    hide Sound, Revives;
    PathKeeps(c, clock, c, clock, actions, d, end, side, q);
  }

  // ---- what a finish needs

  /** What was sent since had an attempt left. */
  lemma SentAgain(s: Endpoint, n: Endpoint, i: nat)
    requires SenderOk(s) && SenderOk(n) && i < |s.send.pending|
    requires DataSends(s.sent, s.send.pending[i].sequence) < DataSends(n.sent, s.send.pending[i].sequence)
    ensures s.send.pending[i].attempts < MAX_ATTEMPTS
  {
    var q := s.send.pending[i].sequence;
    assert s.send.pending[i] in s.send.pending;
    assert DataSends(n.sent, q) <= MAX_ATTEMPTS;
  }

  lemma MissingWasSent(
    c: Channel, clock: Millis, d: Channel, end: Millis, actions: seq<Action>, side: Side, i: nat)
    requires Sound(c) && BothRunning(c) && Revives(c, c, clock, actions, d, end)
    requires i < |At(c, side).send.pending|
    requires !Received(At(c, Other(side)).inbound, At(c, side).send.pending[i].sequence)
    requires At(d, Other(side)).written == At(c, side).read && At(d, side).read == At(c, side).read
    ensures At(c, side).send.pending[i].attempts < MAX_ATTEMPTS
  {
    var p := At(c, side).send.pending[i];
    KeptToTheEnd(c, clock, actions, d, end, side, p.sequence);
    PairedLinks(c, side);
    PairedLinks(d, side);
    hide Sound, Revives, CloseStarted, MovableOrStill, CloseSentOrOpen;
    assert p in At(c, side).send.pending;
    SentAgain(At(c, side), At(d, side), i);
  }

  lemma QueueCouldMove(c: Channel, clock: Millis, d: Channel, end: Millis, actions: seq<Action>, side: Side)
    requires Sound(c) && BothRunning(c) && Revives(c, c, clock, actions, d, end) && !At(d, side).status.Failed?
    requires At(d, side).send.pending != At(c, side).send.pending || At(d, Other(side)).inbound != At(c, Other(side)).inbound
    ensures QueueCanMove(At(c, side), clock)
  {
    KeptToTheEnd(c, clock, actions, d, end, side, 0);
    hide Sound, Revives, QueueCanMove;
  }

  lemma CloseWasSent(c: Channel, clock: Millis, d: Channel, end: Millis, actions: seq<Action>, side: Side)
    requires Sound(c) && BothRunning(c) && Revives(c, c, clock, actions, d, end)
    requires At(d, side).status.LeftByCloseAck?
    ensures CloseCanBeSent(At(c, side))
  {
    KeptToTheEnd(c, clock, actions, d, end, side, 0);
    PairedLinks(c, side);
    PairedLinks(d, side);
    hide Sound, Revives, ReceiverOk, Linked, MovableOrStill;
  }

  lemma AllMissingWereSent(c: Channel, clock: Millis, d: Channel, end: Millis, actions: seq<Action>, side: Side)
    requires Sound(c) && BothRunning(c) && Revives(c, c, clock, actions, d, end)
    requires At(d, Other(side)).written == At(c, side).read && At(d, side).read == At(c, side).read
    ensures MissingCanBeSent(At(c, side), At(c, Other(side)))
  {
    hide Sound, Revives, BothRunning;
    var s, r := At(c, side), At(c, Other(side));
    forall p | p in s.send.pending && !Received(r.inbound, p.sequence)
      ensures p.attempts < MAX_ATTEMPTS
    {
      var i :| 0 <= i < |s.send.pending| && s.send.pending[i] == p;
      MissingWasSent(c, clock, d, end, actions, side, i);
    }
  }

  lemma EndIsSound(c: Channel, clock: Millis, d: Channel, end: Millis, actions: seq<Action>)
    requires Sound(c) && BothRunning(c) && Revives(c, c, clock, actions, d, end)
    ensures Sound(d)
  {
    KeptToTheEnd(c, clock, actions, d, end, Left, 0);
    hide Sound;
  }

  lemma WrittenMeansReceived(d: Channel, side: Side)
    requires Sound(d) && At(d, Other(side)).written == At(d, side).read
    ensures At(d, Other(side)).inbound.expected == |At(d, side).read|
  {
    PairedLinks(d, side);
  }

  lemma ClosedIsDrained(d: Channel, side: Side)
    requires Sound(d) && At(d, side).status.LeftByCloseAck?
    ensures At(d, side).send.pending == []
  {
    PairedLinks(d, side);
  }

  /** A finish needs exactly those attempts. */
  lemma RevivalNeedsAttempts(c: Channel, clock: Millis, side: Side, actions: seq<Action>, d: Channel, end: Millis)
    requires Reachable(c) && BothRunning(c) && Revives(c, c, clock, actions, d, end) && Finish(c, d, side)
    ensures Revivable(c, clock, side)
  {
    ReachableIsSound(c);
    EndIsSound(c, clock, d, end, actions);
    hide Sound, Revives, BothRunning, Reachable, MissingCanBeSent, Sendable, CloseCanBeSent;
    var s, r := At(c, side), At(c, Other(side));
    AllMissingWereSent(c, clock, d, end, actions, side);
    AllMissingWereSent(c, clock, d, end, actions, Other(side));
    if s.send.pending != [] {
      ClosedIsDrained(d, side);
      QueueCouldMove(c, clock, d, end, actions, side);
    }
    if r.send.pending != [] && s.inbound.expected < |r.read| {
      WrittenMeansReceived(d, Other(side));
      QueueCouldMove(c, clock, d, end, actions, Other(side));
    }
    CloseWasSent(c, clock, d, end, actions, side);
  }

  /**
     A running channel whose messages so far are all lost can, from any moment on, be brought to an
     orderly finish without loss exactly when the attempts left suffice.
   */
  lemma RevivableExactlyWhen(c: Channel, clock: Millis, side: Side)
    requires Reachable(c) && BothRunning(c)
    ensures Revivable(c, clock, side) <==>
      exists actions, d, end :: Revives(c, c, clock, actions, d, end) && Finish(c, d, side)
  {
    hide Revivable, Revives, Finish, Reachable;
    if Revivable(c, clock, side) {
      var actions, d, end := RevivalIsPossible(c, clock, side);
    }
    if actions, d, end :| Revives(c, c, clock, actions, d, end) && Finish(c, d, side) {
      RevivalNeedsAttempts(c, clock, side, actions, d, end);
    }
  }
}
