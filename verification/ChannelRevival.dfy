/** Recovery from a network that has lost everything sent so far: only the timers can go on. */
module ChannelRevival {
  import opened Common
  import opened Ranges
  import opened Reorder
  import opened LossRecovery
  import opened AckHandling
  import opened AckProperties
  import opened Endpoint
  import opened Channel
  import opened ChannelInvariant
  import opened ChannelReceipts
  import opened ChannelTheorems
  import opened ChannelProgress

  /** What an end has sent since `base`. */
  ghost function News(base: Endpoint, e: Endpoint): seq<Envelope> {
    if |base.sent| <= |e.sent| then e.sent[|base.sent|..] else []
  }

  ghost predicate Prefixed(base: Channel, c: Channel) {
    base.left.sent <= c.left.sent && base.right.sent <= c.right.sent
  }

  function EventTime(ev: Event, clock: Millis): Millis {
    match ev
    case AbortEvent => clock
    case _ => ev.now
  }

  /** A step not before `clock` in a network that delivers nothing sent before `base`; nothing is read. */
  ghost predicate Allowed(base: Channel, c: Channel, clock: Millis, a: Action) {
    && MayHappen(c, a.side, a.event)
    && clock <= EventTime(a.event, clock)
    && match a.event
       case ReadEvent(_, _) => false
       case ReceiveEvent(m, _) => m in News(At(base, Other(a.side)), At(c, Other(a.side)))
       case _ => true
  }

  /** Such steps, one after another, from `clock` until `end`. */
  ghost predicate Revives(base: Channel, c: Channel, clock: Millis, actions: seq<Action>, d: Channel, end: Millis)
    decreases |actions|
  {
    if actions == [] then d == c && end == clock
    else
      && Allowed(base, c, clock, actions[0])
      && Revives(base, Apply(c, actions[0].side, actions[0].event), EventTime(actions[0].event, clock), actions[1..], d, end)
  }

  /** Everything that was read has been written, and both ends have left in an orderly way. */
  ghost predicate Finish(c: Channel, d: Channel, side: Side) {
    && At(d, side).status.LeftByCloseAck? && At(d, Other(side)).status.LeftByPeerClose?
    && d.left.read == c.left.read && d.right.read == c.right.read
    && d.left.written == c.right.read && d.right.written == c.left.read
  }

  // ---- the attempts it takes

  /** Every packet the receiver lacks may still be sent. */
  ghost predicate MissingCanBeSent(s: Endpoint, r: Endpoint) {
    forall p :: p in s.send.pending && !Received(r.inbound, p.sequence) ==> p.attempts < MAX_ATTEMPTS
  }

  /** The earliest moment from `clock` on at which packet `i` has timed out. */
  function DueTime(q: seq<Pending>, i: nat, rto: Millis, clock: Millis): Millis
    requires i < |q|
  {
    MaxR(clock, q[i].lastSentAt + rto)
  }

  /** At that moment no packet ahead of it has timed out. */
  predicate DueFirst(q: seq<Pending>, i: nat, rto: Millis, clock: Millis)
    requires i < |q|
  {
    forall j :: 0 <= j < i ==> DueTime(q, i, rto, clock) < q[j].lastSentAt + rto
  }

  /** The timer can choose packet `i`, and it may still be sent. */
  predicate Sendable(e: Endpoint, clock: Millis, i: nat) {
    i < |e.send.pending| && e.send.pending[i].attempts < MAX_ATTEMPTS && DueFirst(e.send.pending, i, e.send.rto, clock)
  }

  predicate QueueCanMove(e: Endpoint, clock: Millis) {
    e.send.pending != [] ==> exists i :: 0 <= i < |e.send.pending| && Sendable(e, clock, i)
  }

  predicate CloseCanBeSent(e: Endpoint) { e.close.Some? ==> e.close.value.attempts < MAX_ATTEMPTS }

  /**
     The attempts left suffice: for every packet the peer lacks; for some packet the timer can choose in
     each queue that has to move, which is that of the end that closes, and the other's if the closing
     end lacks something; and for a close that was sent before.
   */
  ghost predicate Revivable(c: Channel, clock: Millis, side: Side) {
    var s, r := At(c, side), At(c, Other(side));
    && MissingCanBeSent(s, r) && QueueCanMove(s, clock) && CloseCanBeSent(s)
    && MissingCanBeSent(r, s)
    && (s.inbound.expected < |r.read| ==> QueueCanMove(r, clock))
  }

  // ---- the packet the timer chooses

  lemma DueFirstIsChosen(q: seq<Pending>, i: nat, rto: Millis, clock: Millis)
    requires i < |q| && rto > 0.0 && DueFirst(q, i, rto, clock)
    ensures TimedOutIndex(q, DueTime(q, i, rto, clock), rto) == i
  {
  }

  lemma ChosenIsDueFirst(q: seq<Pending>, now: Millis, rto: Millis, clock: Millis)
    requires rto > 0.0 && clock <= now
    ensures var i := TimedOutIndex(q, now, rto);
      i < |q| ==> DueFirst(q, i, rto, clock)
  {
  }

  /** A packet that is due first stays so until it is due. */
  lemma StaysDueFirst(q: seq<Pending>, i: nat, rto: Millis, clock: Millis, later: Millis)
    requires i < |q| && DueFirst(q, i, rto, clock) && clock <= later <= DueTime(q, i, rto, clock)
    ensures DueFirst(q, i, rto, later) && DueTime(q, i, rto, later) == DueTime(q, i, rto, clock)
  {
  }

  // ---- continuing

  lemma {:induction false} RevivesOn(
    base: Channel, c: Channel, clock: Millis, first: seq<Action>, d: Channel, middle: Millis,
    rest: seq<Action>, e: Channel, end: Millis)
    requires Revives(base, c, clock, first, d, middle) && Revives(base, d, middle, rest, e, end)
    ensures Revives(base, c, clock, first + rest, e, end)
    decreases |first|
  {
    if first == [] {
      assert first + rest == rest;
    } else {
      assert (first + rest)[1..] == first[1..] + rest;
      hide Allowed;
      RevivesOn(base, Apply(c, first[0].side, first[0].event), EventTime(first[0].event, clock), first[1..],
                d, middle, rest, e, end);
    }
  }

  lemma NothingDone(base: Channel, c: Channel, clock: Millis)
    ensures Revives(base, c, clock, [], c, clock)
  {
  }

  lemma Move(base: Channel, c: Channel, clock: Millis, a: Action) returns (d: Channel)
    requires Sound(c) && Allowed(base, c, clock, a)
    ensures Sound(d) && Revives(base, c, clock, [a], d, EventTime(a.event, clock))
    ensures At(d, a.side) == Step(At(c, a.side), a.event) && At(d, Other(a.side)) == At(c, Other(a.side))
  {
    hide Sound;
    d := OneStep(c, a.side, a.event);
    hide Step, Allowed;
    assert [a][1..] == [];
    NothingDone(base, d, EventTime(a.event, clock));
    assert d == Apply(c, a.side, a.event);
  }

  /** Both ends run, and nothing sent since `base` is forgotten. */
  ghost predicate Alive(base: Channel, c: Channel) { Sound(c) && BothRunning(c) && Prefixed(base, c) }

  lemma AliveAt(base: Channel, c: Channel, side: Side)
    requires Alive(base, c)
    ensures Sound(c) && At(c, side).status.Running? && At(c, Other(side)).status.Running?
    ensures At(base, side).sent <= At(c, side).sent && At(base, Other(side)).sent <= At(c, Other(side)).sent
    ensures Linked(At(c, side), At(c, Other(side)))
  {
  }

  lemma StaysAlive(base: Channel, c: Channel, d: Channel, side: Side)
    requires Alive(base, c) && Sound(d) && At(d, Other(side)) == At(c, Other(side))
    requires At(d, side).status.Running? && At(c, side).sent <= At(d, side).sent
    ensures Alive(base, d)
  {
  }

  /** The last message of an end is news. */
  lemma LastIsNews(base: Endpoint, before: Endpoint, e: Endpoint, m: Envelope)
    requires base.sent <= before.sent && e.sent == before.sent + [m]
    ensures m in News(base, e)
  {
    assert News(base, e)[|before.sent| - |base.sent|] == m;
  }

  lemma NewsStays(base: Endpoint, e: Endpoint, n: Endpoint, m: Envelope)
    requires base.sent <= e.sent <= n.sent && m in News(base, e)
    ensures m in News(base, n) && m in e.sent
  {
    var k :| 0 <= k < |News(base, e)| && News(base, e)[k] == m;
    assert News(base, n)[k] == m && e.sent[|base.sent| + k] == m;
  }

  lemma ArrivalIsAllowed(base: Channel, c: Channel, clock: Millis, side: Side, m: Envelope)
    requires At(c, side).status.Running? && At(base, Other(side)).sent <= At(c, Other(side)).sent
    requires m in News(At(base, Other(side)), At(c, Other(side)))
    ensures Allowed(base, c, clock, Action(side, ReceiveEvent(m, clock)))
    ensures Step(At(c, side), ReceiveEvent(m, clock)) == OnMessage(At(c, side), m, clock)
  {
    hide OnMessage;
    NewsStays(At(base, Other(side)), At(c, Other(side)), At(c, Other(side)), m);
  }

  lemma TickIsAllowed(base: Channel, c: Channel, clock: Millis, side: Side, now: Millis)
    requires At(c, side).status.Running? && clock <= now
    requires At(c, side).send.pending != [] || At(c, side).close.Some?
    ensures Allowed(base, c, clock, Action(side, TickEvent(now)))
    ensures Step(At(c, side), TickEvent(now)) == OnTick(At(c, side), now)
  {
    hide OnTick;
  }

  /** News of one end may arrive at the other at once. */
  lemma Arrive(base: Channel, c: Channel, clock: Millis, side: Side, m: Envelope)
    returns (actions: seq<Action>, d: Channel)
    requires Sound(c) && At(c, side).status.Running? && At(base, Other(side)).sent <= At(c, Other(side)).sent
    requires m in News(At(base, Other(side)), At(c, Other(side)))
    ensures Sound(d) && Revives(base, c, clock, actions, d, clock)
    ensures At(d, side) == OnMessage(At(c, side), m, clock) && At(d, Other(side)) == At(c, Other(side))
  {
    hide Sound, OnMessage, Revives, Allowed, Step, News;
    ArrivalIsAllowed(base, c, clock, side, m);
    actions := [Action(side, ReceiveEvent(m, clock))];
    d := Move(base, c, clock, Action(side, ReceiveEvent(m, clock)));
  }

  /** The timer may fire at any later moment. */
  lemma Tick(base: Channel, c: Channel, clock: Millis, side: Side, now: Millis)
    returns (actions: seq<Action>, d: Channel)
    requires Alive(base, c) && clock <= now
    requires At(c, side).send.pending != [] || At(c, side).close.Some?
    ensures Sound(d) && Revives(base, c, clock, actions, d, now)
    ensures At(d, side) == OnTick(At(c, side), now) && At(d, Other(side)) == At(c, Other(side))
  {
    AliveAt(base, c, side);
    hide Alive, Sound, Linked, OnTick, Revives, Allowed, Step;
    TickIsAllowed(base, c, clock, side, now);
    actions := [Action(side, TickEvent(now))];
    d := Move(base, c, clock, Action(side, TickEvent(now)));
  }

  // ---- what a step of the recovery changes

  ghost predicate Later(e: Endpoint, n: Endpoint) {
    && n.read == e.read && e.sent <= n.sent
    && forall q :: Received(e.inbound, q) ==> Received(n.inbound, q)
  }

  /** At the end whose queue moves. */
  ghost predicate Moved(s: Endpoint, n: Endpoint) {
    && Later(s, n) && n.inbound == s.inbound
    && s.send.pending != [] && |n.send.pending| < |s.send.pending|
    && n.send.window.recovery.None? && CloseCanBeSent(n)
  }

  /** And at the other. */
  ghost predicate Heard(r: Endpoint, n: Endpoint) {
    Later(r, n) && n.send == r.send && n.close == r.close
  }

  ghost predicate FrontIsMissing(s: Endpoint, r: Endpoint) {
    s.send.pending != [] ==> !Received(r.inbound, s.send.pending[0].sequence)
  }

  // ---- a packet is sent

  /** The timer sends packet `i` again and ends any recovery. */
  ghost predicate PacketResent(s: Endpoint, i: nat, n: Endpoint) {
    && i < |s.send.pending| && n.send.window.recovery.None?
    && (exists p :: n.send.pending == s.send.pending[i := p] && p.sequence == s.send.pending[i].sequence)
    && n.sent == s.sent + [Data(s.send.pending[i].sequence, s.send.pending[i].payload)]
    && n.(send := s.send, sent := s.sent) == s
  }

  lemma TickResends(s: Endpoint, i: nat, now: Millis)
    requires s.status.Running? && s.close.None? && i < |s.send.pending|
    requires TimedOutIndex(s.send.pending, now, s.send.rto) == i && s.send.pending[i].attempts < MAX_ATTEMPTS
    ensures PacketResent(s, i, OnTick(s, now))
  {
    var p := s.send.pending[i];
    assert OnTick(s, now).send.pending == s.send.pending[i := p.(attempts := p.attempts + 1, lastSentAt := now)];
  }

  lemma QueuedEnd(s: Endpoint, r: Endpoint)
    requires Linked(s, r) && s.send.pending != []
    ensures s.close.None? && s.send.pending[0].sequence == s.highestAck <= r.inbound.expected
    ensures s.send.rto > 0.0 && Sorted(s.send.pending)
    ensures FrontIsMissing(s, r) <==> s.send.pending[0].sequence == r.inbound.expected
  {
    assert s.send.pending[0] in s.send.pending;
  }

  lemma ResentMeans(s: Endpoint, i: nat, n: Endpoint)
    requires PacketResent(s, i, n)
    ensures Later(s, n) && n.status == s.status && n.inbound == s.inbound && n.close == s.close
    ensures |n.send.pending| == |s.send.pending| && n.send.pending[0].sequence == s.send.pending[0].sequence
    ensures n.send.window.recovery.None?
  {
  }

  lemma SendPacket(base: Channel, c: Channel, clock: Millis, side: Side, i: nat)
    returns (actions: seq<Action>, d: Channel, now: Millis, m: Envelope)
    requires Alive(base, c) && Sendable(At(c, side), clock, i)
    ensures Alive(base, d) && Revives(base, c, clock, actions, d, now)
    ensures now == DueTime(At(c, side).send.pending, i, At(c, side).send.rto, clock)
    ensures PacketResent(At(c, side), i, At(d, side)) && At(d, Other(side)) == At(c, Other(side))
    ensures m in News(At(base, side), At(d, side)) && m.Data? && m.sequence == At(c, side).send.pending[i].sequence
  {
    var s := At(c, side);
    AliveAt(base, c, side);
    hide Alive, Sound, Linked, Revives, OnTick, PacketResent, Later;
    QueuedEnd(s, At(c, Other(side)));
    now := DueTime(s.send.pending, i, s.send.rto, clock);
    DueFirstIsChosen(s.send.pending, i, s.send.rto, clock);
    hide DueFirst, DueTime;
    TickResends(s, i, now);
    actions, d := Tick(base, c, clock, side, now);
    m := Data(s.send.pending[i].sequence, s.send.pending[i].payload);
    ResentIsNews(At(base, side), s, i, At(d, side), m);
    ResentMeans(s, i, At(d, side));
    StaysAlive(base, c, d, side);
  }

  lemma ResentIsNews(base: Endpoint, s: Endpoint, i: nat, n: Endpoint, m: Envelope)
    requires base.sent <= s.sent && PacketResent(s, i, n)
    requires m == Data(s.send.pending[i].sequence, s.send.pending[i].payload)
    ensures m in News(base, n) && s.sent <= n.sent
  {
    LastIsNews(base, s, n, m);
  }

  // ---- it arrives and is answered

  /** The receiver answers: what it has only grows, and its report comes last. */
  ghost predicate Replied(r: Endpoint, n: Endpoint) {
    && n.sent == r.sent + [Report(n.inbound)] && Report(n.inbound).Ack? && Report(n.inbound).next == n.inbound.expected
    && n.(inbound := r.inbound, openCounter := r.openCounter, written := r.written, sent := r.sent) == r
    && r.inbound.expected <= n.inbound.expected
    && forall q :: Received(r.inbound, q) ==> Received(n.inbound, q)
  }

  lemma PacketIsReplied(s: Endpoint, r: Endpoint, m: Envelope)
    requires Linked(s, r) && m in s.sent && m.Data?
    ensures var n := OnData(r, m.sequence, m.payload);
      Replied(r, n) && (m.sequence == r.inbound.expected ==> m.sequence < n.inbound.expected)
  {
    assert IsSealedChunk(s, m.sequence, m.payload);
    DataKeepsReceiver(s, r, m.sequence, m.payload);
    QueuedGenuine(s, r, m.sequence, m.payload);
    var n := OnData(r, m.sequence, m.payload);
    hide OnData;
    assert m.sequence == r.inbound.expected ==> m.sequence < n.inbound.expected;
    hide Queued;
    ReportContents(s, n);
  }

  lemma RepliedMeans(r: Endpoint, n: Endpoint)
    requires Replied(r, n)
    ensures Heard(r, n) && n.status == r.status && r.inbound.expected <= n.inbound.expected
    ensures n.sent == r.sent + [Ack(n.inbound.expected, Report(n.inbound).ranges)]
  {
  }

  ghost predicate Freed(s: Endpoint, n: Endpoint) {
    && Moved(s, n) && n.status == s.status
    && forall p :: p in n.send.pending ==> p in s.send.pending[1..]
  }

  /** The answer frees the front and asks for nothing, because the timeout ended any recovery. */
  lemma AnswerFreesFront(s: Endpoint, next: u64, ranges: seq<Range>, now: Millis)
    requires s.status.Running? && s.close.None? && s.send.pending != [] && s.send.pending[0].sequence < next
    requires Sorted(s.send.pending) && s.send.window.recovery.None?
    ensures var n := OnAck(s, next, ranges, now);
      Freed(s, n) && n.highestAck == Max(s.highestAck, next)
  {
    var (send, resend) := AfterAck(s.send, next, ranges, now);
    assert resend.None? && send.window.recovery.None?;
    QueueIsFiltered(s.send, next, ranges, now);
    FrontIsDropped(s.send.pending, send.pending, next);
    KeepShorter(s.send.pending, next, send.sacked);
    hide AfterAck;
  }

  lemma FrontIsDropped(q: seq<Pending>, kept: seq<Pending>, next: int)
    requires Sorted(q) && q != [] && q[0].sequence < next
    requires forall p :: p in kept ==> p in q && next <= p.sequence
    ensures forall p :: p in kept ==> p in q[1..]
  {
  }

  lemma KeepShorter(q: seq<Pending>, next: int, sacked: set<int>)
    requires q != [] && q[0].sequence < next
    ensures |Keep(q, next, sacked)| < |q|
  {
  }

  lemma FrontIsExpected(s: Endpoint, r: Endpoint)
    requires Linked(s, r) && r.inbound.expected <= s.highestAck
    ensures FrontIsMissing(s, r)
  {
  }

  lemma ArrivalOf(e: Endpoint, m: Envelope, now: Millis)
    ensures m.Data? ==> OnMessage(e, m, now) == OnData(e, m.sequence, m.payload)
    ensures m.Ack? ==> OnMessage(e, m, now) == OnAck(e, m.next, m.ranges, now)
  {
  }

  /** A fresh packet arrives; the receiver's answer is news, and past the front of the queue. */
  lemma Hear(base: Channel, c: Channel, clock: Millis, side: Side, m: Envelope)
    returns (actions: seq<Action>, d: Channel, answer: Envelope)
    requires Alive(base, c) && m in News(At(base, side), At(c, side)) && m.Data?
    ensures Alive(base, d) && Revives(base, c, clock, actions, d, clock)
    ensures At(d, side) == At(c, side) && Heard(At(c, Other(side)), At(d, Other(side)))
    ensures answer in News(At(base, Other(side)), At(d, Other(side)))
    ensures answer.Ack? && At(c, Other(side)).inbound.expected <= answer.next == At(d, Other(side)).inbound.expected
    ensures m.sequence == At(c, Other(side)).inbound.expected ==> m.sequence < answer.next
  {
    var s, r := At(c, side), At(c, Other(side));
    AliveAt(base, c, side);
    NewsStays(At(base, side), s, s, m);
    hide Alive, Sound, Linked, Revives, OnMessage, Replied, Heard, OnData, News;
    PacketIsReplied(s, r, m);
    RepliedMeans(r, OnData(r, m.sequence, m.payload));
    ArrivalOf(r, m, clock);
    actions, d := Arrive(base, c, clock, Other(side), m);
    StaysAlive(base, c, d, Other(side));
    var n := At(d, Other(side));
    answer := Ack(n.inbound.expected, Report(n.inbound).ranges);
    LastIsNews(At(base, Other(side)), r, n, answer);
  }

  /** The answer arrives and takes the front off the queue; what is then at its head, the peer lacks. */
  lemma HearAnswer(base: Channel, c: Channel, clock: Millis, side: Side, m: Envelope)
    returns (actions: seq<Action>, d: Channel)
    requires Alive(base, c) && m in News(At(base, Other(side)), At(c, Other(side)))
    requires m.Ack? && m.next == At(c, Other(side)).inbound.expected
    requires At(c, side).send.pending != [] && At(c, side).send.pending[0].sequence < m.next
    requires At(c, side).send.window.recovery.None?
    ensures Alive(base, d) && Revives(base, c, clock, actions, d, clock)
    ensures At(d, Other(side)) == At(c, Other(side)) && Moved(At(c, side), At(d, side))
    ensures FrontIsMissing(At(d, side), At(d, Other(side)))
    ensures forall p :: p in At(d, side).send.pending ==> p in At(c, side).send.pending[1..]
  {
    var s, r := At(c, side), At(c, Other(side));
    AliveAt(base, c, side);
    hide Alive, Sound, Linked, Revives, OnMessage, FrontIsMissing, OnAck, Moved, News;
    QueuedEnd(s, r);
    AnswerFreesFront(s, m.next, m.ranges, clock);
    ArrivalOf(s, m, clock);
    actions, d := Arrive(base, c, clock, side, m);
    MovedGrows(s, At(d, side));
    StaysAlive(base, c, d, side);
    AliveAt(base, d, side);
    FrontIsExpected(At(d, side), r);
  }

  lemma MovedGrows(s: Endpoint, n: Endpoint)
    requires Moved(s, n)
    ensures s.sent <= n.sent
  {
  }

  /** Both, for a packet whose answer is past the front. */
  lemma HearAndFree(base: Channel, c: Channel, clock: Millis, side: Side, m: Envelope)
    returns (actions: seq<Action>, d: Channel)
    requires Alive(base, c) && m in News(At(base, side), At(c, side)) && m.Data?
    requires At(c, side).send.pending != [] && At(c, side).send.window.recovery.None?
    requires At(c, side).send.pending[0].sequence == m.sequence || !FrontIsMissing(At(c, side), At(c, Other(side)))
    ensures Alive(base, d) && Revives(base, c, clock, actions, d, clock)
    ensures Moved(At(c, side), At(d, side)) && Heard(At(c, Other(side)), At(d, Other(side)))
    ensures FrontIsMissing(At(d, side), At(d, Other(side)))
    ensures forall p :: p in At(d, side).send.pending ==> p in At(c, side).send.pending[1..]
  {
    AliveAt(base, c, side);
    QueuedEnd(At(c, side), At(c, Other(side)));
    hide Alive, Sound, Linked, Revives, FrontIsMissing, Moved, Heard, News;
    var first, b, answer := Hear(base, c, clock, side, m);
    var second;
    second, d := HearAnswer(base, b, clock, side, answer);
    RevivesOn(base, c, clock, first, b, clock, second, d, clock);
    actions := first + second;
  }

  // ---- rounds

  /** Packet `sequence` was sent since `base`. */
  ghost predicate SentSince(base: Endpoint, s: Endpoint, sequence: int) {
    exists m :: m in News(base, s) && m.Data? && m.sequence == sequence
  }

  /** What the peer lacks may still be sent, or was sent since `base` and can still arrive. */
  ghost predicate MissingCanArrive(base: Endpoint, s: Endpoint, r: Endpoint) {
    forall p :: p in s.send.pending && !Received(r.inbound, p.sequence) ==>
      p.attempts < MAX_ATTEMPTS || SentSince(base, s, p.sequence)
  }

  /** A queue that rounds can drain one by one. */
  ghost predicate Drainable(base: Endpoint, s: Endpoint, r: Endpoint) {
    && MissingCanArrive(base, s, r) && FrontIsMissing(s, r)
    && (s.send.pending != [] ==> s.send.window.recovery.None?)
  }

  lemma StillArrives(base: Endpoint, s: Endpoint, r: Endpoint, n: Endpoint, m: Endpoint)
    requires MissingCanArrive(base, s, r) && base.sent <= s.sent
    requires Later(s, n) && Later(r, m) && forall p :: p in n.send.pending ==> p in s.send.pending
    ensures MissingCanArrive(base, n, m)
  {
    forall p | p in n.send.pending && !Received(m.inbound, p.sequence)
      ensures p.attempts < MAX_ATTEMPTS || SentSince(base, n, p.sequence)
    {
      if SentSince(base, s, p.sequence) {
        var e :| e in News(base, s) && e.Data? && e.sequence == p.sequence;
        NewsStays(base, s, n, e);
      }
    }
  }

  /** A packet that was sent again can arrive, and so can what could before. */
  lemma ResentArrives(base: Endpoint, s: Endpoint, i: nat, n: Endpoint, r: Endpoint, m: Envelope)
    requires MissingCanArrive(base, s, r) && base.sent <= s.sent && PacketResent(s, i, n)
    requires m in News(base, n) && m.Data? && m.sequence == s.send.pending[i].sequence
    ensures MissingCanArrive(base, n, r)
  {
    forall p | p in n.send.pending && !Received(r.inbound, p.sequence)
      ensures p.attempts < MAX_ATTEMPTS || SentSince(base, n, p.sequence)
    {
      if p in s.send.pending && SentSince(base, s, p.sequence) {
        var e :| e in News(base, s) && e.Data? && e.sequence == p.sequence;
        NewsStays(base, s, n, e);
      }
    }
  }

  lemma ResentAndFreed(s: Endpoint, i: nat, a: Endpoint, n: Endpoint)
    requires PacketResent(s, i, a) && Moved(a, n)
    ensures Moved(s, n)
  {
  }

  lemma DrainableAfter(base: Endpoint, s: Endpoint, r: Endpoint, n: Endpoint, m: Endpoint)
    requires MissingCanArrive(base, s, r) && base.sent <= s.sent && s.send.pending != []
    requires Moved(s, n) && Heard(r, m) && FrontIsMissing(n, m)
    requires forall p :: p in n.send.pending ==> p in s.send.pending[1..]
    ensures Drainable(base, n, m)
  {
    assert forall p :: p in s.send.pending[1..] ==> p in s.send.pending;
    StillArrives(base, s, r, n, m);
  }

  /**
     One round: the timer sends a packet again, the answer takes the front off the queue, and what is then
     at its head, if anything, the peer lacks. The packet is the front, or the peer has the front.
   */
  lemma Round(base: Channel, c: Channel, clock: Millis, side: Side, i: nat)
    returns (actions: seq<Action>, d: Channel, now: Millis)
    requires Alive(base, c) && Sendable(At(c, side), clock, i)
    requires i == 0 || !FrontIsMissing(At(c, side), At(c, Other(side)))
    requires MissingCanArrive(At(base, side), At(c, side), At(c, Other(side)))
    ensures Alive(base, d) && Revives(base, c, clock, actions, d, now)
    ensures now == DueTime(At(c, side).send.pending, i, At(c, side).send.rto, clock)
    ensures Moved(At(c, side), At(d, side)) && Heard(At(c, Other(side)), At(d, Other(side)))
    ensures Drainable(At(base, side), At(d, side), At(d, Other(side)))
  {
    var s, r := At(c, side), At(c, Other(side));
    AliveAt(base, c, side);
    hide Alive, Sound, Linked, Revives, Moved, Heard, News, PacketResent, MissingCanArrive, DueTime, DueFirst, Drainable;
    var first, b, later, m := SendPacket(base, c, clock, side, i);
    now := later;
    ResentMeans(s, i, At(b, side));
    AliveAt(base, b, side);
    ResentArrives(At(base, side), s, i, At(b, side), r, m);
    var second;
    second, d := HearAndFree(base, b, now, side, m);
    ResentAndFreed(s, i, At(b, side), At(d, side));
    DrainableAfter(At(base, side), At(b, side), r, At(d, side), At(d, Other(side)));
    RevivesOn(base, c, clock, first, b, now, second, d, now);
    actions := first + second;
  }

  /** The next round, when the peer lacks the front: it is sent again unless a copy is still on its way. */
  lemma NextRound(base: Channel, c: Channel, clock: Millis, side: Side)
    returns (actions: seq<Action>, d: Channel, end: Millis)
    requires Alive(base, c) && At(c, side).send.pending != []
    requires Drainable(At(base, side), At(c, side), At(c, Other(side)))
    ensures Alive(base, d) && Revives(base, c, clock, actions, d, end) && clock <= end
    ensures Moved(At(c, side), At(d, side)) && Heard(At(c, Other(side)), At(d, Other(side)))
    ensures Drainable(At(base, side), At(d, side), At(d, Other(side)))
  {
    var s, r := At(c, side), At(c, Other(side));
    assert s.send.pending[0] in s.send.pending;
    if SentSince(At(base, side), s, s.send.pending[0].sequence) {
      var m :| m in News(At(base, side), s) && m.Data? && m.sequence == s.send.pending[0].sequence;
      AliveAt(base, c, side);
      hide Alive, Sound, Linked, Revives, Moved, Heard, News, FrontIsMissing, MissingCanArrive;
      end := clock;
      actions, d := HearAndFree(base, c, clock, side, m);
      DrainableAfter(At(base, side), s, r, At(d, side), At(d, Other(side)));
    } else {
      hide Alive, Revives, Moved, Heard, News, SentSince;
      actions, d, end := Round(base, c, clock, side, 0);
    }
  }

  // ---- draining

  /** What draining changes at the sending end. */
  ghost predicate Drained(s: Endpoint, n: Endpoint) {
    && Later(s, n) && n.inbound == s.inbound && n.send.pending == []
    && (CloseCanBeSent(s) ==> CloseCanBeSent(n))
  }

  lemma NothingToDrain(s: Endpoint, r: Endpoint)
    requires s.send.pending == []
    ensures Drained(s, s) && Heard(r, r)
  {
  }

  lemma OneMoreDrained(s: Endpoint, n: Endpoint, e: Endpoint, r: Endpoint, m: Endpoint, k: Endpoint)
    requires Moved(s, n) && Drained(n, e) && Heard(r, m) && Heard(m, k)
    ensures Drained(s, e) && Heard(r, k)
  {
  }

  lemma {:induction false} DrainAfresh(base: Channel, c: Channel, clock: Millis, side: Side)
    returns (actions: seq<Action>, d: Channel, end: Millis)
    requires Alive(base, c) && Drainable(At(base, side), At(c, side), At(c, Other(side)))
    ensures Alive(base, d) && Revives(base, c, clock, actions, d, end) && clock <= end
    ensures Drained(At(c, side), At(d, side)) && Heard(At(c, Other(side)), At(d, Other(side)))
    decreases |At(c, side).send.pending|
  {
    NothingDone(base, c, clock);
    hide Alive, Revives, Drainable, Drained, Heard;
    actions, d, end := [], c, clock;
    if At(c, side).send.pending == [] {
      NothingToDrain(At(c, side), At(c, Other(side)));
    } else {
      var first, b, middle := NextRound(base, c, clock, side);
      var rest;
      rest, d, end := DrainAfresh(base, b, middle, side);
      hide Moved;
      OneMoreDrained(At(c, side), At(b, side), At(d, side), At(c, Other(side)), At(b, Other(side)), At(d, Other(side)));
      RevivesOn(base, c, clock, first, b, middle, rest, d, end);
      actions := first + rest;
    }
  }

  // ---- closing

  /** The close goes out, for the first time or again. */
  ghost predicate CloseSent(s: Endpoint, n: Endpoint) {
    && n.close.Some? && n.sent == s.sent + [Close(n.close.value.finalSequence)]
    && n.status == s.status && n.read == s.read && n.written == s.written
  }

  lemma EofSendsClose(s: Endpoint, now: Millis)
    requires s.status.Running? && s.send.pending == [] && s.close.None?
    ensures CloseSent(s, OnEof(s, now))
  {
  }

  function CloseTime(e: Endpoint, clock: Millis): Millis
    requires e.close.Some?
  {
    MaxR(clock, e.close.value.lastSentAt + e.send.rto)
  }

  lemma TickSendsClose(s: Endpoint, clock: Millis)
    requires s.status.Running? && s.send.pending == [] && s.close.Some? && CloseCanBeSent(s)
    ensures clock <= CloseTime(s, clock) && CloseSent(s, OnTick(s, CloseTime(s, clock)))
  {
  }

  lemma EofIsAllowed(base: Channel, c: Channel, clock: Millis, side: Side)
    requires At(c, side).status.Running? && CloseStarted(At(c, side))
    requires At(c, side).send.pending == [] && At(c, side).close.None?
    ensures Allowed(base, c, clock, Action(side, EofEvent(clock)))
    ensures Step(At(c, side), EofEvent(clock)) == OnEof(At(c, side), clock)
  {
  }

  lemma FirstClose(base: Channel, c: Channel, clock: Millis, side: Side) returns (actions: seq<Action>, d: Channel)
    requires Alive(base, c) && At(c, side).send.pending == [] && At(c, side).close.None?
    ensures Sound(d) && Revives(base, c, clock, actions, d, clock)
    ensures CloseSent(At(c, side), At(d, side)) && At(d, Other(side)) == At(c, Other(side))
  {
    AliveAt(base, c, side);
    PairedLinks(c, side);
    hide Alive, Sound, Linked, SenderOk, ReceiverOk, Revives, OnEof, Allowed, Step, CloseSent;
    EofSendsClose(At(c, side), clock);
    EofIsAllowed(base, c, clock, side);
    actions := [Action(side, EofEvent(clock))];
    d := Move(base, c, clock, Action(side, EofEvent(clock)));
  }

  lemma CloseAgain(base: Channel, c: Channel, clock: Millis, side: Side)
    returns (actions: seq<Action>, d: Channel, end: Millis)
    requires Alive(base, c) && At(c, side).send.pending == []
    requires At(c, side).close.Some? && CloseCanBeSent(At(c, side))
    ensures Sound(d) && Revives(base, c, clock, actions, d, end)
    ensures CloseSent(At(c, side), At(d, side)) && At(d, Other(side)) == At(c, Other(side))
  {
    AliveAt(base, c, side);
    hide Alive, Sound, Linked, Revives, OnTick, CloseSent, CloseTime;
    TickSendsClose(At(c, side), clock);
    end := CloseTime(At(c, side), clock);
    actions, d := Tick(base, c, clock, side, end);
  }

  lemma AliveAfterClose(base: Channel, c: Channel, d: Channel, side: Side)
    requires Alive(base, c) && Sound(d) && At(d, Other(side)) == At(c, Other(side))
    requires CloseSent(At(c, side), At(d, side))
    ensures Alive(base, d)
    ensures Close(At(d, side).close.value.finalSequence) in News(At(base, side), At(d, side))
  {
    AliveAt(base, c, side);
    hide Sound, Alive, Linked;
    StaysAlive(base, c, d, side);
    LastIsNews(At(base, side), At(c, side), At(d, side), Close(At(d, side).close.value.finalSequence));
  }

  lemma LinkedClose(s: Endpoint, r: Endpoint)
    requires Linked(s, r) && s.close.Some?
    ensures s.close.value.finalSequence <= r.inbound.expected
  {
  }

  /** The close arrives, the other end confirms it and leaves, and the confirmation arrives. */
  lemma ShutAfresh(base: Channel, c: Channel, clock: Millis, side: Side) returns (actions: seq<Action>, d: Channel)
    requires Alive(base, c) && At(c, side).close.Some?
    requires Close(At(c, side).close.value.finalSequence) in News(At(base, side), At(c, side))
    ensures Revives(base, c, clock, actions, d, clock)
    ensures At(d, side) == At(c, side).(status := LeftByCloseAck)
    ensures var r, n := At(c, Other(side)), At(d, Other(side));
      n.status.LeftByPeerClose? && n.read == r.read && n.written == r.written
  {
    var s, r := At(c, side), At(c, Other(side));
    var f := s.close.value.finalSequence;
    AliveAt(base, c, side);
    LinkedClose(s, r);
    hide Alive, Sound, Linked, Revives, OnMessage, News;
    CloseEndsBoth(s, r, f, clock);
    var first, b := Arrive(base, c, clock, Other(side), Close(f));
    LastIsNews(At(base, Other(side)), r, At(b, Other(side)), CloseAck(f));
    var second;
    second, d := Arrive(base, b, clock, side, CloseAck(f));
    RevivesOn(base, c, clock, first, b, clock, second, d, clock);
    actions := first + second;
  }

  lemma CloseDown(base: Channel, c: Channel, clock: Millis, side: Side)
    returns (actions: seq<Action>, d: Channel, end: Millis)
    requires Alive(base, c) && At(c, side).send.pending == [] && CloseCanBeSent(At(c, side))
    ensures Revives(base, c, clock, actions, d, end)
    ensures At(d, side).status.LeftByCloseAck? && At(d, Other(side)).status.LeftByPeerClose?
    ensures At(d, side).read == At(c, side).read && At(d, Other(side)).read == At(c, Other(side)).read
    ensures At(d, side).written == At(c, side).written && At(d, Other(side)).written == At(c, Other(side)).written
  {
    hide Alive, Sound, Revives, News;
    var first, b;
    end := clock;
    if At(c, side).close.Some? {
      first, b, end := CloseAgain(base, c, clock, side);
    } else {
      first, b := FirstClose(base, c, clock, side);
    }
    AliveAfterClose(base, c, b, side);
    var second;
    second, d := ShutAfresh(base, b, end, side);
    RevivesOn(base, c, clock, first, b, end, second, d, end);
    actions := first + second;
  }

  // ---- the first rounds, in the order in which their packets are due

  lemma NewsOnly(base: Endpoint, s: Endpoint, r: Endpoint)
    requires MissingCanBeSent(s, r)
    ensures MissingCanArrive(base, s, r)
  {
  }

  /** The front, if the peer lacks it; otherwise any packet the timer can choose. */
  lemma FirstChoice(s: Endpoint, r: Endpoint, clock: Millis) returns (i: nat)
    requires s.send.pending != [] && MissingCanBeSent(s, r) && QueueCanMove(s, clock)
    ensures Sendable(s, clock, i) && (i == 0 || !FrontIsMissing(s, r))
  {
    if FrontIsMissing(s, r) {
      i := 0;
      assert s.send.pending[0] in s.send.pending;
    } else {
      i :| i < |s.send.pending| && Sendable(s, clock, i);
    }
  }

  /** At either end once its queue is ready to be drained: nothing is lost, and a close stays sendable. */
  ghost predicate Started(s: Endpoint, n: Endpoint) {
    Later(s, n) && (CloseCanBeSent(s) ==> CloseCanBeSent(n))
  }

  lemma StartedTwice(s: Endpoint, n: Endpoint, m: Endpoint)
    requires Started(s, n) && Started(n, m)
    ensures Started(s, m)
  {
  }

  lemma MovedIsStarted(s: Endpoint, n: Endpoint)
    requires Moved(s, n) || Heard(s, n)
    ensures Started(s, n) && (Moved(s, n) ==> n.inbound == s.inbound)
  {
  }

  lemma DrainableStays(base: Endpoint, s: Endpoint, r: Endpoint, n: Endpoint, m: Endpoint)
    requires Drainable(base, s, r) && base.sent <= s.sent && Heard(s, n) && m.inbound == r.inbound && Later(r, m)
    ensures Drainable(base, n, m)
  {
    StillArrives(base, s, r, n, m);
  }

  lemma EmptyIsDrainable(base: Endpoint, s: Endpoint, r: Endpoint)
    requires s.send.pending == []
    ensures Drainable(base, s, r)
  {
  }

  lemma StartOne(base: Channel, c: Channel, clock: Millis, side: Side)
    returns (actions: seq<Action>, d: Channel, end: Millis)
    requires Alive(base, c)
    requires MissingCanBeSent(At(c, side), At(c, Other(side))) && QueueCanMove(At(c, side), clock)
    ensures Alive(base, d) && Revives(base, c, clock, actions, d, end)
    ensures Drainable(At(base, side), At(d, side), At(d, Other(side)))
    ensures Started(At(c, side), At(d, side)) && At(d, side).inbound == At(c, side).inbound
    ensures Heard(At(c, Other(side)), At(d, Other(side)))
  {
    NothingDone(base, c, clock);
    var s, r := At(c, side), At(c, Other(side));
    hide Alive, Revives, Drainable, MissingCanBeSent, QueueCanMove, FrontIsMissing, MissingCanArrive;
    actions, d, end := [], c, clock;
    if s.send.pending == [] {
      EmptyIsDrainable(At(base, side), s, r);
    } else {
      var i := FirstChoice(s, r, clock);
      NewsOnly(At(base, side), s, r);
      hide Sendable;
      actions, d, end := Round(base, c, clock, side, i);
      MovedIsStarted(s, At(d, side));
    }
  }

  /** The end whose packet is due first goes first, and the other is still in time. */
  lemma StartInOrder(base: Channel, c: Channel, clock: Millis, side: Side, i: nat, j: nat)
    returns (actions: seq<Action>, d: Channel, end: Millis)
    requires Alive(base, c) && Sendable(At(c, side), clock, i) && Sendable(At(c, Other(side)), clock, j)
    requires DueTime(At(c, side).send.pending, i, At(c, side).send.rto, clock)
          <= DueTime(At(c, Other(side)).send.pending, j, At(c, Other(side)).send.rto, clock)
    requires i == 0 || !FrontIsMissing(At(c, side), At(c, Other(side)))
    requires j == 0 || !FrontIsMissing(At(c, Other(side)), At(c, side))
    requires MissingCanArrive(At(base, side), At(c, side), At(c, Other(side)))
    requires MissingCanArrive(At(base, Other(side)), At(c, Other(side)), At(c, side))
    ensures Alive(base, d) && Revives(base, c, clock, actions, d, end)
    ensures Drainable(At(base, side), At(d, side), At(d, Other(side)))
    ensures Drainable(At(base, Other(side)), At(d, Other(side)), At(d, side))
    ensures Started(At(c, side), At(d, side)) && Started(At(c, Other(side)), At(d, Other(side)))
  {
    hide Alive, Revives, Drainable, MissingCanArrive, Started;
    var first, b, middle := Round(base, c, clock, side, i);
    OtherIsInTime(base, c, clock, side, i, j, b, middle);
    var second;
    second, d, end := Round(base, b, middle, Other(side), j);
    AliveAt(base, b, side);
    hide Sound, Linked, Moved, Heard, DueTime, FrontIsMissing, Sendable;
    HeardGrows(At(b, side), At(d, side));
    MovedIsStarted(At(b, Other(side)), At(d, Other(side)));
    MovedIsStarted(At(c, side), At(b, side));
    MovedIsStarted(At(b, side), At(d, side));
    MovedIsStarted(At(c, Other(side)), At(b, Other(side)));
    MovedIsLater(At(b, Other(side)), At(d, Other(side)));
    DrainableStays(At(base, side), At(b, side), At(b, Other(side)), At(d, side), At(d, Other(side)));
    StartedTwice(At(c, side), At(b, side), At(d, side));
    StartedTwice(At(c, Other(side)), At(b, Other(side)), At(d, Other(side)));
    RevivesOn(base, c, clock, first, b, middle, second, d, end);
    actions := first + second;
  }

  lemma HeardGrows(r: Endpoint, n: Endpoint)
    requires Heard(r, n)
    ensures r.sent <= n.sent
  {
  }

  lemma MovedIsLater(s: Endpoint, n: Endpoint)
    requires Moved(s, n)
    ensures Later(s, n) && n.inbound == s.inbound
  {
  }

  lemma OtherIsInTime(
    base: Channel, c: Channel, clock: Millis, side: Side, i: nat, j: nat, b: Channel, middle: Millis)
    requires Alive(base, c) && i < |At(c, side).send.pending| && Sendable(At(c, Other(side)), clock, j)
    requires middle == DueTime(At(c, side).send.pending, i, At(c, side).send.rto, clock)
          <= DueTime(At(c, Other(side)).send.pending, j, At(c, Other(side)).send.rto, clock)
    requires Moved(At(c, side), At(b, side)) && Heard(At(c, Other(side)), At(b, Other(side)))
    requires MissingCanArrive(At(base, Other(side)), At(c, Other(side)), At(c, side))
    ensures Sendable(At(b, Other(side)), middle, j)
    ensures MissingCanArrive(At(base, Other(side)), At(b, Other(side)), At(b, side))
    ensures FrontIsMissing(At(b, Other(side)), At(b, side)) <==> FrontIsMissing(At(c, Other(side)), At(c, side))
  {
    var r := At(c, Other(side));
    StaysDueFirst(r.send.pending, j, r.send.rto, clock, middle);
    AliveAt(base, c, side);
    hide Alive, Sound, Linked;
    StillArrives(At(base, Other(side)), r, At(c, side), At(b, Other(side)), At(b, side));
  }

  /** Both queues are made ready, whichever is due first. */
  lemma StartBoth(base: Channel, c: Channel, clock: Millis, side: Side)
    returns (actions: seq<Action>, d: Channel, end: Millis)
    requires Alive(base, c) && At(c, side).send.pending != [] && At(c, Other(side)).send.pending != []
    requires MissingCanBeSent(At(c, side), At(c, Other(side))) && QueueCanMove(At(c, side), clock)
    requires MissingCanBeSent(At(c, Other(side)), At(c, side)) && QueueCanMove(At(c, Other(side)), clock)
    ensures Alive(base, d) && Revives(base, c, clock, actions, d, end)
    ensures Drainable(At(base, side), At(d, side), At(d, Other(side)))
    ensures Drainable(At(base, Other(side)), At(d, Other(side)), At(d, side))
    ensures Started(At(c, side), At(d, side)) && Started(At(c, Other(side)), At(d, Other(side)))
  {
    var s, r := At(c, side), At(c, Other(side));
    hide Alive, Revives, Drainable, MissingCanBeSent, QueueCanMove, FrontIsMissing, MissingCanArrive, Started;
    var i := FirstChoice(s, r, clock);
    var j := FirstChoice(r, s, clock);
    NewsOnly(At(base, side), s, r);
    NewsOnly(At(base, Other(side)), r, s);
    if DueTime(s.send.pending, i, s.send.rto, clock) <= DueTime(r.send.pending, j, r.send.rto, clock) {
      actions, d, end := StartInOrder(base, c, clock, side, i, j);
    } else {
      actions, d, end := StartInOrder(base, c, clock, Other(side), j, i);
    }
  }

  // ---- the way on

  /** The closing end, `s`, can drain its queue, and has or can be given everything the other has read. */
  ghost predicate OnCourse(base: Channel, c: Channel, side: Side) {
    var s, r := At(c, side), At(c, Other(side));
    && Drainable(At(base, side), s, r) && CloseCanBeSent(s)
    && (Drainable(At(base, Other(side)), r, s) || |r.read| <= s.inbound.expected)
  }

  lemma EmptyStays(base: Channel, c: Channel, d: Channel, side: Side)
    requires At(c, side).send.pending == [] && Heard(At(c, side), At(d, side))
    ensures Drainable(At(base, side), At(d, side), At(d, Other(side))) && Started(At(c, side), At(d, side))
  {
  }

  lemma Start(base: Channel, c: Channel, clock: Millis, side: Side)
    returns (actions: seq<Action>, d: Channel, end: Millis)
    requires Alive(base, c) && Revivable(c, clock, side)
    ensures Alive(base, d) && Revives(base, c, clock, actions, d, end)
    ensures OnCourse(base, d, side)
    ensures At(d, side).read == At(c, side).read && At(d, Other(side)).read == At(c, Other(side)).read
  {
    hide Alive, Revives, Drainable, MissingCanBeSent, QueueCanMove, CloseCanBeSent;
    var s, r := At(c, side), At(c, Other(side));
    if |r.read| <= s.inbound.expected {
      actions, d, end := StartOne(base, c, clock, side);
    } else if s.send.pending == [] {
      actions, d, end := StartOne(base, c, clock, Other(side));
      EmptyStays(base, c, d, side);
    } else if r.send.pending == [] {
      actions, d, end := StartOne(base, c, clock, side);
      EmptyStays(base, c, d, Other(side));
    } else {
      actions, d, end := StartBoth(base, c, clock, side);
    }
  }

  lemma WrittenInFull(s: Endpoint, r: Endpoint)
    requires Linked(s, r) && (s.send.pending == [] || |s.read| <= r.inbound.expected)
    ensures r.written == s.read
  {
  }

  /** The other end is drained only if the closing end lacks something. */
  lemma GiveTheRest(base: Channel, c: Channel, clock: Millis, side: Side)
    returns (actions: seq<Action>, d: Channel, end: Millis)
    requires Alive(base, c) && OnCourse(base, c, side)
    ensures Alive(base, d) && Revives(base, c, clock, actions, d, end)
    ensures Drainable(At(base, side), At(d, side), At(d, Other(side))) && CloseCanBeSent(At(d, side))
    ensures At(d, Other(side)).send.pending == [] || |At(d, Other(side)).read| <= At(d, side).inbound.expected
    ensures At(d, side).read == At(c, side).read && At(d, Other(side)).read == At(c, Other(side)).read
  {
    NothingDone(base, c, clock);
    hide Alive, Revives, Drainable;
    actions, d, end := [], c, clock;
    if At(c, side).inbound.expected < |At(c, Other(side)).read| {
      actions, d, end := DrainAfresh(base, c, clock, Other(side));
      AliveAt(base, c, side);
      hide Sound, Linked;
      DrainableStays(At(base, side), At(c, side), At(c, Other(side)), At(d, side), At(d, Other(side)));
    }
  }

  /** Then the closing end's queue is drained, and it closes. */
  lemma DrainAndClose(base: Channel, c: Channel, clock: Millis, side: Side)
    returns (actions: seq<Action>, d: Channel, end: Millis)
    requires Alive(base, c) && CloseCanBeSent(At(c, side))
    requires Drainable(At(base, side), At(c, side), At(c, Other(side)))
    requires At(c, Other(side)).send.pending == [] || |At(c, Other(side)).read| <= At(c, side).inbound.expected
    ensures Revives(base, c, clock, actions, d, end)
    ensures At(d, side).status.LeftByCloseAck? && At(d, Other(side)).status.LeftByPeerClose?
    ensures At(d, side).read == At(c, side).read && At(d, Other(side)).read == At(c, Other(side)).read
    ensures At(d, side).written == At(c, Other(side)).read && At(d, Other(side)).written == At(c, side).read
  {
    hide Alive, Revives, Drainable, CloseCanBeSent;
    var first, b, middle := DrainAfresh(base, c, clock, side);
    AliveAt(base, b, side);
    AliveAt(base, b, Other(side));
    hide Sound, Linked;
    WrittenInFull(At(b, side), At(b, Other(side)));
    WrittenInFull(At(b, Other(side)), At(b, side));
    var second;
    second, d, end := CloseDown(base, b, middle, side);
    RevivesOn(base, c, clock, first, b, middle, second, d, end);
    actions := first + second;
  }

  /** If the attempts left suffice, the channel can be brought to an orderly finish without loss. */
  lemma RevivalIsPossible(c: Channel, clock: Millis, side: Side)
    returns (actions: seq<Action>, d: Channel, end: Millis)
    requires Reachable(c) && BothRunning(c) && Revivable(c, clock, side)
    ensures Revives(c, c, clock, actions, d, end) && Finish(c, d, side)
  {
    ReachableIsSound(c);
    assert Alive(c, c);
    hide Alive, Sound, Revives, Reachable, Revivable, OnCourse, Drainable;
    var first, b1, t1 := Start(c, c, clock, side);
    var second, b2, t2 := GiveTheRest(c, b1, t1, side);
    var third;
    third, d, end := DrainAndClose(c, b2, t2, side);
    RevivesOn(c, c, clock, first, b1, t1, second, b2, t2);
    RevivesOn(c, c, clock, first + second, b2, t2, third, d, end);
    actions := first + second + third;
  }

  /** In particular while no packet and no close has used up its attempts. */
  lemma RevivalWhileAttemptsLast(c: Channel, clock: Millis, side: Side)
    returns (actions: seq<Action>, d: Channel, end: Millis)
    requires Reachable(c) && BothRunning(c)
    requires forall p :: p in c.left.send.pending + c.right.send.pending ==> p.attempts < MAX_ATTEMPTS
    requires CloseCanBeSent(At(c, side))
    ensures Revives(c, c, clock, actions, d, end) && Finish(c, d, side)
  {
    var l, r := c.left, c.right;
    assert forall p :: p in l.send.pending ==> p in l.send.pending + r.send.pending;
    assert l.send.pending != [] ==> l.send.pending[0] in l.send.pending && Sendable(l, clock, 0);
    assert r.send.pending != [] ==> r.send.pending[0] in l.send.pending + r.send.pending && Sendable(r, clock, 0);
    hide Reachable, Revives, Finish, Sendable;
    actions, d, end := RevivalIsPossible(c, clock, side);
  }
}
