/**
 One end of an open direct channel as a state machine: each arm of the bridge loop is one step.
 The steps use the specifications of the parts; `Bridge.dfy` gives the code that performs them.
 */
module Endpoint {
  import opened Common
  import opened Ranges
  import opened Congestion
  import opened RetransmitTimer
  import opened SecureChannel
  import opened Reorder
  import opened LossRecovery
  import opened AckHandling

  const MAX_ATTEMPTS: int := 20
  const MAX_PLAINTEXT: int := 1024

  datatype Envelope =
    | Data(sequence: u64, payload: Sealed)
    | Ack(next: u64, ranges: seq<Range>)
    | Close(finalSequence: u64)
    | CloseAck(finalSequence: u64)

  datatype PendingClose = PendingClose(finalSequence: u64, attempts: nat, lastSentAt: Millis)

  datatype Status = Running | LeftByCloseAck | LeftByPeerClose | Failed

  /** The loop's locals, followed by the history of what passed through its sockets. */
  datatype Endpoint = Endpoint(
    status: Status,
    sendDirection: Direction,
    receiveDirection: Direction,
    nextOutbound: u64,
    sealCounter: u64,
    send: SendState,
    close: Option<PendingClose>,
    readClosed: bool,
    inbound: Inbound<Sealed>,
    openCounter: u64,
    read: seq<Bytes>,
    written: seq<Bytes>,
    highestAck: int,
    sent: seq<Envelope>)

  ghost function Initial(directions: (Direction, Direction)): Endpoint {
    Endpoint(Running, directions.0, directions.1, 0, 0,
             SendState([], {}, INITIAL_WINDOW, INITIAL_RTO, NO_ESTIMATE, NO_ACKS),
             None, false, Inbound(0, map[]), 0, [], [], 0, [])
  }

  ghost function Emit(e: Endpoint, m: Envelope): Endpoint { e.(sent := e.sent + [m]) }

  ghost function Fail(e: Endpoint): Endpoint { e.(status := Failed) }

  // ---- sending

  /** Sends the packet at position `i` again, or gives the channel up after twenty attempts. */
  ghost function Resend(e: Endpoint, i: nat, now: Millis): Endpoint
    requires i < |e.send.pending|
  {
    var p := e.send.pending[i];
    if p.attempts + 1 > MAX_ATTEMPTS then Fail(e)
    else
      Emit(e.(send := e.send.(pending := e.send.pending[i := p.(attempts := p.attempts + 1, lastSentAt := now)])),
           Data(p.sequence, p.payload))
  }

  predicate IsNumber(n: int) { 0 <= n <= U64_MAX }

  ghost function ResendClose(e: Endpoint, now: Millis): Endpoint
    requires e.close.Some?
  {
    var c := e.close.value;
    if c.attempts + 1 > MAX_ATTEMPTS then Fail(e)
    else Emit(e.(close := Some(c.(attempts := c.attempts + 1, lastSentAt := now))), Close(c.finalSequence))
  }

  /** Once the local stream has ended and nothing is outstanding, the close handshake starts. */
  ghost function MaybeStartClose(e: Endpoint, now: Millis): Endpoint {
    if e.close.Some? || e.send.pending != [] || !e.readClosed then e
    else Emit(e.(close := Some(PendingClose(e.nextOutbound, 1, now))), Close(e.nextOutbound))
  }

  ghost predicate MayRead(e: Endpoint) {
    !e.readClosed && e.close.None? && |e.send.pending| < SendWindowSize(e.send.window)
  }

  /** A chunk is sealed, numbered and sent; an overflow of the number ends the channel. */
  ghost function OnRead(e: Endpoint, chunk: Bytes, now: Millis): Endpoint {
    var sealed := SealAt(e.sendDirection, e.sealCounter, chunk);
    if e.nextOutbound == U64_MAX then Fail(e.(sealCounter := SatAdd64(e.sealCounter, 1)))
    else
      Emit(e.(read := e.read + [chunk],
              nextOutbound := e.nextOutbound + 1,
              sealCounter := SatAdd64(e.sealCounter, 1),
              send := e.send.(pending := e.send.pending + [Pending(e.nextOutbound, sealed, 1, now)])),
           Data(e.nextOutbound, sealed))
  }

  ghost function OnEof(e: Endpoint, now: Millis): Endpoint {
    MaybeStartClose(e.(readClosed := true), now)
  }

  ghost predicate CloseDue(e: Endpoint, now: Millis) {
    e.close.Some? && Elapsed(now, e.close.value.lastSentAt) >= e.send.rto
  }

  /** The retransmission timer. */
  ghost function OnTick(e: Endpoint, now: Millis): Endpoint {
    var i := TimedOutIndex(e.send.pending, now, e.send.rto);
    var resent := if i < |e.send.pending| then Resend(e, i, now) else e;
    if resent.status.Failed? then resent
    else
      var closed := if CloseDue(e, now) then ResendClose(resent, now) else resent;
      if closed.status.Failed? then closed
      else if i < |e.send.pending| then
        closed.(send := closed.send.(window := Timeout(e.send.window, |e.send.pending|), rto := Backoff(e.send.rto)))
      else if CloseDue(e, now) then
        closed.(send := closed.send.(rto := Backoff(e.send.rto)))
      else closed
  }

  /** The position of a sequence in the queue, or the length of the queue. */
  function IndexOf(q: seq<Pending>, sequence: int): (i: nat)
    ensures i <= |q| && (i < |q| ==> q[i].sequence == sequence)
  {
    if q == [] || q[0].sequence == sequence then 0 else 1 + IndexOf(q[1..], sequence)
  }

  /** The acknowledgement is processed and the packet it asks for, if any, is sent again. */
  ghost function AckedAndResent(e: Endpoint, next: u64, ranges: seq<Range>, now: Millis): Endpoint {
    var (send, resend) := AfterAck(e.send, next, ranges, now);
    var acked := e.(send := send, highestAck := Max(e.highestAck, next));
    if resend.Some? && IndexOf(send.pending, resend.value) < |send.pending|
    then Resend(acked, IndexOf(send.pending, resend.value), now)
    else acked
  }

  ghost function OnAck(e: Endpoint, next: u64, ranges: seq<Range>, now: Millis): Endpoint {
    var resent := AckedAndResent(e, next, ranges, now);
    if resent.status.Failed? then resent else MaybeStartClose(resent, now)
  }

  // ---- receiving

  /** The plaintexts of released payloads, opened one by one, up to the first that does not open. */
  ghost function OpenAll(d: Direction, counter: u64, ready: seq<Sealed>): seq<Bytes>
    decreases |ready|
  {
    if ready == [] then []
    else match Open(d, BuildNonce(d.noncePrefix, counter), ready[0])
      case None => []
      case Some(plaintext) => [plaintext] + OpenAll(d, SatAdd64(counter, 1), ready[1..])
  }

  function CounterAfter(counter: u64, uses: nat): u64 { Min(counter + uses, U64_MAX) }

  /** The acknowledgement that describes the receiver's present state. */
  ghost function Report(b: Inbound<Sealed>): Envelope {
    if IsNumber(b.expected) && Numbers(b.buffered.Keys) then Ack(b.expected, SackRanges(b.buffered.Keys)) else Ack(0, [])
  }

  /** Overflow of the expected number ends the channel. */
  ghost function OnData(e: Endpoint, sequence: u64, payload: Sealed): Endpoint {
    var (inbound, ready) := Queued(e.inbound, sequence, payload);
    if inbound.expected > U64_MAX then Fail(e.(inbound := Overflowed(e.inbound)))
    else Released(e, inbound, ready)
  }

  /** What is released is opened and written, and the new state is reported. */
  ghost function Released(e: Endpoint, inbound: Inbound<Sealed>, ready: seq<Sealed>): Endpoint {
    var plaintexts := OpenAll(e.receiveDirection, e.openCounter, ready);
    var after := e.(inbound := inbound, written := e.written + plaintexts);
    if |plaintexts| < |ready| then
      Fail(after.(openCounter := CounterAfter(e.openCounter, |plaintexts| + 1)))
    else
      Emit(after.(openCounter := CounterAfter(e.openCounter, |plaintexts|)), Report(inbound))
  }

  ghost function OnClose(e: Endpoint, finalSequence: u64): Endpoint {
    if finalSequence > e.inbound.expected then Emit(e, Report(e.inbound))
    else Emit(e.(status := LeftByPeerClose), CloseAck(finalSequence))
  }

  ghost function OnCloseAck(e: Endpoint, finalSequence: u64): Endpoint {
    if e.close.Some? && finalSequence >= e.close.value.finalSequence then e.(status := LeftByCloseAck) else e
  }

  // ---- steps

  /** `Abort` stands for anything that ends the loop with an error: sockets, idle timeouts, rejections. */
  datatype Event =
    | ReadEvent(chunk: Bytes, now: Millis)
    | EofEvent(now: Millis)
    | TickEvent(now: Millis)
    | ReceiveEvent(message: Envelope, now: Millis)
    | AbortEvent

  ghost predicate Enabled(e: Endpoint, ev: Event) {
    && e.status.Running?
    && match ev
       case ReadEvent(chunk, _) => MayRead(e) && 0 < |chunk| <= MAX_PLAINTEXT
       case EofEvent(_) => MayRead(e)
       case TickEvent(_) => e.send.pending != [] || e.close.Some?
       case ReceiveEvent(_, _) => true
       case AbortEvent => true
  }

  ghost function OnMessage(e: Endpoint, m: Envelope, now: Millis): Endpoint {
    match m
    case Data(sequence, payload) => OnData(e, sequence, payload)
    case Ack(next, ranges) => OnAck(e, next, ranges, now)
    case Close(finalSequence) => OnClose(e, finalSequence)
    case CloseAck(finalSequence) => OnCloseAck(e, finalSequence)
  }

  ghost function Step(e: Endpoint, ev: Event): Endpoint
    requires Enabled(e, ev)
  {
    match ev
    case ReadEvent(chunk, now) => OnRead(e, chunk, now)
    case EofEvent(now) => OnEof(e, now)
    case TickEvent(now) => OnTick(e, now)
    case ReceiveEvent(m, now) => OnMessage(e, m, now)
    case AbortEvent => Fail(e)
  }
}
