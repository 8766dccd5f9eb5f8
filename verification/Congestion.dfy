/** The Reno-style window (`DirectCongestionController`), with `f64` read as `real`. */
module Congestion {
  import opened Common

  const INITIAL_WINDOW_SIZE: real := 4.0
  const MIN_WINDOW_SIZE: real := 2.0
  const MAX_WINDOW_SIZE: real := 32.0
  const DUP_ACK_THRESHOLD: int := 3

  /** `recovery` holds the sequence that must be cumulatively acknowledged to leave fast recovery. */
  datatype Window = Window(cwnd: real, ssthresh: real, recovery: Option<int>)

  const INITIAL_WINDOW: Window := Window(INITIAL_WINDOW_SIZE, MAX_WINDOW_SIZE, None)

  predicate InBounds(w: Window) {
    && MIN_WINDOW_SIZE <= w.cwnd <= MAX_WINDOW_SIZE
    && MIN_WINDOW_SIZE <= w.ssthresh <= MAX_WINDOW_SIZE
  }

  function ClampWindow(x: real): (c: real)
    ensures MIN_WINDOW_SIZE <= c <= MAX_WINDOW_SIZE
  {
    Clamp(x, MIN_WINDOW_SIZE, MAX_WINDOW_SIZE)
  }

  /** The packets that may be outstanding: the whole part of the window. */
  function SendWindowSize(w: Window): (packets: nat)
    ensures 2 <= packets <= 32
    ensures InBounds(w) ==> packets as real <= w.cwnd < packets as real + 1.0
  {
    ClampWindow(w.cwnd.Floor as real).Floor
  }

  function Ssthresh(inflight: nat): real {
    ClampWindow(MaxR(inflight as real, MIN_WINDOW_SIZE) / 2.0)
  }

  /** Congestion avoidance over `k` acknowledged packets, before clamping. */
  function Avoid(c: real, k: nat): real {
    if k == 0 then c
    else
      var d := Avoid(c, k - 1);
      d + 1.0 / MaxR(d, 1.0)
  }

  function Grow(w: Window, acked: nat): Window {
    w.(cwnd := ClampWindow(if w.cwnd < w.ssthresh then w.cwnd + acked as real else Avoid(w.cwnd, acked)))
  }

  /** An acknowledgement that freed `acked` packets; the result may name a packet to resend. */
  function AckProgress(w: Window, acked: nat, next: int, front: Option<int>): (r: (Window, Option<int>))
    ensures InBounds(w) ==> InBounds(r.0)
    ensures r.1.Some? ==> r.1 == front
  {
    if acked == 0 then (w, None)
    else match w.recovery
      case Some(until) =>
        if next >= until then
          (Window(ClampWindow(w.ssthresh), w.ssthresh, None), None)
        else
          (w.(cwnd := ClampWindow(w.ssthresh + 1.0)), front)
      case None => (Grow(w, acked), None)
  }

  function DuplicateAck(w: Window): (r: Window)
    ensures InBounds(w) ==> InBounds(r)
  {
    if w.recovery.Some? then w.(cwnd := MinR(w.cwnd + 1.0, MAX_WINDOW_SIZE)) else w
  }

  function FastRetransmit(w: Window, inflight: nat, until: int): (r: Window)
    ensures InBounds(r)
  {
    Window(ClampWindow(Ssthresh(inflight) + DUP_ACK_THRESHOLD as real), Ssthresh(inflight), Some(until))
  }

  function Timeout(w: Window, inflight: nat): (r: Window)
    ensures InBounds(r)
  {
    Window(MIN_WINDOW_SIZE, Ssthresh(inflight), None)
  }

  class CongestionController {
    var cwnd: real
    var ssthresh: real
    var recovery: Option<int>

    ghost predicate Valid()
      reads this
    {
      InBounds(State())
    }

    ghost function State(): Window
      reads this
    {
      Window(cwnd, ssthresh, recovery)
    }

    constructor ()
      ensures Valid() && State() == INITIAL_WINDOW
    {
      cwnd, ssthresh, recovery := INITIAL_WINDOW_SIZE, MAX_WINDOW_SIZE, None;
    }

    method OnAckProgress(acked: nat, next: int, missingFront: Option<int>) returns (resend: Option<int>)
      requires Valid()
      modifies this
      ensures Valid()
      ensures (State(), resend) == AckProgress(old(State()), acked, next, missingFront)
    {
      if acked == 0 {
        return None;
      }
      if recovery.Some? {
        if next >= recovery.value {
          recovery := None;
          cwnd := ClampWindow(ssthresh);
          return None;
        }
        cwnd := ClampWindow(ssthresh + 1.0);
        return missingFront;
      }
      GrowWindow(acked);
      return None;
    }

    method OnDuplicateAck()
      requires Valid()
      modifies this
      ensures Valid() && State() == DuplicateAck(old(State()))
    {
      if recovery.Some? {
        cwnd := MinR(cwnd + 1.0, MAX_WINDOW_SIZE);
      }
    }

    method OnFastRetransmit(inflight: nat, recoverUntil: int)
      requires Valid()
      modifies this
      ensures Valid() && State() == FastRetransmit(old(State()), inflight, recoverUntil)
    {
      ssthresh := Ssthresh(inflight);
      cwnd := ClampWindow(ssthresh + DUP_ACK_THRESHOLD as real);
      recovery := Some(recoverUntil);
    }

    method OnTimeout(inflight: nat)
      requires Valid()
      modifies this
      ensures Valid() && State() == Timeout(old(State()), inflight)
    {
      ssthresh := Ssthresh(inflight);
      cwnd := MIN_WINDOW_SIZE;
      recovery := None;
    }

    method GrowWindow(acked: nat)
      requires Valid()
      modifies this
      ensures Valid() && State() == Grow(old(State()), acked)
    {
      if cwnd < ssthresh {
        cwnd := cwnd + acked as real;
      } else {
        for i := 0 to acked
          invariant cwnd == Avoid(old(cwnd), i) && ssthresh == old(ssthresh) && recovery == old(recovery)
        {
          cwnd := cwnd + 1.0 / MaxR(cwnd, 1.0);
        }
      }
      cwnd := ClampWindow(cwnd);
    }
  }

  // ---- the growth law of congestion avoidance

  lemma SquareStep(d: real)
    requires d >= 1.0
    ensures
      var e := d + 1.0 / d;
      e * e == d * d + 2.0 + (1.0 / d) * (1.0 / d)
  {
    var inv := 1.0 / d;
    assert d * inv == 1.0;
  }

  lemma InverseSquareShrinks(c: real, d: real)
    requires 1.0 <= c <= d
    ensures 0.0 < 1.0 / d <= 1.0 / c
    ensures (1.0 / d) * (1.0 / d) <= 1.0 / (c * c)
  {
    var i, j := 1.0 / d, 1.0 / c;
    assert d * i == 1.0 && c * j == 1.0;
    assert i <= j by {
      if i > j {
        ProductLess(c, d, j, i);
        assert false;
      }
    }
    assert (c * c) * (j * j) == (c * j) * (c * j);
    assert j * j == 1.0 / (c * c);
    assert i * i <= j * j;
  }

  lemma ProductLess(c: real, d: real, j: real, i: real)
    requires 0.0 < c <= d && 0.0 < j < i
    ensures c * j < d * i
  {
    assert c * j < c * i;
    assert c * i <= d * i;
  }

  function Square(x: real): real { x * x }

  function Times(k: nat, q: real): real { k as real * q }

  lemma OneMore(k: nat, q: real)
    ensures Times(0, q) == 0.0
    ensures Times(k + 1, q) == Times(k, q) + q
  {
  }

  /** One acknowledgement, started no lower than `c`. */
  lemma AvoidStep(c: real, d: real)
    requires 1.0 <= c <= d
    ensures
      var e := d + 1.0 / d;
      && d <= e <= d + 1.0 / c
      && Square(d) + 2.0 <= Square(e) <= Square(d) + 2.0 + 1.0 / Square(c)
  {
    SquareStep(d);
    InverseSquareShrinks(c, d);
  }

  /** `k` acknowledgements take the squared window up by 2k, and by no more than k/c² beyond that. */
  lemma {:induction false} AvoidanceGrowth(c: real, k: nat)
    requires c >= 1.0
    ensures c <= Avoid(c, k) <= c + Times(k, 1.0 / c)
    ensures Square(c) + 2.0 * k as real <= Square(Avoid(c, k))
    ensures Square(Avoid(c, k)) <= Square(c) + 2.0 * k as real + Times(k, 1.0 / Square(c))
  {
    assert Square(c) > 0.0;
    hide Square;
    hide Times;
    if k == 0 {
      OneMore(0, 1.0 / c);
      OneMore(0, 1.0 / Square(c));
    } else {
      AvoidanceGrowth(c, k - 1);
      var d := Avoid(c, k - 1);
      AvoidStep(c, d);
      OneMore(k - 1, 1.0 / c);
      OneMore(k - 1, 1.0 / Square(c));
    }
  }

  /** One window of acknowledgements gains at most one packet. */
  lemma OnePacketPerWindow(c: real, k: nat)
    requires c >= 1.0 && k as real <= c
    ensures Avoid(c, k) <= c + 1.0
  {
    AvoidanceGrowth(c, k);
    TimesInverse(c, k);
    hide Square;
    hide Times;
  }

  lemma TimesInverse(c: real, k: nat)
    requires c >= 1.0 && k as real <= c
    ensures Times(k, 1.0 / c) <= 1.0
  {
    var p := 1.0 / c;
    assert c * p == 1.0 && p > 0.0;
    assert (c - k as real) * p >= 0.0;
  }

  /** Slow start may pass the threshold; it stays at or below it in exactly these cases. */
  lemma SlowStartOvershoot(w: Window, acked: nat)
    requires InBounds(w) && w.cwnd < w.ssthresh
    ensures Grow(w, acked).cwnd <= w.ssthresh
       <==> w.cwnd + acked as real <= w.ssthresh || w.ssthresh == MAX_WINDOW_SIZE
  {
  }

  /** After a timeout with ten packets in flight, four acknowledgements take the window past its threshold. */
  lemma SlowStartCanOvershoot()
    ensures var w := Timeout(INITIAL_WINDOW, 10);
      w.cwnd < w.ssthresh == 5.0 && Grow(w, 4).cwnd == 6.0
  {
  }
}
