/** The window after an acknowledgement, in numbers: slow start, congestion avoidance, inflation in recovery. */
module WindowLaws {
  import opened Common
  import opened Ranges
  import opened Congestion
  import opened RetransmitTimer
  import opened LossRecovery
  import opened AckHandling
  import opened RecoveryEpisode

  /**
     What `acked` packets freed outside recovery do to a window: in slow start it grows by as many packets,
     up to 32; in congestion avoidance its square grows by twice as many, and it by at most one per window.
   */
  ghost predicate Grown(w: Window, acked: nat, n: Window) {
    && n.ssthresh == w.ssthresh && n.recovery.None?
    && Square(w.cwnd) > 0.0
    && (w.cwnd < w.ssthresh ==> n.cwnd == MinR(w.cwnd + acked as real, 32.0))
    && (w.cwnd >= w.ssthresh ==>
          && w.cwnd <= n.cwnd <= 32.0
          && MinR(Square(32.0), Square(w.cwnd) + 2.0 * acked as real) <= Square(n.cwnd)
          && Square(n.cwnd) <= Square(w.cwnd) + 2.0 * acked as real + Times(acked, 1.0 / Square(w.cwnd))
          && (acked as real <= w.cwnd ==> n.cwnd <= w.cwnd + 1.0))
  }

  lemma SquareOrder(x: real, y: real)
    requires 0.0 <= x <= y
    ensures Square(x) <= Square(y)
  {
  }

  lemma SquareIsPositive(x: real)
    requires x >= 2.0
    ensures Square(x) > 0.0
  {
  }

  /** The growth law, carried over from the unclamped value to one cut at 32. */
  lemma CutGrowth(c: real, k: nat, grown: real)
    requires 2.0 <= c <= 32.0 && c <= grown && Square(c) > 0.0
    requires Square(c) + 2.0 * k as real <= Square(grown) <= Square(c) + 2.0 * k as real + Times(k, 1.0 / Square(c))
    ensures
      var n := MinR(grown, 32.0);
      && c <= n <= 32.0
      && MinR(Square(32.0), Square(c) + 2.0 * k as real) <= Square(n)
      && Square(n) <= Square(c) + 2.0 * k as real + Times(k, 1.0 / Square(c))
  {
    SquareOrder(MinR(grown, 32.0), grown);
    hide Square, Times;
  }

  lemma FreedPacketsGrowWindow(w: Window, acked: nat, next: int, front: Option<int>)
    requires InBounds(w) && w.recovery.None? && acked > 0
    ensures var (n, resend) := AckProgress(w, acked, next, front);
      Grown(w, acked, n) && resend.None?
  {
    SquareIsPositive(w.cwnd);
    if w.cwnd >= w.ssthresh {
      AvoidanceGrowth(w.cwnd, acked);
      hide Square, Times;
      CutGrowth(w.cwnd, acked, Avoid(w.cwnd, acked));
      if acked as real <= w.cwnd {
        OnePacketPerWindow(w.cwnd, acked);
      }
      hide Avoid;
    } else {
      hide Square, Times, Avoid;
    }
  }

  /** Outside recovery, an acknowledgement that starts none grows the window by what it frees. */
  lemma AckGrowsWindow(s: SendState, next: int, ranges: seq<Range>, now: Millis)
    requires InBounds(s.window) && s.window.recovery.None? && !Fires(s, next, ranges)
    ensures
      var n := AfterAck(s, next, ranges, now).0;
      var freed := |s.pending| - |n.pending|;
      if freed > 0 then Grown(s.window, freed, n.window) else n.window == s.window
  {
    var q := KeptBy(s, next, ranges);
    if |q| < |s.pending| {
      FreedPacketsGrowWindow(s.window, |s.pending| - |q|, next, Front(q));
    }
    hide Keep, BudgetChoice, RttSample, Sampled, NewEvidence, Noted, Grow, Grown;
  }

  /**
     Inside recovery, an acknowledgement that neither ends nor restarts it sets the window a packet above
     the threshold if it frees any, and adds another packet if it is counted as a duplicate.
   */
  lemma AckInflatesWindow(s: SendState, next: int, ranges: seq<Range>, now: Millis)
    requires InBounds(s.window) && s.window.recovery.Some?
    requires !Fires(s, next, ranges) && !Leaves(s, next, ranges)
    ensures
      var n := AfterAck(s, next, ranges, now).0;
      var base := if |n.pending| < |s.pending| then MinR(s.window.ssthresh + 1.0, 32.0) else s.window.cwnd;
      var duplicate := Front(n.pending) == Some(next) && !(s.pending != [] && s.pending[0].sequence < next);
      n.window == Window(if duplicate then MinR(base + 1.0, 32.0) else base, s.window.ssthresh, s.window.recovery)
  {
    hide Keep, BudgetChoice, RttSample, Sampled, NewEvidence, Noted;
  }

  /** A fast retransmit leaves a threshold of half the packets queued, within the limits, and a window three above. */
  lemma RestartedWindow(s: SendState, next: int, ranges: seq<Range>, now: Millis)
    requires Fires(s, next, ranges)
    ensures
      var n := AfterAck(s, next, ranges, now).0;
      var half := MaxR(2.0, MinR(32.0, |n.pending| as real / 2.0));
      n.pending != []
      && n.window == Window(MinR(half + 3.0, 32.0), half, Some(Min(n.pending[|n.pending| - 1].sequence + 1, U64_MAX)))
  {
    EpisodeBegins(s, next, ranges, now);
    hide AfterAck, Fires;
  }
}
