/** What an acknowledgement does to the sender, beyond the code that does it. */
module AckProperties {
  import opened Common
  import opened Ranges
  import opened Scoreboard
  import opened Congestion
  import opened RetransmitTimer
  import opened LossRecovery
  import opened AckHandling

  /** Exactly the entries at or above the number and outside the new scoreboard remain, in order. */
  lemma QueueIsFiltered(s: SendState, next: int, ranges: seq<Range>, now: Millis)
    requires Sorted(s.pending)
    ensures var n := AfterAck(s, next, ranges, now).0;
      && n.sacked == AtLeast(s.sacked, next) + Cover(ranges)
      && n.pending == Keep(s.pending, next, n.sacked)
      && Sorted(n.pending)
      && forall p :: p in n.pending <==> p in s.pending && next <= p.sequence && p.sequence !in n.sacked
  {
    var sacked := SackedAfter(s.sacked, next, ranges);
    KeepSorted(s.pending, next, sacked);
    KeepMembers(s.pending, next, sacked);
  }

  /** Whatever it asks to resend is still outstanding and has not been reported received. */
  lemma ResendIsOutstanding(s: SendState, next: int, ranges: seq<Range>, now: Millis)
    requires Sorted(s.pending)
    ensures var (n, resend) := AfterAck(s, next, ranges, now);
      resend.Some? ==>
        && next <= resend.value && resend.value !in n.sacked
        && exists p :: p in n.pending && p.sequence == resend.value
  {
    var (n, resend) := AfterAck(s, next, ranges, now);
    QueueIsFiltered(s, next, ranges, now);
    if resend.Some? {
      ResendIsQueued(s, next, ranges, now);
      var i :| 0 <= i < |n.pending| && n.pending[i].sequence == resend.value;
      assert n.pending[i] in n.pending;
    }
  }

  lemma ResendIsQueued(s: SendState, next: int, ranges: seq<Range>, now: Millis)
    ensures var (n, resend) := AfterAck(s, next, ranges, now);
      resend.Some? ==> exists i :: 0 <= i < |n.pending| && n.pending[i].sequence == resend.value
  {
    var (n, resend) := AfterAck(s, next, ranges, now);
    if resend.Some? {
      var pending := Keep(s.pending, next, SackedAfter(s.sacked, next, ranges));
      assert n.pending == pending && pending != [];
      if resend != Front(pending) {
        var holes, slots := HoleCount(pending, n.sacked), n.tracker.duplicates / DUP_ACK_THRESHOLD;
        assert resend == BudgetChoice(pending, n.sacked, slots, next);
        assert pending[Min(slots, holes) - 1].sequence == resend.value;
      }
    }
  }

  /** A round-trip sample comes from a packet sent once only, and freed by this acknowledgement. */
  lemma SampleFromPacketSentOnce(q: seq<Pending>, next: int, sacked: set<int>, now: Millis)
    ensures RttSample(q, next, sacked, now).Some? ==>
      exists p :: p in q && p.attempts == 1 && p !in Keep(q, next, sacked)
               && RttSample(q, next, sacked, now) == Some(Elapsed(now, p.lastSentAt))
  {
    LastFreshIsFreed(q, next);
    FirstFreshIsFreed(q, next, sacked);
    KeepMembers(q, next, sacked);
  }

  lemma {:induction false} LastFreshIsFreed(q: seq<Pending>, next: int)
    ensures var p := LastFresh(q, next);
      p.Some? ==> p.value in q && p.value.sequence < next && p.value.attempts == 1
  {
    if q != [] {
      LastFreshIsFreed(q[1..], next);
    }
  }

  lemma {:induction false} FirstFreshIsFreed(q: seq<Pending>, next: int, sacked: set<int>)
    ensures var p := FirstFresh(q, next, sacked);
      p.Some? ==> p.value in q && p.value.sequence in sacked && p.value.attempts == 1
  {
    if q != [] {
      FirstFreshIsFreed(q[1..], next, sacked);
    }
  }

  lemma BoundsKept(s: SendState, next: int, ranges: seq<Range>, now: Millis)
    requires InBounds(s.window) && RtoInBounds(s.rto)
    ensures var n := AfterAck(s, next, ranges, now).0; InBounds(n.window) && RtoInBounds(n.rto)
  {
    hide InBounds;
    hide AckProgress;
    hide DuplicateAck;
    hide FastRetransmit;
    hide Sampled;
  }

  /**
     A recovery in force afterwards either was in force before and is not finished by this
     acknowledgement, or was started by it with something still outstanding.
   */
  lemma RecoveryAfterAck(s: SendState, next: int, ranges: seq<Range>, now: Millis)
    ensures var n := AfterAck(s, next, ranges, now).0;
      n.window.recovery.Some? ==>
        || (n.window.recovery == s.window.recovery
            && (|n.pending| < |s.pending| ==> next < n.window.recovery.value))
        || (n.pending != [] && n.window.recovery.value <= n.pending[|n.pending| - 1].sequence + 1)
  {
  }

  // ---- which packet gives the round-trip sample

  /** Packet `i` is below the acknowledgement and was sent once. */
  predicate FreshBelow(q: seq<Pending>, next: int, i: nat) {
    i < |q| && q[i].sequence < next && q[i].attempts == 1
  }

  /** Packet `i` is not below it, is reported received and was sent once. */
  ghost predicate FreshReported(q: seq<Pending>, next: int, sacked: set<int>, i: nat) {
    i < |q| && q[i].sequence >= next && q[i].sequence in sacked && q[i].attempts == 1
  }

  ghost predicate LatestFreshBelow(q: seq<Pending>, next: int, i: nat) {
    FreshBelow(q, next, i) && forall j :: i < j < |q| ==> !FreshBelow(q, next, j)
  }

  ghost predicate FirstFreshReported(q: seq<Pending>, next: int, sacked: set<int>, i: nat) {
    FreshReported(q, next, sacked, i) && forall j :: 0 <= j < i ==> !FreshReported(q, next, sacked, j)
  }

  lemma {:induction false} LatestBelow(q: seq<Pending>, next: int, i: nat)
    requires LatestFreshBelow(q, next, i)
    ensures LastFresh(q, next) == Some(q[i])
  {
    if i == 0 {
      assert forall j :: 0 <= j < |q[1..]| ==> (FreshBelow(q[1..], next, j) <==> FreshBelow(q, next, j + 1));
      NoneFreshBelow(q[1..], next);
    } else {
      assert forall j :: 0 <= j < |q[1..]| ==> (FreshBelow(q[1..], next, j) <==> FreshBelow(q, next, j + 1));
      LatestBelow(q[1..], next, i - 1);
    }
  }

  lemma {:induction false} NoneFreshBelow(q: seq<Pending>, next: int)
    requires forall j :: 0 <= j < |q| ==> !FreshBelow(q, next, j)
    ensures LastFresh(q, next) == None
  {
    if q != [] {
      assert !FreshBelow(q, next, 0);
      assert forall j :: 0 <= j < |q[1..]| ==> (FreshBelow(q[1..], next, j) <==> FreshBelow(q, next, j + 1));
      NoneFreshBelow(q[1..], next);
    }
  }

  lemma {:induction false} EarliestReported(q: seq<Pending>, next: int, sacked: set<int>, i: nat)
    requires FirstFreshReported(q, next, sacked, i)
    ensures FirstFresh(q, next, sacked) == Some(q[i])
  {
    if i > 0 {
      assert !FreshReported(q, next, sacked, 0);
      assert forall j :: 0 <= j < |q[1..]| ==>
        (FreshReported(q[1..], next, sacked, j) <==> FreshReported(q, next, sacked, j + 1));
      EarliestReported(q[1..], next, sacked, i - 1);
    }
  }

  lemma {:induction false} NoneReported(q: seq<Pending>, next: int, sacked: set<int>)
    requires forall j :: 0 <= j < |q| ==> !FreshReported(q, next, sacked, j)
    ensures FirstFresh(q, next, sacked) == None
  {
    if q != [] {
      assert !FreshReported(q, next, sacked, 0);
      assert forall j :: 0 <= j < |q[1..]| ==>
        (FreshReported(q[1..], next, sacked, j) <==> FreshReported(q, next, sacked, j + 1));
      NoneReported(q[1..], next, sacked);
    }
  }

  /** The estimate and the timeout are those that follow from a round trip begun when `p` was sent. */
  ghost predicate MeasuredFrom(s: SendState, n: SendState, p: Pending, now: Millis) {
    (n.estimate, n.rto) == Sampled(s.estimate, Elapsed(now, p.lastSentAt))
  }

  /**
     The latest packet below the acknowledgement that was sent once is measured; if there is none, the
     first packet newly reported received that was sent once; and with neither the timer stands.
   */
  lemma LatestPacketIsMeasured(s: SendState, next: int, ranges: seq<Range>, now: Millis)
    ensures
      var n := AfterAck(s, next, ranges, now).0;
      var q := s.pending;
      && (forall i :: 0 <= i < |q| && LatestFreshBelow(q, next, i) ==> MeasuredFrom(s, n, q[i], now))
      && ((forall j :: 0 <= j < |q| ==> !FreshBelow(q, next, j)) ==>
           && (forall i :: 0 <= i < |q| && FirstFreshReported(q, next, n.sacked, i) ==> MeasuredFrom(s, n, q[i], now))
           && ((forall j :: 0 <= j < |q| ==> !FreshReported(q, next, n.sacked, j)) ==>
                 n.estimate == s.estimate && n.rto == s.rto))
  {
    var n := AfterAck(s, next, ranges, now).0;
    var q := s.pending;
    TimerOfSample(s, next, ranges, now);
    hide AfterAck, FreshBelow, FreshReported;
    forall i | 0 <= i < |q| && LatestFreshBelow(q, next, i)
      ensures MeasuredFrom(s, n, q[i], now)
    {
      LatestBelow(q, next, i);
    }
    if forall j :: 0 <= j < |q| ==> !FreshBelow(q, next, j) {
      NoneFreshBelow(q, next);
      forall i | 0 <= i < |q| && FirstFreshReported(q, next, n.sacked, i)
        ensures MeasuredFrom(s, n, q[i], now)
      {
        EarliestReported(q, next, n.sacked, i);
      }
      if forall j :: 0 <= j < |q| ==> !FreshReported(q, next, n.sacked, j) {
        NoneReported(q, next, n.sacked);
      }
    }
  }

  lemma TimerOfSample(s: SendState, next: int, ranges: seq<Range>, now: Millis)
    ensures
      var n := AfterAck(s, next, ranges, now).0;
      var sample := RttSample(s.pending, next, n.sacked, now);
      (n.estimate, n.rto) == if sample.Some? then Sampled(s.estimate, sample.value) else (s.estimate, s.rto)
  {
    hide Keep, BudgetChoice, RttSample, Sampled, NewEvidence, Noted, AckProgress;
  }

  /** Packets sent at 0 and 100 ms and acknowledged together at 200 ms give a sample of 100 ms. */
  lemma LatestOfTwo(s: SendState)
    requires |s.pending| == 2 && s.pending[0].sequence == 0 && s.pending[1].sequence == 1
    requires s.pending[0].attempts == s.pending[1].attempts == 1
    requires s.pending[0].lastSentAt == 0.0 && s.pending[1].lastSentAt == 100.0 && s.estimate == NO_ESTIMATE
    ensures AfterAck(s, 2, [], 200.0).0.rto == 200.0
  {
    LatestPacketIsMeasured(s, 2, [], 200.0);
    hide AfterAck;
    assert LatestFreshBelow(s.pending, 2, 1);
  }

  /**
     An acknowledgement that frees the front, or does not ask for what is then the front, starts the count of
     duplicates afresh, and remembers what it had sent again.
   */
  lemma ProgressStartsCountAfresh(s: SendState, next: int, ranges: seq<Range>, now: Millis)
    requires (s.pending != [] && s.pending[0].sequence < next)
          || Front(AfterAck(s, next, ranges, now).0.pending) != Some(next)
    ensures var (n, resend) := AfterAck(s, next, ranges, now);
      n.tracker == Tracker(Some(next), 0, resend) && (s.window.recovery.None? ==> resend.None?)
  {
    hide RttSample, Sampled, BudgetChoice, Grow;
  }
}
