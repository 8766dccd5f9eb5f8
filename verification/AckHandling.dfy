/** The sender's reaction to an acknowledgement (`handle_direct_channel_ack`). */
module AckHandling {
  import opened Common
  import opened Ranges
  import opened Scoreboard
  import opened Congestion
  import opened RetransmitTimer
  import opened LossRecovery

  datatype Tracker = Tracker(lastAck: Option<int>, duplicates: u32, lastFastRetransmit: Option<int>)

  const NO_ACKS: Tracker := Tracker(None, 0, None)

  /** The sender's state; the scoreboard appears as the set it stands for. */
  datatype SendState = SendState(
    pending: seq<Pending>,
    sacked: set<int>,
    window: Window,
    rto: Millis,
    estimate: Estimate,
    tracker: Tracker)

  /** The entries an acknowledgement leaves outstanding, in order. */
  ghost function Keep(q: seq<Pending>, next: int, sacked: set<int>): (kept: seq<Pending>)
    ensures |kept| <= |q|
  {
    if q == [] then []
    else if q[0].sequence >= next && q[0].sequence !in sacked then [q[0]] + Keep(q[1..], next, sacked)
    else Keep(q[1..], next, sacked)
  }

  function Front(q: seq<Pending>): Option<int> {
    if q == [] then None else Some(q[0].sequence)
  }

  /** The last cumulatively acknowledged entry that was sent once only. */
  function LastFresh(q: seq<Pending>, next: int): Option<Pending> {
    if q == [] then None
    else
      var later := LastFresh(q[1..], next);
      if later.Some? then later
      else if q[0].sequence < next && q[0].attempts == 1 then Some(q[0])
      else None
  }

  /** The first selectively acknowledged entry that was sent once only. */
  ghost function FirstFresh(q: seq<Pending>, next: int, sacked: set<int>): Option<Pending> {
    if q == [] then None
    else if q[0].sequence >= next && q[0].sequence in sacked && q[0].attempts == 1 then Some(q[0])
    else FirstFresh(q[1..], next, sacked)
  }

  ghost function RttSample(q: seq<Pending>, next: int, sacked: set<int>, now: Millis): Option<Millis> {
    match LastFresh(q, next)
    case Some(p) => Some(Elapsed(now, p.lastSentAt))
    case None =>
      match FirstFresh(q, next, sacked)
      case Some(p) => Some(Elapsed(now, p.lastSentAt))
      case None => None
  }

  /** One more sight of the same acknowledgement number, or the first of a new one. */
  function Noted(t: Tracker, next: int, evidence: u32): Tracker {
    if t.lastAck == Some(next) then t.(duplicates := SatAdd32(t.duplicates, evidence))
    else Tracker(Some(next), evidence, None)
  }

  /** The scoreboard after an acknowledgement. */
  ghost function SackedAfter(sacked: set<int>, next: int, ranges: seq<Range>): set<int> {
    AtLeast(sacked, next) + Cover(ranges)
  }

  /** What one acknowledgement does to the sender, and the sequence it asks to resend. */
  ghost function AfterAck(s: SendState, next: int, ranges: seq<Range>, now: Millis): (SendState, Option<int>) {
    var sacked := SackedAfter(s.sacked, next, ranges);
    var pending := Keep(s.pending, next, sacked);
    var acked := |s.pending| - |pending|;
    var sample := RttSample(s.pending, next, sacked, now);
    var (estimate, rto) := if sample.Some? then Sampled(s.estimate, sample.value) else (s.estimate, s.rto);
    var (window, resend) := AckProgress(s.window, acked, next, Front(pending));
    var progressed := SendState(pending, sacked, window, rto, estimate, s.tracker);
    if Front(pending) != Some(next) || (s.pending != [] && s.pending[0].sequence < next) then
      (progressed.(tracker := Tracker(Some(next), 0, resend)), resend)
    else
      var evidence := Min(Max(NewEvidence(s.sacked, next, ranges), 1), U32_MAX);
      AfterDuplicate(progressed.(tracker := Noted(s.tracker, next, evidence)), next, resend)
  }

  /** The number of sequences an acknowledgement reports for the first time. */
  ghost function NewEvidence(sacked: set<int>, next: int, ranges: seq<Range>): nat {
    Min(|Cover(ranges) - AtLeast(sacked, next)|, USIZE_MAX)
  }

  /** The duplicate-acknowledgement rule, once the acknowledgement has been noted. */
  ghost function AfterDuplicate(s: SendState, next: int, resend: Option<int>): (SendState, Option<int>)
    requires s.pending != []
  {
    var duplicated := s.(window := DuplicateAck(s.window));
    if resend.Some? then (duplicated.(tracker := s.tracker.(lastFastRetransmit := resend)), resend)
    else if s.tracker.duplicates < DUP_ACK_THRESHOLD then (duplicated, None)
    else
      var candidate := BudgetChoice(s.pending, s.sacked, s.tracker.duplicates / DUP_ACK_THRESHOLD, next);
      if s.tracker.lastFastRetransmit == candidate then (duplicated, None)
      else
        var until := Min(s.pending[|s.pending| - 1].sequence + 1, U64_MAX);
        (duplicated.(window := FastRetransmit(duplicated.window, |s.pending|, until),
                     tracker := s.tracker.(lastFastRetransmit := candidate)), candidate)
  }

  // ---- facts about the filter

  lemma {:induction false} KeepMembers(q: seq<Pending>, next: int, sacked: set<int>)
    ensures forall p :: p in Keep(q, next, sacked) <==> p in q && p.sequence >= next && p.sequence !in sacked
  {
    if q != [] {
      KeepMembers(q[1..], next, sacked);
      assert forall p :: p in q <==> p == q[0] || p in q[1..];
    }
  }

  lemma {:induction false} KeepSorted(q: seq<Pending>, next: int, sacked: set<int>)
    requires Sorted(q)
    ensures Sorted(Keep(q, next, sacked))
  {
    if q != [] {
      SortedTail(q);
      var rest := Keep(q[1..], next, sacked);
      KeepSorted(q[1..], next, sacked);
      KeepMembers(q[1..], next, sacked);
      forall i | 0 <= i < |rest|
        ensures q[0].sequence < rest[i].sequence
      {
        assert rest[i] in q[1..];
      }
    }
  }

  lemma {:induction false} KeepConcat(a: seq<Pending>, b: seq<Pending>, next: int, sacked: set<int>)
    ensures Keep(a + b, next, sacked) == Keep(a, next, sacked) + Keep(b, next, sacked)
  {
    if a == [] {
      assert a + b == b;
    } else {
      assert (a + b)[1..] == a[1..] + b;
      KeepConcat(a[1..], b, next, sacked);
    }
  }

  lemma {:induction false} KeepAll(q: seq<Pending>, next: int, sacked: set<int>)
    requires forall i :: 0 <= i < |q| ==> q[i].sequence >= next && q[i].sequence !in sacked
    ensures Keep(q, next, sacked) == q
  {
    if q != [] {
      KeepAll(q[1..], next, sacked);
    }
  }

  // ---- the sender object

  class DirectSender {
    var pending: seq<Pending>
    const scoreboard: SelectiveAckScoreboard
    const congestion: CongestionController
    const estimator: RttEstimator
    var rto: Millis
    var lastAck: Option<int>
    var duplicates: u32
    var lastFastRetransmit: Option<int>

    ghost predicate Valid()
      reads this, scoreboard, congestion
    {
      && scoreboard.Valid()
      && congestion.Valid()
      && Sorted(pending)
      && forall p :: p in pending ==> p.sequence < U64_MAX
    }

    ghost function State(): SendState
      reads this, scoreboard, congestion, estimator
    {
      SendState(pending, scoreboard.Sacked(), congestion.State(), rto, estimator.State(),
                Tracker(lastAck, duplicates, lastFastRetransmit))
    }

    constructor ()
      ensures Valid() && fresh(scoreboard) && fresh(congestion) && fresh(estimator)
      ensures State() == SendState([], {}, INITIAL_WINDOW, INITIAL_RTO, NO_ESTIMATE, NO_ACKS)
    {
      pending, rto := [], INITIAL_RTO;
      lastAck, duplicates, lastFastRetransmit := None, 0, None;
      scoreboard := new SelectiveAckScoreboard();
      congestion := new CongestionController();
      estimator := new RttEstimator();
    }

    method HandleAck(next: u64, ranges: seq<Range>, now: Millis) returns (resend: Option<int>)
      requires Valid()
      modifies this, scoreboard, congestion, estimator
      ensures Valid()
      ensures (State(), resend) == AfterAck(old(State()), next, ranges, now)
    {
      hide Cover;
      hide Canonical;
      hide Sorted;
      hide Keep;
      hide RttSample;
      hide NewEvidence;
      hide SackedAfter;
      hide Sampled;
      hide AckProgress;
      hide AfterDuplicate;
      var acked, cumulative, newEvidence, sample := Acknowledge(next, ranges, now);
      NothingLostNoSample(old(pending), next, scoreboard.Sacked(), now);
      resend := Progress(acked, next, sample);
      var hasMissingFront := pending != [] && pending[0].sequence == next;
      if !hasMissingFront || cumulative {
        lastAck, duplicates, lastFastRetransmit := Some(next), 0, resend;
        return;
      }
      var evidence := Min(Max(newEvidence, 1), U32_MAX);
      if lastAck == Some(next) {
        duplicates := SatAdd32(duplicates, evidence);
      } else {
        lastAck, duplicates, lastFastRetransmit := Some(next), evidence, None;
      }
      resend := CountDuplicate(next, resend);
    }

    /** Removes what the acknowledgement covers, cumulatively and then selectively. */
    method Acknowledge(next: u64, ranges: seq<Range>, now: Millis)
      returns (acked: nat, cumulative: bool, newEvidence: nat, sample: Option<Millis>)
      requires Valid()
      modifies this`pending, scoreboard
      ensures Valid()
      ensures scoreboard.Sacked() == SackedAfter(old(scoreboard.Sacked()), next, ranges)
      ensures pending == Keep(old(pending), next, scoreboard.Sacked())
      ensures acked == |old(pending)| - |pending|
      ensures cumulative <==> old(pending) != [] && old(pending)[0].sequence < next
      ensures newEvidence == NewEvidence(old(scoreboard.Sacked()), next, ranges)
      ensures sample == RttSample(old(pending), next, scoreboard.Sacked(), now)
    {
      hide Cover;
      hide Canonical;
      var popped;
      popped, sample := PopAcknowledged(next, now);
      scoreboard.AdvanceCumulativeAck(next);
      newEvidence := scoreboard.ObserveRanges(ranges);
      KeepMembers(old(pending), next, {});
      var removed;
      removed, sample := RemoveSelectivelyAcknowledged(next, now, sample);
      acked, cumulative := popped + removed, popped > 0;
      KeepInTwoSteps(old(pending), next, scoreboard.Sacked());
      SampleInTwoSteps(old(pending), next, scoreboard.Sacked());
      KeepSorted(old(pending), next, scoreboard.Sacked());
      KeepMembers(old(pending), next, scoreboard.Sacked());
    }

    /** Feeds the progress made to the timer and the window. */
    method Progress(acked: nat, next: u64, sample: Option<Millis>) returns (resend: Option<int>)
      requires Valid()
      requires acked == 0 ==> sample == None
      modifies this`rto, congestion, estimator
      ensures Valid()
      ensures (congestion.State(), resend) == AckProgress(old(congestion.State()), acked, next, Front(pending))
      ensures (estimator.State(), rto)
           == if sample.Some? then Sampled(old(estimator.State()), sample.value) else old((estimator.State(), rto))
    {
      hide Cover;
      hide Canonical;
      resend := None;
      if acked > 0 {
        if sample.Some? {
          rto := estimator.Update(sample.value);
        }
        resend := congestion.OnAckProgress(acked, next, Front(pending));
        if resend.Some? {
          ProgressPicksFront(pending, scoreboard.ranges);
          resend := SelectLossRecovery(pending, scoreboard.ranges, RecoveryProgress(resend.value));
        }
      }
    }

    /** Drops the front of the queue up to the cumulative acknowledgement. */
    method PopAcknowledged(next: u64, now: Millis) returns (count: nat, sample: Option<Millis>)
      requires Valid()
      modifies this`pending
      ensures Valid() && pending == Keep(old(pending), next, {})
      ensures count == |old(pending)| - |pending|
      ensures count > 0 <==> old(pending) != [] && old(pending)[0].sequence < next
      ensures sample == ElapsedSince(LastFresh(old(pending), next), now)
    {
      count, sample := 0, None;
      ghost var latest := None;
      while pending != [] && next > pending[0].sequence
        invariant count <= |old(pending)| && pending == old(pending)[count..]
        invariant Valid()
        invariant Keep(pending, next, {}) == Keep(old(pending), next, {})
        invariant count > 0 ==> old(pending)[0].sequence < next
        invariant sample == ElapsedSince(latest, now)
        invariant LastFresh(old(pending), next)
               == if LastFresh(pending, next).Some? then LastFresh(pending, next) else latest
        decreases |pending|
      {
        var p := pending[0];
        SortedTail(pending);
        pending := pending[1..];
        if p.attempts == 1 {
          sample, latest := Some(Elapsed(now, p.lastSentAt)), Some(p);
        }
        count := count + 1;
      }
      NoneBelow(pending, next);
      KeepAll(pending, next, {});
    }

    /** Drops the entries the scoreboard contains, wherever they are in the queue. */
    method RemoveSelectivelyAcknowledged(next: u64, now: Millis, cumulativeSample: Option<Millis>)
      returns (count: nat, sample: Option<Millis>)
      requires Valid()
      requires forall i :: 0 <= i < |pending| ==> next <= pending[i].sequence
      modifies this`pending
      ensures pending == Keep(old(pending), next, scoreboard.Sacked())
      ensures count == |old(pending)| - |pending|
      ensures sample == if cumulativeSample.Some? then cumulativeSample
                        else ElapsedSince(FirstFresh(old(pending), next, scoreboard.Sacked()), now)
    {
      hide Cover;
      hide Canonical;
      hide PositionsOf;
      hide Keep;
      var positions;
      positions, sample := SelectivePositions(next, now, cumulativeSample);
      // The positions are already ascending and distinct, so sorting and deduplicating them does nothing.
      count := RemovePositions(positions, next);
    }

    method SelectivePositions(next: u64, now: Millis, cumulativeSample: Option<Millis>)
      returns (positions: seq<nat>, sample: Option<Millis>)
      requires Valid()
      requires forall i :: 0 <= i < |pending| ==> next <= pending[i].sequence
      ensures PositionsOf(positions, pending, |pending|, scoreboard.Sacked())
      ensures sample == if cumulativeSample.Some? then cumulativeSample
                        else ElapsedSince(FirstFresh(pending, next, scoreboard.Sacked()), now)
    {
      hide Cover;
      hide Canonical;
      ghost var sacked := scoreboard.Sacked();
      positions, sample := [], cumulativeSample;
      for index := 0 to |pending|
        invariant PositionsOf(positions, pending, index, sacked)
        invariant FirstFreshOrSample(sample, pending, index, next, sacked, now, cumulativeSample)
      {
        var p := pending[index];
        if p.sequence < next || !scoreboard.Contains(p.sequence) {
          continue;
        }
        if p.attempts == 1 && sample.None? {
          sample := Some(Elapsed(now, p.lastSentAt));
        }
        positions := positions + [index];
      }
    }

    /** Removes the given positions, last one first. */
    method RemovePositions(positions: seq<nat>, ghost next: u64) returns (count: nat)
      requires PositionsOf(positions, pending, |pending|, scoreboard.Sacked())
      requires forall i :: 0 <= i < |pending| ==> next <= pending[i].sequence
      modifies this`pending
      ensures pending == Keep(old(pending), next, scoreboard.Sacked())
      ensures count == |old(pending)| - |pending|
    {
      hide Cover;
      ghost var base, sacked := pending, scoreboard.Sacked();
      var j := |positions|;
      count := 0;
      assert base[|base|..] == [];
      while j > 0
        invariant 0 <= j <= |positions|
        invariant RemovedFrom(pending, base, Cut(positions, j, base), next, sacked)
        invariant count == |base| - |pending|
      {
        j := j - 1;
        var index := positions[j];
        RemoveOne(pending, base, positions, j, next, sacked);
        pending := pending[..index] + pending[index + 1..];
        count := count + 1;
      }
      NothingBefore(pending, base, positions, next, sacked);
    }

    /** The duplicate-acknowledgement rule. */
    method CountDuplicate(next: u64, progress: Option<int>) returns (resend: Option<int>)
      requires Valid() && pending != []
      modifies this, congestion
      ensures Valid()
      ensures (State(), resend) == AfterDuplicate(old(State()), next, progress)
    {
      resend := None;
      congestion.OnDuplicateAck();
      if progress.Some? {
        lastFastRetransmit := progress;
        return progress;
      }
      if duplicates >= DUP_ACK_THRESHOLD {
        var slots := duplicates / DUP_ACK_THRESHOLD;
        BudgetPicksHole(pending, scoreboard.ranges, slots, next);
        var chosen := SelectLossRecovery(pending, scoreboard.ranges, DuplicateAckBudget(slots, next));
        var candidate := if chosen.Some? then chosen.value else next;
        if lastFastRetransmit != Some(candidate) {
          var recoverUntil := SatAdd64(pending[|pending| - 1].sequence, 1);
          congestion.OnFastRetransmit(|pending|, recoverUntil);
          lastFastRetransmit := Some(candidate);
          return Some(candidate);
        }
      }
    }
  }

  function ElapsedSince(p: Option<Pending>, now: Millis): Option<Millis> {
    if p.Some? then Some(Elapsed(now, p.value.lastSentAt)) else None
  }

  lemma {:induction false} NoneBelow(q: seq<Pending>, next: int)
    requires Sorted(q) && (q != [] ==> next <= q[0].sequence)
    ensures forall i :: 0 <= i < |q| ==> next <= q[i].sequence
    ensures LastFresh(q, next) == None
  {
    if q != [] {
      SortedTail(q);
      NoneBelow(q[1..], next);
    }
  }

  lemma {:induction false} KeepInTwoSteps(q: seq<Pending>, next: int, sacked: set<int>)
    ensures Keep(Keep(q, next, {}), next, sacked) == Keep(q, next, sacked)
  {
    if q != [] {
      KeepInTwoSteps(q[1..], next, sacked);
    }
  }

  lemma {:induction false} SampleInTwoSteps(q: seq<Pending>, next: int, sacked: set<int>)
    ensures FirstFresh(Keep(q, next, {}), next, sacked) == FirstFresh(q, next, sacked)
  {
    if q != [] {
      SampleInTwoSteps(q[1..], next, sacked);
    }
  }

  /** Without an acknowledged entry there is no sample either. */
  lemma {:induction false} NothingLostNoSample(q: seq<Pending>, next: int, sacked: set<int>, now: Millis)
    ensures |Keep(q, next, sacked)| == |q| ==> RttSample(q, next, sacked, now) == None
  {
    if q != [] {
      NothingLostNoSample(q[1..], next, sacked, now);
    }
  }

  // ---- removal by position

  /** `positions` lists, in ascending order, the sacked entries among the first `n`. */
  ghost predicate PositionsOf(positions: seq<nat>, q: seq<Pending>, n: nat, sacked: set<int>)
    requires n <= |q|
  {
    && (forall i :: 0 <= i < |positions| ==> positions[i] < n && q[positions[i]].sequence in sacked)
    && (forall i, j :: 0 <= i < j < |positions| ==> positions[i] < positions[j])
    && (forall k :: 0 <= k < n && q[k].sequence in sacked ==> k in positions)
  }

  ghost predicate FirstFreshOrSample(sample: Option<Millis>, q: seq<Pending>, n: nat, next: int,
                                     sacked: set<int>, now: Millis, initial: Option<Millis>)
    requires n <= |q|
  {
    (if initial.Some? then initial else ElapsedSince(FirstFresh(q, next, sacked), now))
    == (if sample.Some? then sample else ElapsedSince(FirstFresh(q[n..], next, sacked), now))
  }

  /** Where the untouched part of the queue ends when positions from `j` on have been removed. */
  ghost function Cut(positions: seq<nat>, j: nat, q: seq<Pending>): nat
    requires j <= |positions|
  {
    if j < |positions| then positions[j] else |q|
  }

  ghost predicate RemovedFrom(now: seq<Pending>, base: seq<Pending>, cut: nat, next: int, sacked: set<int>) {
    cut <= |base| && now == base[..cut] + Keep(base[cut..], next, sacked)
  }

  lemma RemoveOne(now: seq<Pending>, base: seq<Pending>, positions: seq<nat>, j: nat, next: int, sacked: set<int>)
    requires j < |positions| && PositionsOf(positions, base, |base|, sacked)
    requires forall i :: 0 <= i < |base| ==> next <= base[i].sequence
    requires RemovedFrom(now, base, Cut(positions, j + 1, base), next, sacked)
    ensures positions[j] < |now|
    ensures RemovedFrom(now[..positions[j]] + now[positions[j] + 1..], base, positions[j], next, sacked)
  {
    var at, cut := positions[j], Cut(positions, j + 1, base);
    NoneBetween(base, positions, j, sacked);
    DropAt(base, at, cut, next, sacked);
  }

  lemma NoneBetween(base: seq<Pending>, positions: seq<nat>, j: nat, sacked: set<int>)
    requires j < |positions| && PositionsOf(positions, base, |base|, sacked)
    ensures positions[j] < Cut(positions, j + 1, base) <= |base|
    ensures forall k :: positions[j] < k < Cut(positions, j + 1, base) ==> base[k].sequence !in sacked
  {
    forall m | 0 <= m < |positions|
      ensures positions[m] <= positions[j] || Cut(positions, j + 1, base) <= positions[m]
    {
      if m > j + 1 {
        assert positions[j + 1] < positions[m];
      }
    }
  }

  lemma DropAt(base: seq<Pending>, at: nat, cut: nat, next: int, sacked: set<int>)
    requires at < cut <= |base| && base[at].sequence in sacked
    requires forall k :: at < k < cut ==> next <= base[k].sequence && base[k].sequence !in sacked
    ensures
      var now := base[..cut] + Keep(base[cut..], next, sacked);
      now[..at] + now[at + 1..] == base[..at] + Keep(base[at..], next, sacked)
  {
    var between, tail := base[at + 1..cut], Keep(base[cut..], next, sacked);
    assert Keep(base[at..], next, sacked) == between + tail by {
      KeepAll(between, next, sacked);
      KeepConcat(between, base[cut..], next, sacked);
      assert base[at..][1..] == between + base[cut..];
    }
    WithoutOne(base, at, cut, tail);
  }

  lemma WithoutOne<T>(base: seq<T>, at: nat, cut: nat, tail: seq<T>)
    requires at < cut <= |base|
    ensures
      var now := base[..cut] + tail;
      now[..at] + now[at + 1..] == base[..at] + (base[at + 1..cut] + tail)
  {
    var now := base[..cut] + tail;
    assert now[..at] == base[..at];
    assert now[at + 1..] == base[at + 1..cut] + tail;
  }

  lemma NothingBefore(now: seq<Pending>, base: seq<Pending>, positions: seq<nat>, next: int, sacked: set<int>)
    requires PositionsOf(positions, base, |base|, sacked)
    requires forall i :: 0 <= i < |base| ==> next <= base[i].sequence
    requires RemovedFrom(now, base, Cut(positions, 0, base), next, sacked)
    ensures now == Keep(base, next, sacked)
  {
    var cut := Cut(positions, 0, base);
    assert forall k :: 0 <= k < cut ==> base[k].sequence !in sacked;
    hide PositionsOf, Cut, Keep;
    KeepAll(base[..cut], next, sacked);
    assert base == base[..cut] + base[cut..];
    KeepConcat(base[..cut], base[cut..], next, sacked);
  }
}
