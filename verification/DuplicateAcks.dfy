/** Fast retransmission over a whole run of duplicate acknowledgements. */
module DuplicateAcks {
  import opened Common
  import opened Ranges
  import opened Scoreboard
  import opened Congestion
  import opened LossRecovery
  import opened AckHandling

  /** The sender waits for exactly `next`, and nothing it has queued was reported received. */
  ghost predicate Waiting(s: SendState, next: int) {
    && Sorted(s.pending) && 0 < |s.pending| <= 32
    && s.pending[0].sequence == next
    && forall p :: p in s.pending ==> p.sequence !in s.sacked
  }

  /** The state after the same plain acknowledgement has arrived once for each of the times. */
  ghost function Repeated(s: SendState, next: int, times: seq<Millis>): SendState {
    if times == [] then s
    else AfterAck(Repeated(s, next, times[..|times| - 1]), next, [], times[|times| - 1]).0
  }

  /** The packets that may be resent: the holes, or the front of the queue when none is known. */
  ghost function Candidates(s: SendState, next: int): nat {
    Max(1, HoleCount(s.pending, AtLeast(s.sacked, next)))
  }

  /** No duplicate of `next` has been counted; the packet itself was resent already if `resent`. */
  ghost predicate NoneCounted(t: Tracker, next: int, resent: bool) {
    if resent then t == Tracker(Some(next), 0, Some(next))
    else t.lastAck != Some(next) || (t.duplicates == 0 && t.lastFastRetransmit.None?)
  }

  /** The tracker after `k` sights of the acknowledgement. */
  ghost function TrackerAt(s: SendState, next: int, k: nat, resent: bool): Tracker
    requires Waiting(s, next) && k > 0
  {
    Tracker(Some(next), Min(k, U32_MAX),
            if k < DUP_ACK_THRESHOLD then (if resent then Some(next) else None)
            else Some(s.pending[Min(k / DUP_ACK_THRESHOLD, Candidates(s, next)) - 1].sequence))
  }

  /** The k-th duplicate resends the hole it pays for, unless that is the front and it was resent already. */
  ghost predicate Resends(s: SendState, next: int, k: nat, resent: bool) {
    && k % DUP_ACK_THRESHOLD == 0
    && (if resent then 2 else 1) <= k / DUP_ACK_THRESHOLD <= Candidates(s, next)
  }

  lemma CandidatesAreQueued(s: SendState, next: int)
    requires Waiting(s, next)
    ensures 1 <= Candidates(s, next) <= |s.pending|
  {
  }

  lemma NothingNew(s: SendState, next: int)
    ensures SackedAfter(s.sacked, next, []) == AtLeast(s.sacked, next)
    ensures NewEvidence(s.sacked, next, []) == 0
  {
    EmptyCover([]);
    assert Cover([]) - AtLeast(s.sacked, next) == {};
  }

  lemma NothingFreed(s: SendState, next: int)
    requires Waiting(s, next)
    ensures Keep(s.pending, next, AtLeast(s.sacked, next)) == s.pending
    ensures LastFresh(s.pending, next) == None
    ensures forall now :: RttSample(s.pending, next, AtLeast(s.sacked, next), now) == None
  {
    var sacked := AtLeast(s.sacked, next);
    forall i | 0 <= i < |s.pending|
      ensures s.pending[i].sequence >= next && s.pending[i].sequence !in sacked
    {
      assert s.pending[i] in s.pending;
    }
    KeepAll(s.pending, next, sacked);
    NoneBelow(s.pending, next);
    forall now
      ensures RttSample(s.pending, next, sacked, now) == None
    {
      NothingLostNoSample(s.pending, next, sacked, now);
    }
  }

  /** A plain acknowledgement of what the sender waits for only counts as a duplicate. */
  lemma PlainDuplicate(s: SendState, next: int, now: Millis)
    requires Waiting(s, next)
    ensures
      var noted := s.(sacked := AtLeast(s.sacked, next), tracker := Noted(s.tracker, next, 1));
      AfterAck(s, next, [], now) == AfterDuplicate(noted, next, None)
  {
    NothingNew(s, next);
    NothingFreed(s, next);
    hide Keep, RttSample, Cover, AtLeast, SackedAfter, NewEvidence, AfterDuplicate;
    assert Front(s.pending) == Some(next);
  }

  /** What one duplicate does once it has been counted: the queue and the scoreboard stand. */
  lemma CountedDuplicate(s: SendState, next: int, now: Millis)
    requires Waiting(s, next)
    ensures var (n, resend) := AfterAck(s, next, [], now);
      var noted := Noted(s.tracker, next, 1);
      var choice := BudgetChoice(s.pending, AtLeast(s.sacked, next), noted.duplicates / DUP_ACK_THRESHOLD, next);
      var fires := noted.duplicates >= DUP_ACK_THRESHOLD && noted.lastFastRetransmit != choice;
      && n.pending == s.pending && n.sacked == AtLeast(s.sacked, next)
      && resend == (if fires then choice else None)
      && n.tracker == (if fires then noted.(lastFastRetransmit := choice) else noted)
  {
    PlainDuplicate(s, next, now);
    hide AfterAck, Waiting;
  }

  lemma StillWaiting(s: SendState, n: SendState, next: int)
    requires Waiting(s, next) && n.pending == s.pending && n.sacked == AtLeast(s.sacked, next)
    ensures Waiting(n, next) && AtLeast(n.sacked, next) == AtLeast(s.sacked, next)
  {
  }

  /**
     In a run of duplicates, the k-th asks for a resend exactly when k is three times some i up to the
     number of holes, and then for the i-th hole: each hole once, in order, and nothing else. The first
     hole is left out if it has just been resent, as after a partial acknowledgement.
   */
  lemma {:induction false} DuplicatesResendEachHoleOnce(
    s: SendState, next: int, resent: bool, times: seq<Millis>, now: Millis)
    requires Waiting(s, next) && NoneCounted(s.tracker, next, resent)
    ensures
      var k := |times| + 1;
      var (n, resend) := AfterAck(Repeated(s, next, times), next, [], now);
      && n.pending == s.pending && n.sacked == AtLeast(s.sacked, next)
      && n.tracker == TrackerAt(s, next, k, resent)
      && resend == if Resends(s, next, k, resent) && k / DUP_ACK_THRESHOLD <= |s.pending|
                   then Some(s.pending[k / DUP_ACK_THRESHOLD - 1].sequence) else None
  {
    hide AfterAck, AtLeast, HoleCount, BudgetChoice;
    var k := |times| + 1;
    var before := Repeated(s, next, times);
    if times != [] {
      DuplicatesResendEachHoleOnce(s, next, resent, times[..|times| - 1], times[|times| - 1]);
      StillWaiting(s, before, next);
    }
    CandidatesAreQueued(s, next);
    CountedDuplicate(before, next, now);
    hide Repeated, Sorted;
    NextChoice(s, next, k, resent);
  }

  /** The candidate after `k` duplicates, against the one before. */
  lemma NextChoice(s: SendState, next: int, k: nat, resent: bool)
    requires Waiting(s, next) && k > 0
    ensures
      var duplicates := Min(k, U32_MAX);
      var choice := BudgetChoice(s.pending, AtLeast(s.sacked, next), duplicates / DUP_ACK_THRESHOLD, next);
      duplicates >= DUP_ACK_THRESHOLD ==>
        && choice == TrackerAt(s, next, k, resent).lastFastRetransmit
        && (k > 1 ==> (TrackerAt(s, next, k - 1, resent).lastFastRetransmit != choice <==> Resends(s, next, k, resent)))
  {
    CandidatesAreQueued(s, next);
  }
}
