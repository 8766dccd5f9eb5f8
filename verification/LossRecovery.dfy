/** The queue of unacknowledged packets and the choice of the packet to resend. */
module LossRecovery {
  import opened Common
  import opened Ranges
  import opened Scoreboard
  import opened SecureChannel

  datatype Pending = Pending(sequence: u64, payload: Sealed, attempts: nat, lastSentAt: Millis)

  ghost predicate Sorted(q: seq<Pending>) {
    forall i, j :: 0 <= i < j < |q| ==> q[i].sequence < q[j].sequence
  }

  function Sequences(q: seq<Pending>): (s: seq<int>)
    ensures |s| == |q| && forall i :: 0 <= i < |q| ==> s[i] == q[i].sequence
  {
    seq(|q|, i requires 0 <= i < |q| => q[i].sequence)
  }

  predicate TimedOut(p: Pending, now: Millis, rto: Millis) { Elapsed(now, p.lastSentAt) >= rto }

  // ---- the selection as the agent computes it

  function AtMost(q: seq<Pending>, bound: int): seq<int> {
    if q == [] then []
    else (if q[0].sequence <= bound then [q[0].sequence] else []) + AtMost(q[1..], bound)
  }

  function SelectiveRetransmitHoles(q: seq<Pending>, ranges: seq<Range>): seq<int> {
    match Highest(ranges)
    case None => []
    case Some(highest) => AtMost(q, highest)
  }

  function Find(q: seq<Pending>, sequence: int): Option<Pending> {
    if q == [] then None else if q[0].sequence == sequence then Some(q[0]) else Find(q[1..], sequence)
  }

  function OldestTimedOut(q: seq<Pending>, now: Millis, rto: Millis): Option<int> {
    if q == [] then None
    else if TimedOut(q[0], now, rto) then Some(q[0].sequence)
    else OldestTimedOut(q[1..], now, rto)
  }

  function FirstTimedOutHole(q: seq<Pending>, holes: seq<int>, now: Millis, rto: Millis): Option<int> {
    if holes == [] then None
    else
      var found := Find(q, holes[0]);
      if found.Some? && TimedOut(found.value, now, rto) then Some(holes[0])
      else FirstTimedOutHole(q, holes[1..], now, rto)
  }

  datatype Trigger =
    | TimeoutTrigger(now: Millis, rto: Millis)
    | DuplicateAckBudget(slots: nat, fallback: int)
    | RecoveryProgress(fallback: int)

  function SelectLossRecovery(q: seq<Pending>, ranges: seq<Range>, trigger: Trigger): Option<int> {
    var holes := SelectiveRetransmitHoles(q, ranges);
    match trigger
    case TimeoutTrigger(now, rto) =>
      var hole := FirstTimedOutHole(q, holes, now, rto);
      if hole.Some? then hole else OldestTimedOut(q, now, rto)
    case DuplicateAckBudget(slots, fallback) =>
      if slots == 0 then None
      else if slots - 1 < |holes| then Some(holes[slots - 1])
      else if holes != [] then Some(holes[|holes| - 1])
      else Some(fallback)
    case RecoveryProgress(fallback) =>
      if holes != [] then Some(holes[0]) else Some(fallback)
  }

  // ---- the rule it refines

  /** How many entries at the front of the queue lie at or below something already received. */
  ghost function HoleCount(q: seq<Pending>, sacked: set<int>): (n: nat)
    ensures n <= |q|
  {
    if q == [] || !BelowSome(q[0].sequence, sacked) then 0 else 1 + HoleCount(q[1..], sacked)
  }

  ghost predicate BelowSome(sequence: int, sacked: set<int>) {
    exists x :: x in sacked && sequence <= x
  }

  /** The position of the first timed-out packet, or the length of the queue. */
  function TimedOutIndex(q: seq<Pending>, now: Millis, rto: Millis): (i: nat)
    ensures i <= |q| && (i < |q| ==> TimedOut(q[i], now, rto))
    ensures forall j :: 0 <= j < i ==> !TimedOut(q[j], now, rto)
  {
    if q == [] || TimedOut(q[0], now, rto) then 0 else 1 + TimedOutIndex(q[1..], now, rto)
  }

  lemma SortedTail(q: seq<Pending>)
    requires Sorted(q) && q != []
    ensures Sorted(q[1..])
    ensures forall i :: 0 <= i < |q[1..]| ==> q[0].sequence < q[1..][i].sequence
  {
  }

  lemma {:induction false} NoneAtMost(q: seq<Pending>, bound: int)
    requires forall i :: 0 <= i < |q| ==> bound < q[i].sequence
    ensures AtMost(q, bound) == []
  {
    if q != [] {
      NoneAtMost(q[1..], bound);
    }
  }

  /** On a sorted queue the holes are a prefix. */
  lemma {:induction false} HolesArePrefix(q: seq<Pending>, ranges: seq<Range>)
    requires Sorted(q) && Canonical(ranges)
    ensures SelectiveRetransmitHoles(q, ranges) == Sequences(q[..HoleCount(q, Cover(ranges))])
  {
    HighestIsLastEnd(ranges);
    if q != [] && ranges != [] {
      var n := HoleCount(q, Cover(ranges));
      assert BelowSome(q[0].sequence, Cover(ranges)) <==> q[0].sequence <= Last(ranges).end;
      SortedTail(q);
      if n == 0 {
        NoneAtMost(q, Last(ranges).end);
      } else {
        HolesArePrefix(q[1..], ranges);
        assert q[..n] == [q[0]] + q[1..][..n - 1];
      }
    }
  }

  lemma {:induction false} FindAt(q: seq<Pending>, i: nat)
    requires Sorted(q) && i < |q|
    ensures Find(q, q[i].sequence) == Some(q[i])
  {
    if i != 0 {
      SortedTail(q);
      FindAt(q[1..], i - 1);
    }
  }

  lemma {:induction false} OldestIsFirst(q: seq<Pending>, now: Millis, rto: Millis)
    ensures var i := TimedOutIndex(q, now, rto);
      OldestTimedOut(q, now, rto) == if i < |q| then Some(q[i].sequence) else None
  {
    if q != [] && !TimedOut(q[0], now, rto) {
      OldestIsFirst(q[1..], now, rto);
    }
  }

  /** Scanning the holes from position `from` on finds the first timed-out entry among them. */
  lemma {:induction false} HoleScan(q: seq<Pending>, from: nat, n: nat, now: Millis, rto: Millis)
    requires Sorted(q) && from <= n <= |q|
    requires from <= TimedOutIndex(q, now, rto)
    ensures var i := TimedOutIndex(q, now, rto);
      FirstTimedOutHole(q, Sequences(q[from..n]), now, rto) == if i < n then Some(q[i].sequence) else None
    decreases n - from
  {
    var holes := Sequences(q[from..n]);
    if from < n {
      FindAt(q, from);
      assert holes[0] == q[from].sequence;
      assert holes[1..] == Sequences(q[from + 1..n]);
      if !TimedOut(q[from], now, rto) {
        HoleScan(q, from + 1, n, now, rto);
      }
    }
  }

  /** Preferring holes changes nothing on a sorted queue: a timeout picks the first timed-out packet. */
  lemma TimeoutPicksFirst(q: seq<Pending>, ranges: seq<Range>, now: Millis, rto: Millis)
    requires Sorted(q) && Canonical(ranges)
    ensures var i := TimedOutIndex(q, now, rto);
      SelectLossRecovery(q, ranges, TimeoutTrigger(now, rto)) == if i < |q| then Some(q[i].sequence) else None
  {
    var n := HoleCount(q, Cover(ranges));
    HolesArePrefix(q, ranges);
    assert q[0..n] == q[..n];
    HoleScan(q, 0, n, now, rto);
    OldestIsFirst(q, now, rto);
  }

  /** During recovery the front of the queue is resent. */
  lemma ProgressPicksFront(q: seq<Pending>, ranges: seq<Range>)
    requires Sorted(q) && Canonical(ranges) && q != []
    ensures SelectLossRecovery(q, ranges, RecoveryProgress(q[0].sequence)) == Some(q[0].sequence)
  {
    HolesArePrefix(q, ranges);
  }

  /** A budget of duplicate acknowledgements reaches the hole it pays for, or the last one. */
  ghost function BudgetChoice(q: seq<Pending>, sacked: set<int>, slots: nat, fallback: int): Option<int> {
    var holes := HoleCount(q, sacked);
    if slots == 0 then None
    else if holes == 0 then Some(fallback)
    else Some(q[Min(slots, holes) - 1].sequence)
  }

  lemma BudgetPicksHole(q: seq<Pending>, ranges: seq<Range>, slots: nat, fallback: int)
    requires Sorted(q) && Canonical(ranges)
    ensures SelectLossRecovery(q, ranges, DuplicateAckBudget(slots, fallback))
         == BudgetChoice(q, Cover(ranges), slots, fallback)
  {
    HolesArePrefix(q, ranges);
  }
}
