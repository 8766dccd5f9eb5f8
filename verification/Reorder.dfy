/** The receiver's reorder buffer and the selective acknowledgement it reports. */
module Reorder {
  import opened Common
  import opened Ranges

  const MAX_REORDER_BUFFER: int := 64
  const MAX_SELECTIVE_ACKS: int := 8

  /** Next sequence to release, and the payloads that arrived ahead of it. */
  datatype Inbound<P> = Inbound(expected: int, buffered: map<int, P>)

  /** Buffered sequences lie strictly above the expected one, within the window. */
  ghost predicate InWindow<P>(b: Inbound<P>) {
    forall k :: k in b.buffered ==> b.expected < k <= b.expected + MAX_REORDER_BUFFER
  }

  /** The least number at or above `from` that is not in the set. */
  ghost function FirstMissing(keys: set<int>, from: int): (n: int)
    ensures from <= n && n !in keys
    ensures forall k :: from <= k < n ==> k in keys
    decreases keys
  {
    if from !in keys then from else FirstMissing(keys - {from}, from + 1)
  }

  ghost function Slice<P>(m: map<int, P>, lo: int, hi: int): (s: seq<P>)
    requires lo <= hi && forall k :: lo <= k < hi ==> k in m
    ensures |s| == hi - lo && forall i :: 0 <= i < |s| ==> s[i] == m[lo + i]
  {
    seq(hi - lo, i requires 0 <= i < hi - lo => m[lo + i])
  }

  /** The effect of one data packet, and the payloads it releases. */
  ghost function Queued<P>(b: Inbound<P>, sequence: int, payload: P): (Inbound<P>, seq<P>) {
    if sequence < b.expected || b.expected + MAX_REORDER_BUFFER < sequence then (b, [])
    else if sequence == b.expected then
      var next := FirstMissing(b.buffered.Keys, b.expected + 1);
      (Inbound(next, map k | k in b.buffered && !(b.expected < k < next) :: b.buffered[k]),
       [payload] + Slice(b.buffered, b.expected + 1, next))
    else if |b.buffered| >= MAX_REORDER_BUFFER || sequence in b.buffered then (b, [])
    else (b.(buffered := b.buffered[sequence := payload]), [])
  }

  /** The buffer when the expected number has come to the last 64-bit number and would pass it. */
  ghost function Overflowed<P>(b: Inbound<P>): Inbound<P> {
    Inbound(U64_MAX, map k | k in b.buffered && !(b.expected < k <= U64_MAX) :: b.buffered[k])
  }

  lemma OverflowKeepsWindow<P>(b: Inbound<P>)
    requires InWindow(b) && b.expected <= U64_MAX
    ensures InWindow(Overflowed(b))
  {
  }

  class ReorderBuffer<P> {
    var expected: int
    var buffered: map<int, P>

    ghost predicate Valid()
      reads this
    {
      && 0 <= expected <= U64_MAX
      && forall k :: k in buffered ==> 0 <= k <= U64_MAX
    }

    ghost function State(): Inbound<P>
      reads this
    {
      Inbound(expected, buffered)
    }

    constructor ()
      ensures Valid() && State() == Inbound(0, map[])
    {
      expected, buffered := 0, map[];
    }

    /** `overflow` when the expected number would pass the last 64-bit number. */
    method Queue(sequence: u64, payload: P) returns (ready: seq<P>, overflow: bool)
      requires Valid()
      modifies this
      ensures Valid() && (InWindow(old(State())) ==> InWindow(State()))
      ensures overflow <==> Queued(old(State()), sequence, payload).0.expected > U64_MAX
      ensures !overflow ==> (State(), ready) == Queued(old(State()), sequence, payload)
      ensures overflow ==> State() == Overflowed(old(State()))
    {
      ready, overflow := [], false;
      if InWindow(State()) {
        QueuedKeepsWindow(State(), sequence, payload);
        OverflowKeepsWindow(State());
      }
      hide InWindow, FirstMissing, Overflowed;
      if sequence < expected {
        return;
      }
      var maxBuffered := SatAdd64(expected, MAX_REORDER_BUFFER);
      if sequence > maxBuffered {
        return;
      }
      if sequence == expected {
        ready, overflow := Release(payload);
        return;
      }
      if |buffered| >= MAX_REORDER_BUFFER && sequence !in buffered {
        return;
      }
      if sequence !in buffered {
        buffered := buffered[sequence := payload];
      }
    }

    /** The expected payload and whatever follows it without a gap. */
    method Release(payload: P) returns (ready: seq<P>, overflow: bool)
      requires Valid()
      modifies this
      ensures Valid()
      ensures overflow <==> Queued(old(State()), old(expected), payload).0.expected > U64_MAX
      ensures !overflow ==> (State(), ready) == Queued(old(State()), old(expected), payload)
      ensures overflow ==> State() == Overflowed(old(State()))
    {
      ghost var first, before := expected + 1, buffered;
      ghost var next := FirstMissing(before.Keys, first);
      ready, overflow := [payload], false;
      if expected == U64_MAX {
        assert buffered == Overflowed(old(State())).buffered;
        return ready, true;
      }
      expected := expected + 1;
      while expected in buffered
        invariant first <= expected <= next && 0 <= expected <= U64_MAX
        invariant buffered == map k | k in before && !(first <= k < expected) :: before[k]
        invariant ready == [payload] + Slice(before, first, expected)
        decreases next - expected
      {
        ready := ready + [buffered[expected]];
        buffered := buffered - {expected};
        if expected == U64_MAX {
          assert buffered == Overflowed(old(State())).buffered;
          return ready, true;
        }
        expected := expected + 1;
      }
      assert expected == next;
      assert buffered == Queued(old(State()), old(expected), payload).0.buffered;
    }
  }

  /** The ordered map's iteration over its keys. */
  method KeysInOrder<P>(b: Inbound<P>) returns (keys: seq<u64>)
    requires InWindow(b) && 0 <= b.expected && Numbers(b.buffered.Keys)
    ensures StrictlyIncreasing(keys) && Elements(keys) == b.buffered.Keys
  {
    keys := [];
    for k := b.expected to b.expected + MAX_REORDER_BUFFER + 1
      invariant StrictlyIncreasing(keys)
      invariant forall x :: x in keys <==> x in b.buffered && x < k
    {
      if k in b.buffered {
        assert forall i :: 0 <= i < |keys| ==> keys[i] in keys;
        keys := keys + [k];
      }
    }
  }

  // ---- bounds on the buffer

  lemma SubsetSize(a: set<int>, b: set<int>)
    requires a <= b
    ensures |a| <= |b|
  {
    assert b == a + (b - a);
  }

  /** A packet keeps the buffer inside its window. */
  lemma QueuedKeepsWindow<P>(b: Inbound<P>, sequence: int, payload: P)
    requires InWindow(b)
    ensures InWindow(Queued(b, sequence, payload).0)
    ensures b.expected <= Queued(b, sequence, payload).0.expected
  {
    var n := Queued(b, sequence, payload).0;
    if sequence == b.expected {
      forall k | k in n.buffered
        ensures n.expected < k
      {
        assert n.expected !in b.buffered;
      }
    }
  }

  lemma WindowBoundsSize<P>(b: Inbound<P>)
    requires InWindow(b)
    ensures |b.buffered| <= MAX_REORDER_BUFFER
  {
    var window := Span(b.expected + 1, b.expected + MAX_REORDER_BUFFER);
    SpanSize(b.expected + 1, b.expected + MAX_REORDER_BUFFER);
    SubsetSize(b.buffered.Keys, window);
    assert |b.buffered| == |b.buffered.Keys|;
  }

  /** The capacity check cannot turn away a new packet inside the window. */
  lemma CapacityNeverRejects<P>(b: Inbound<P>, sequence: int)
    requires InWindow(b)
    requires b.expected < sequence <= b.expected + MAX_REORDER_BUFFER
    requires sequence !in b.buffered
    ensures |b.buffered| < MAX_REORDER_BUFFER
  {
    var window := Span(b.expected + 1, b.expected + MAX_REORDER_BUFFER);
    SpanSize(b.expected + 1, b.expected + MAX_REORDER_BUFFER);
    SubsetSize(b.buffered.Keys + {sequence}, window);
    assert |b.buffered| == |b.buffered.Keys|;
  }

  // ---- the selective acknowledgement

  /** Sequence numbers that fit in 64 bits. */
  ghost predicate Numbers(keys: set<int>) {
    forall k :: k in keys ==> 0 <= k <= U64_MAX
  }

  /** The least member at or above `from`, or one past the last number. */
  ghost function FirstPresent(keys: set<int>, from: int): (n: int)
    requires 0 <= from <= U64_MAX + 1
    ensures from <= n <= U64_MAX + 1 && (n <= U64_MAX ==> n in keys)
    ensures forall k :: from <= k < n ==> k !in keys
    decreases U64_MAX - from
  {
    if from > U64_MAX || from in keys then from else FirstPresent(keys, from + 1)
  }

  lemma NothingPresent(keys: set<int>)
    requires Numbers(keys)
    ensures FirstPresent(keys, 0) > U64_MAX ==> keys == {}
  {
  }

  /** The first maximal run of a set. */
  ghost function FirstRun(keys: set<int>): (r: Range)
    requires Numbers(keys) && keys != {}
    ensures IsFirstRun(keys, r)
  {
    var lo := FirstPresent(keys, 0);
    NothingPresent(keys);
    var hi := FirstMissing(keys, lo) - 1;
    assert lo <= hi && hi in keys;
    Range(lo, hi)
  }

  ghost predicate IsFirstRun(keys: set<int>, r: Range) {
    && r.start <= r.end
    && r.end + 1 !in keys
    && (forall k :: k in keys ==> r.start <= k)
    && (forall k :: r.start <= k <= r.end ==> k in keys)
  }

  /** The maximal runs of a set, in order: its one canonical list. */
  ghost function Runs(keys: set<int>): (rs: seq<Range>)
    requires Numbers(keys)
    ensures Canonical(rs) && Cover(rs) == keys
    decreases |keys|
  {
    if keys == {} then
      EmptyCover([]);
      []
    else
      var r := FirstRun(keys);
      WithoutRun(keys, r);
      var rest := Runs(keys - Span(r.start, r.end));
      RunsCons(keys, r, rest);
      [r] + rest
  }

  lemma WithoutRun(keys: set<int>, r: Range)
    requires IsFirstRun(keys, r)
    ensures |keys - Span(r.start, r.end)| < |keys|
  {
    assert r.start in keys;
    SubsetSize(keys - Span(r.start, r.end), keys - {r.start});
  }

  lemma RunsCons(keys: set<int>, r: Range, rest: seq<Range>)
    requires IsFirstRun(keys, r)
    requires Canonical(rest) && Cover(rest) == keys - Span(r.start, r.end)
    ensures Canonical([r] + rest) && Cover([r] + rest) == keys
  {
    forall i | 0 <= i < |rest|
      ensures r.end + 1 < rest[i].start
    {
      StartIsCovered(rest, i);
    }
    CanonicalConcat([r], rest);
    hide Cover;
    CoverConcat([r], rest);
    CoverSingle(r);
  }

  lemma StartIsCovered(rs: seq<Range>, i: int)
    requires Canonical(rs) && 0 <= i < |rs|
    ensures rs[i].start in Cover(rs)
  {
    assert rs[i] in rs && rs[i].start in Span(rs[i].start, rs[i].end);
  }

  /** What an acknowledgement reports: the first eight maximal runs of the buffered sequences. */
  ghost function SackRanges(keys: set<int>): seq<Range>
    requires Numbers(keys)
  {
    Runs(keys)[..Min(MAX_SELECTIVE_ACKS, |Runs(keys)|)]
  }

  /** The report is sound, canonical, and complete unless there are more than eight runs. */
  lemma SackRangesReport(keys: set<int>)
    requires Numbers(keys)
    ensures Canonical(SackRanges(keys)) && |SackRanges(keys)| <= MAX_SELECTIVE_ACKS
    ensures Cover(SackRanges(keys)) <= keys
    ensures Cover(SackRanges(keys)) == keys <==> |Runs(keys)| <= MAX_SELECTIVE_ACKS
    ensures forall k, q :: k in Cover(SackRanges(keys)) && q in keys && q < k ==> q in Cover(SackRanges(keys))
  {
    var all := Runs(keys);
    var n := Min(MAX_SELECTIVE_ACKS, |all|);
    CanonicalSplit(all, n);
    hide Cover;
    hide Canonical;
    if n < |all| {
      assert Cover(all[n..]) != {};
    } else {
      assert all[..n] == all;
    }
  }

  lemma CanonicalSplit(all: seq<Range>, n: int)
    requires Canonical(all) && 0 <= n <= |all|
    ensures Canonical(all[..n]) && Cover(all) == Cover(all[..n]) + Cover(all[n..])
    ensures forall x, y :: x in Cover(all[..n]) && y in Cover(all[n..]) ==> x < y
    ensures n < |all| ==> Cover(all[n..]) != {}
  {
    var told, rest := all[..n], all[n..];
    CanonicalParts(all, n);
    hide Cover, Canonical;
    assert all == told + rest;
    CoverConcat(told, rest);
    if n < |all| {
      StartIsCovered(rest, 0);
      CoverBelow(told, rest[0].start);
      CoverAbove(rest, rest[0].start - 1);
    } else {
      assert rest == [];
      EmptyCover([]);
    }
  }

  lemma CanonicalParts(all: seq<Range>, n: int)
    requires Canonical(all) && 0 <= n <= |all|
    ensures Canonical(all[..n]) && Canonical(all[n..])
    ensures n < |all| ==> forall i :: 0 <= i < n ==> all[i].end < all[n].start
    ensures n < |all| ==> forall i :: n <= i < |all| ==> all[n].start <= all[i].start
  {
  }

  ghost predicate StrictlyIncreasing(keys: seq<int>) {
    forall i, j :: 0 <= i < j < |keys| ==> keys[i] < keys[j]
  }

  ghost function Elements(keys: seq<int>): set<int> { set k | k in keys }

  lemma ElementsSnoc(keys: seq<int>, k: int)
    ensures Elements(keys + [k]) == Elements(keys) + {k}
  {
  }

  /** A canonical list that ends before the remaining keys begin is a prefix of the runs. */
  lemma RunsPrefix(front: seq<Range>, keys: set<int>)
    requires Numbers(keys) && Canonical(front) && Cover(front) <= keys
    requires front != [] ==> forall k :: k in keys - Cover(front) ==> front[|front| - 1].end + 1 < k
    ensures |front| <= |Runs(keys)| && front == Runs(keys)[..|front|]
  {
    var rest := Runs(keys - Cover(front));
    forall i | 0 <= i < |rest| && front != []
      ensures front[|front| - 1].end + 1 < rest[i].start
    {
      StartIsCovered(rest, i);
    }
    CanonicalConcat(front, rest);
    hide Cover;
    CoverConcat(front, rest);
    CanonicalUnique(front + rest, Runs(keys));
  }

  lemma CanonicalConcat(a: seq<Range>, b: seq<Range>)
    requires Canonical(a) && Canonical(b)
    requires a != [] ==> forall i :: 0 <= i < |b| ==> a[|a| - 1].end + 1 < b[i].start
    ensures Canonical(a + b)
  {
    var c := a + b;
    forall i, j | 0 <= i < j < |c|
      ensures c[i].end + 1 < c[j].start
    {
      if i < |a| <= j {
        assert a[i].end <= a[|a| - 1].end;
      }
    }
  }

  /** The encoder: compresses the buffered keys, in ascending order, into at most eight ranges. */
  method SelectiveAckRanges(keys: seq<u64>) returns (ranges: seq<Range>)
    requires StrictlyIncreasing(keys)
    ensures ranges == SackRanges(Elements(keys))
  {
    hide Cover;
    hide Canonical;
    hide Elements;
    KeysAreNumbers(keys);
    ranges := [];
    if keys == [] {
      NoRuns(keys);
      return;
    }
    var start, end := keys[0], keys[0];
    OneKey(keys);
    assert ranges + [Range(start, end)] == [Range(start, end)];
    for i := 1 to |keys|
      invariant |ranges| < MAX_SELECTIVE_ACKS
      invariant start <= end == keys[i - 1]
      invariant Canonical(ranges + [Range(start, end)])
      invariant Cover(ranges + [Range(start, end)]) == Elements(keys[..i])
    {
      var sequence := keys[i];
      assert keys[..i + 1] == keys[..i] + [sequence];
      ElementsSnoc(keys[..i], sequence);
      if sequence == SatAdd64(end, 1) {
        ExtendLast(ranges, start, end);
        end := sequence;
        continue;
      }
      ranges := ranges + [Range(start, end)];
      if |ranges| >= MAX_SELECTIVE_ACKS {
        EightRuns(ranges, keys, i);
        return;
      }
      start, end := sequence, sequence;
      OpenRun(ranges, sequence);
    }
    assert keys[..|keys|] == keys;
    ranges := ranges + [Range(start, end)];
    CanonicalUnique(ranges, Runs(Elements(keys)));
  }

  lemma KeysAreNumbers(keys: seq<u64>)
    ensures Numbers(Elements(keys))
  {
  }

  lemma NoRuns(keys: seq<u64>)
    requires keys == []
    ensures SackRanges(Elements(keys)) == []
  {
    EmptyCover(Runs(Elements(keys)));
  }

  lemma OneKey(keys: seq<u64>)
    requires keys != []
    ensures Canonical([Range(keys[0], keys[0])])
    ensures Cover([Range(keys[0], keys[0])]) == Elements(keys[..1])
  {
    CoverSingle(Range(keys[0], keys[0]));
    assert keys[..1] == [keys[0]];
  }

  lemma EightRuns(ranges: seq<Range>, keys: seq<u64>, i: int)
    requires StrictlyIncreasing(keys) && 0 < i < |keys|
    requires |ranges| == MAX_SELECTIVE_ACKS && Canonical(ranges)
    requires ranges[|ranges| - 1].end + 1 < keys[i]
    requires Cover(ranges) == Elements(keys[..i])
    ensures ranges == SackRanges(Elements(keys))
  {
    RemainingKeysFollow(keys, i);
    hide Cover;
    hide Canonical;
    RunsPrefix(ranges, Elements(keys));
  }

  lemma ExtendLast(ranges: seq<Range>, start: u64, end: u64)
    requires Canonical(ranges + [Range(start, end)]) && end < U64_MAX
    ensures Canonical(ranges + [Range(start, end + 1)])
    ensures Cover(ranges + [Range(start, end + 1)]) == Cover(ranges + [Range(start, end)]) + {end + 1}
  {
    var was, now := ranges + [Range(start, end)], ranges + [Range(start, end + 1)];
    assert was[|ranges|] == Range(start, end);
    assert forall i :: 0 <= i < |ranges| ==> was[i] == now[i];
    hide Cover;
    CoverSnoc(ranges, Range(start, end));
    CoverSnoc(ranges, Range(start, end + 1));
  }

  lemma OpenRun(ranges: seq<Range>, sequence: u64)
    requires Canonical(ranges) && ranges != [] && ranges[|ranges| - 1].end + 1 < sequence
    ensures Canonical(ranges + [Range(sequence, sequence)])
    ensures Cover(ranges + [Range(sequence, sequence)]) == Cover(ranges) + {sequence}
  {
    hide Cover;
    CoverSnoc(ranges, Range(sequence, sequence));
  }

  lemma RemainingKeysFollow(keys: seq<u64>, i: int)
    requires StrictlyIncreasing(keys) && 0 < i < |keys|
    ensures Elements(keys[..i]) <= Elements(keys)
    ensures forall k :: k in Elements(keys) - Elements(keys[..i]) ==> keys[i] <= k
  {
    forall j | 0 <= j < i
      ensures keys[j] in Elements(keys[..i])
    {
      assert keys[..i][j] == keys[j];
    }
    forall k | k in Elements(keys) - Elements(keys[..i])
      ensures keys[i] <= k
    {
      var j :| 0 <= j < |keys| && keys[j] == k;
    }
  }
}
