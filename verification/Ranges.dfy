/**
 Inclusive sequence ranges, the set of sequences a list of ranges covers, and the canonical list
 (sorted, disjoint, non-adjacent) of a covered set.
 */
module Ranges {
  import opened Common

  datatype Range = Range(start: u64, end: u64)

  /** The integers from `lo` to `hi`, both included. */
  ghost function Span(lo: int, hi: int): (s: set<int>)
    ensures forall x :: x in s <==> lo <= x <= hi
    decreases hi - lo + 1
  {
    if lo > hi then {} else Span(lo, hi - 1) + {hi}
  }

  lemma {:induction false} SpanSize(lo: int, hi: int)
    ensures |Span(lo, hi)| == Max(0, hi - lo + 1)
    decreases hi - lo + 1
  {
    if lo <= hi {
      SpanSize(lo, hi - 1);
    }
  }

  /** The sequences covered by a list of ranges; an inverted range covers nothing. */
  ghost function Cover(rs: seq<Range>): set<int> {
    set r, x | r in rs && x in Span(r.start, r.end) :: x
  }

  ghost predicate Canonical(rs: seq<Range>) {
    && (forall i :: 0 <= i < |rs| ==> rs[i].start <= rs[i].end)
    && (forall i, j :: 0 <= i < j < |rs| ==> rs[i].end + 1 < rs[j].start)
  }

  lemma CoverConcat(a: seq<Range>, b: seq<Range>)
    ensures Cover(a + b) == Cover(a) + Cover(b)
  {
    forall x | x in Cover(a) + Cover(b)
      ensures x in Cover(a + b)
    {
      var r :| (r in a || r in b) && x in Span(r.start, r.end);
      assert r in a + b;
    }
  }

  lemma CoverSingle(r: Range)
    ensures Cover([r]) == Span(r.start, r.end)
  {
    assert r in [r];
  }

  lemma CoverSnoc(rs: seq<Range>, r: Range)
    ensures Cover(rs + [r]) == Cover(rs) + Span(r.start, r.end)
  {
    CoverConcat(rs, [r]);
    CoverSingle(r);
  }

  lemma CanonicalTail(rs: seq<Range>)
    requires Canonical(rs) && rs != []
    ensures Canonical(rs[1..])
    ensures forall i :: 0 <= i < |rs[1..]| ==> rs[0].end + 1 < rs[1..][i].start
  {
  }

  /** The front of a canonical list is separated from everything the rest covers. */
  lemma CoverCons(rs: seq<Range>)
    requires Canonical(rs) && rs != []
    ensures Canonical(rs[1..])
    ensures Cover(rs) == Cover(rs[1..]) + Span(rs[0].start, rs[0].end)
    ensures forall x :: x in Cover(rs[1..]) ==> rs[0].end + 1 < x
  {
    CanonicalTail(rs);
    CoverAbove(rs[1..], rs[0].end + 1);
    CoverSplit(rs);
  }

  lemma CoverSplit(rs: seq<Range>)
    requires rs != []
    ensures Cover(rs) == Cover(rs[1..]) + Span(rs[0].start, rs[0].end)
  {
    hide Cover;
    assert rs == [rs[0]] + rs[1..];
    CoverConcat([rs[0]], rs[1..]);
    CoverSingle(rs[0]);
  }

  lemma EmptyCover(rs: seq<Range>)
    requires Canonical(rs)
    ensures rs == [] <==> Cover(rs) == {}
    ensures rs != [] ==> rs[0].start <= rs[0].end
  {
    if rs != [] {
      assert rs[0].start in Span(rs[0].start, rs[0].end);
      assert rs[0].start in Cover(rs);
    }
  }

  /** The front range is the first gap-free run of the covered set. */
  lemma FrontIsFirstRun(rs: seq<Range>)
    requires Canonical(rs) && rs != []
    ensures rs[0].start <= rs[0].end
    ensures rs[0].start in Cover(rs) && forall x :: x in Cover(rs) ==> rs[0].start <= x
    ensures rs[0].end + 1 !in Cover(rs)
    ensures forall x :: rs[0].start <= x <= rs[0].end ==> x in Cover(rs)
    ensures Cover(rs[1..]) == Cover(rs) - Span(rs[0].start, rs[0].end)
  {
    EmptyCover(rs);
    CoverCons(rs);
    hide Cover;
    hide Canonical;
    hide Span;
  }

  /** A covered set has one canonical list only. */
  lemma {:induction false} CanonicalUnique(a: seq<Range>, b: seq<Range>)
    requires Canonical(a) && Canonical(b)
    requires Cover(a) == Cover(b)
    ensures a == b
  {
    EmptyCover(a);
    EmptyCover(b);
    if a != [] {
      CanonicalTail(a);
      CanonicalTail(b);
      FrontsAgree(a, b);
      CanonicalUnique(a[1..], b[1..]);
      assert a == [a[0]] + a[1..] && b == [b[0]] + b[1..];
    }
  }

  lemma FrontsAgree(a: seq<Range>, b: seq<Range>)
    requires Canonical(a) && Canonical(b) && a != [] && b != []
    requires Cover(a) == Cover(b)
    ensures a[0] == b[0] && Cover(a[1..]) == Cover(b[1..])
  {
    hide Cover;
    hide Canonical;
    hide Span;
    FrontIsFirstRun(a);
    FrontIsFirstRun(b);
    assert a[0].start == b[0].start;
  }

  function SatAdd128(a: nat, b: nat): nat { Min(a + b, U128_MAX) }

  /** `covered_sequence_count`: a saturating fold over the list. */
  function CoveredSequenceCount(rs: seq<Range>): nat {
    if rs == [] then 0
    else
      var total := CoveredSequenceCount(rs[..|rs| - 1]);
      var r := rs[|rs| - 1];
      if r.start > r.end then total else SatAdd128(SatAdd128(total, r.end - r.start), 1)
  }

  /** On a canonical list the fold never saturates and counts each covered sequence once. */
  lemma {:induction false} CountIsCardinality(rs: seq<Range>)
    requires Canonical(rs)
    ensures CoveredSequenceCount(rs) == |Cover(rs)|
    ensures CoveredSequenceCount(rs) <= if rs == [] then 0 else rs[|rs| - 1].end + 1
  {
    hide Cover;
    if rs == [] {
      EmptyCover(rs);
    } else {
      var front, r := rs[..|rs| - 1], rs[|rs| - 1];
      CountIsCardinality(front);
      assert front != [] ==> front[|front| - 1].end + 1 < r.start;
      assert rs == front + [r];
      CoverSnoc(front, r);
      CoverBelow(front, r.start);
      SpanSize(r.start, r.end);
      assert Cover(front) !! Span(r.start, r.end);
    }
  }

  lemma CoverBelow(rs: seq<Range>, bound: int)
    requires forall i :: 0 <= i < |rs| ==> rs[i].end < bound
    ensures forall x :: x in Cover(rs) ==> x < bound
  {
    forall x | x in Cover(rs)
      ensures x < bound
    {
      var r :| r in rs && x in Span(r.start, r.end);
    }
  }

  lemma CoverAbove(rs: seq<Range>, bound: int)
    requires forall i :: 0 <= i < |rs| ==> bound < rs[i].start
    ensures forall x :: x in Cover(rs) ==> bound < x
  {
    forall x | x in Cover(rs)
      ensures bound < x
    {
      var r :| r in rs && x in Span(r.start, r.end);
    }
  }

  // ---- sorting, as `sort_by_key` does before merging

  predicate KeyLeq(a: Range, b: Range) {
    a.start < b.start || (a.start == b.start && a.end <= b.end)
  }

  ghost predicate SortedByKey(rs: seq<Range>) {
    forall i, j :: 0 <= i < j < |rs| ==> KeyLeq(rs[i], rs[j])
  }

  function InsertByKey(rs: seq<Range>, r: Range): seq<Range> {
    if rs == [] || KeyLeq(r, rs[0]) then [r] + rs
    else [rs[0]] + InsertByKey(rs[1..], r)
  }

  lemma {:induction false} InsertByKeySorts(rs: seq<Range>, r: Range)
    requires SortedByKey(rs)
    ensures SortedByKey(InsertByKey(rs, r))
    ensures forall x :: x in InsertByKey(rs, r) <==> x in rs || x == r
  {
    if rs == [] || KeyLeq(r, rs[0]) {
    } else {
      InsertByKeySorts(rs[1..], r);
      var rest := InsertByKey(rs[1..], r);
      assert forall x :: x in rs <==> x == rs[0] || x in rs[1..];
      forall j | 0 <= j < |rest|
        ensures KeyLeq(rs[0], rest[j])
      {
        assert rest[j] in rest;
      }
    }
  }

  /** The library sort the scoreboard calls, written as an insertion sort. */
  function SortByKey(rs: seq<Range>): seq<Range> {
    if rs == [] then [] else InsertByKey(SortByKey(rs[1..]), rs[0])
  }

  lemma {:induction false} SortByKeySorts(rs: seq<Range>)
    ensures SortedByKey(SortByKey(rs))
    ensures forall x :: x in SortByKey(rs) <==> x in rs
    ensures Cover(SortByKey(rs)) == Cover(rs)
  {
    if rs != [] {
      SortByKeySorts(rs[1..]);
      InsertByKeySorts(SortByKey(rs[1..]), rs[0]);
      assert forall x :: x in rs <==> x == rs[0] || x in rs[1..];
    }
  }
}
