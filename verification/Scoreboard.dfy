/** The sender's record of selectively acknowledged sequences (`DirectSelectiveAckScoreboard`). */
module Scoreboard {
  import opened Common
  import opened Ranges

  class SelectiveAckScoreboard {
    var ranges: seq<Range>

    ghost predicate Valid()
      reads this
    {
      Canonical(ranges)
    }

    /** The abstract value: the set of sequences recorded as received. */
    ghost function Sacked(): set<int>
      reads this
    {
      Cover(ranges)
    }

    constructor ()
      ensures Valid() && ranges == [] && Sacked() == {}
    {
      ranges := [];
    }

    /** Forgets everything below `next`. */
    method AdvanceCumulativeAck(next: u64)
      requires Valid()
      modifies this
      ensures Valid()
      ensures Sacked() == AtLeast(old(Sacked()), next)
    {
      hide Cover;
      var trimmed := [];
      EmptyCover([]);
      for i := 0 to |ranges|
        invariant ranges == old(ranges)
        invariant Canonical(trimmed)
        invariant trimmed != [] ==> 0 < i && Last(trimmed).end <= ranges[i - 1].end
        invariant Cover(trimmed) == AtLeast(Cover(ranges[..i]), next)
      {
        var range := ranges[i];
        assert ranges[..i + 1] == ranges[..i] + [range];
        CoverSnoc(ranges[..i], range);
        if range.end < next {
          continue;
        }
        if range.start < next {
          range := Range(next, range.end);
        }
        if range.start <= range.end {
          assert trimmed != [] ==> Last(trimmed).end + 1 < range.start;
          CoverSnoc(trimmed, range);
          CanonicalSnoc(trimmed, range);
          trimmed := trimmed + [range];
        }
      }
      assert ranges[..|ranges|] == ranges;
      ranges := trimmed;
    }

    /**
     Adds the incoming ranges. The list stays canonical, covers exactly the union, and the result
     is the number of sequences covered for the first time.
     */
    method ObserveRanges(incoming: seq<Range>) returns (newlyCovered: nat)
      requires Valid()
      modifies this
      ensures Valid()
      ensures Sacked() == old(Sacked()) + Cover(incoming)
      ensures newlyCovered == Min(|Cover(incoming) - old(Sacked())|, USIZE_MAX)
    {
      if incoming == [] {
        EmptyCover(incoming);
        return 0;
      }
      hide Cover;
      hide Canonical;
      var before := CoveredSequenceCount(ranges);
      var all := ranges + ProperRanges(incoming);
      SortedInput(ranges, incoming);
      if all == [] {
        EmptyCover(all);
        return 0;
      }
      var merged := MergeSorted(SortByKey(all));
      var after := CoveredSequenceCount(merged);
      CountGrowth(ranges, merged, Cover(incoming));
      ranges := merged;
      newlyCovered := Min(Max(after - before, 0), USIZE_MAX);
    }

    predicate Contains(sequence: u64)
      reads this
      ensures Contains(sequence) <==> sequence in Sacked()
    {
      ContainsIsMembership(ranges, sequence);
      exists i :: 0 <= i < |ranges| && ranges[i].start <= sequence <= ranges[i].end
    }

    function HighestSequence(): (highest: Option<u64>)
      requires Valid()
      reads this
      ensures highest.None? <==> Sacked() == {}
      ensures highest.Some? ==> highest.value in Sacked() && forall x :: x in Sacked() ==> x <= highest.value
    {
      HighestIsLastEnd(ranges);
      Highest(ranges)
    }
  }

  ghost function AtLeast(s: set<int>, bound: int): set<int> { set x | x in s && bound <= x }

  function Last(rs: seq<Range>): Range
    requires rs != []
  {
    rs[|rs| - 1]
  }

  lemma ContainsIsMembership(rs: seq<Range>, x: int)
    ensures x in Cover(rs) <==> exists i :: 0 <= i < |rs| && rs[i].start <= x <= rs[i].end
  {
    if i :| 0 <= i < |rs| && rs[i].start <= x <= rs[i].end {
      assert rs[i] in rs && x in Span(rs[i].start, rs[i].end);
    }
  }

  lemma CanonicalSnoc(rs: seq<Range>, r: Range)
    requires Canonical(rs) && r.start <= r.end
    requires rs != [] ==> Last(rs).end + 1 < r.start
    ensures Canonical(rs + [r])
  {
  }

  /** The end of the last range of a list, if there is one. */
  function Highest(rs: seq<Range>): Option<u64> {
    if rs == [] then None else Some(Last(rs).end)
  }

  lemma HighestIsLastEnd(rs: seq<Range>)
    requires Canonical(rs)
    ensures rs == [] <==> Cover(rs) == {}
    ensures rs != [] ==> Last(rs).end in Cover(rs) && forall x :: x in Cover(rs) ==> x <= Last(rs).end
  {
    EmptyCover(rs);
    if rs != [] {
      assert Last(rs).end in Span(Last(rs).start, Last(rs).end);
      assert Last(rs) in rs;
      CoverBelow(rs, Last(rs).end + 1);
    }
  }

  /** The incoming ranges that are not inverted. */
  function ProperRanges(rs: seq<Range>): seq<Range> {
    if rs == [] then []
    else (if rs[0].start <= rs[0].end then [rs[0]] else []) + ProperRanges(rs[1..])
  }

  lemma {:induction false} ProperRangesCover(rs: seq<Range>)
    ensures Cover(ProperRanges(rs)) == Cover(rs)
    ensures forall r :: r in ProperRanges(rs) ==> r.start <= r.end
  {
    if rs != [] {
      ProperRangesCover(rs[1..]);
      CoverSplit(rs);
      if rs[0].start <= rs[0].end {
        assert ProperRanges(rs)[1..] == ProperRanges(rs[1..]);
        CoverSplit(ProperRanges(rs));
      }
    }
  }

  /** What the merge loop is given: all ranges, sorted, none inverted. */
  lemma SortedInput(ranges: seq<Range>, incoming: seq<Range>)
    requires Canonical(ranges)
    ensures
      var all := ranges + ProperRanges(incoming);
      var sorted := SortByKey(all);
      && Cover(all) == Cover(sorted) == Cover(ranges) + Cover(incoming)
      && SortedByKey(sorted)
      && forall i :: 0 <= i < |sorted| ==> sorted[i].start <= sorted[i].end
  {
    var all := ranges + ProperRanges(incoming);
    var sorted := SortByKey(all);
    CoverConcat(ranges, ProperRanges(incoming));
    ProperRangesCover(incoming);
    SortByKeySorts(all);
    hide Cover;
    forall i | 0 <= i < |sorted|
      ensures sorted[i].start <= sorted[i].end
    {
      assert sorted[i] in all;
    }
  }

  lemma CountGrowth(before: seq<Range>, after: seq<Range>, incoming: set<int>)
    requires Canonical(before) && Canonical(after)
    requires Cover(after) == Cover(before) + incoming
    ensures CoveredSequenceCount(after) - CoveredSequenceCount(before) == |incoming - Cover(before)|
  {
    hide Cover;
    CountIsCardinality(before);
    CountIsCardinality(after);
    assert Cover(after) == Cover(before) + (incoming - Cover(before));
  }

  lemma JoinLast(merged: seq<Range>, range: Range)
    requires Canonical(merged) && merged != []
    requires range.start <= range.end && Last(merged).start <= range.start <= Last(merged).end + 1
    ensures
      var joined := merged[..|merged| - 1] + [Range(Last(merged).start, Max(Last(merged).end, range.end))];
      Canonical(joined) && Cover(joined) == Cover(merged) + Span(range.start, range.end)
  {
    var front, last := merged[..|merged| - 1], Last(merged);
    CanonicalSnoc(front, Range(last.start, Max(last.end, range.end)));
    assert merged == front + [last];
    JoinCover(front, last, range);
  }

  lemma JoinCover(front: seq<Range>, last: Range, range: Range)
    requires range.start <= range.end && last.start <= range.start <= last.end + 1
    ensures Cover(front + [Range(last.start, Max(last.end, range.end))])
         == Cover(front + [last]) + Span(range.start, range.end)
  {
    var wide := Range(last.start, Max(last.end, range.end));
    CoverSnoc(front, last);
    CoverSnoc(front, wide);
    hide Cover;
    hide Span;
    assert Span(wide.start, wide.end) == Span(last.start, last.end) + Span(range.start, range.end);
  }

  /** The merge loop: overlapping and adjacent neighbours are joined. */
  method MergeSorted(sorted: seq<Range>) returns (merged: seq<Range>)
    requires SortedByKey(sorted)
    requires forall i :: 0 <= i < |sorted| ==> sorted[i].start <= sorted[i].end
    ensures Canonical(merged)
    ensures Cover(merged) == Cover(sorted)
  {
    hide Cover;
    merged := [];
    EmptyCover([]);
    for i := 0 to |sorted|
      invariant Canonical(merged)
      invariant merged != [] ==> 0 < i && Last(merged).start <= sorted[i - 1].start
      invariant Cover(merged) == Cover(sorted[..i])
    {
      var range := sorted[i];
      assert sorted[..i + 1] == sorted[..i] + [range];
      CoverSnoc(sorted[..i], range);
      assert i > 0 ==> KeyLeq(sorted[i - 1], range);
      if merged != [] {
        var last := Last(merged);
        if range.start <= SatAdd64(last.end, 1) {
          JoinLast(merged, range);
          merged := merged[..|merged| - 1] + [Range(last.start, Max(last.end, range.end))];
          continue;
        }
      }
      CoverSnoc(merged, range);
      CanonicalSnoc(merged, range);
      merged := merged + [range];
    }
    assert sorted[..|sorted|] == sorted;
  }
}
