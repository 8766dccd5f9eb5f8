/** What a scoreboard remembers does not depend on the order or repetition of what it was shown. */
module ScoreboardHistory {
  import opened Ranges
  import opened Reorder

  /** The effect of one `ObserveRanges` call on the list, as its contract promises it. */
  ghost predicate ObserveStep(before: seq<Range>, incoming: seq<Range>, after: seq<Range>) {
    Canonical(after) && Cover(after) == Cover(before) + Cover(incoming)
  }

  /** The lists a fresh scoreboard goes through while it is shown `observed`, batch by batch. */
  ghost predicate History(states: seq<seq<Range>>, observed: seq<seq<Range>>) {
    && |states| == |observed| + 1
    && states[0] == []
    && forall i :: 0 <= i < |observed| ==> ObserveStep(states[i], observed[i], states[i + 1])
  }

  ghost function CoverAll(observed: seq<seq<Range>>): set<int> {
    set batch, x | batch in observed && x in Cover(batch) :: x
  }

  lemma CoverAllSnoc(observed: seq<seq<Range>>, batch: seq<Range>)
    ensures CoverAll(observed + [batch]) == CoverAll(observed) + Cover(batch)
  {
    hide Cover;
    forall x | x in CoverAll(observed) + Cover(batch)
      ensures x in CoverAll(observed + [batch])
    {
      var b :| (b in observed || b == batch) && x in Cover(b);
      assert b in observed + [batch];
    }
  }

  lemma {:induction false} HistoryCoversAll(states: seq<seq<Range>>, observed: seq<seq<Range>>)
    requires History(states, observed)
    ensures Canonical(states[|observed|])
    ensures Cover(states[|observed|]) == CoverAll(observed)
  {
    hide Cover;
    if observed == [] {
      EmptyCover([]);
    } else {
      var n := |observed| - 1;
      HistoryCoversAll(states[..n + 1], observed[..n]);
      assert ObserveStep(states[n], observed[n], states[n + 1]);
      assert observed == observed[..n] + [observed[n]];
      CoverAllSnoc(observed[..n], observed[n]);
    }
  }

  /** Any two histories that showed the same sequences, however batched, end in the same list. */
  lemma OrderAndRepetitionIrrelevant(
    statesA: seq<seq<Range>>, observedA: seq<seq<Range>>,
    statesB: seq<seq<Range>>, observedB: seq<seq<Range>>)
    requires History(statesA, observedA) && History(statesB, observedB)
    requires CoverAll(observedA) == CoverAll(observedB)
    ensures statesA[|observedA|] == statesB[|observedB|]
  {
    HistoryCoversAll(statesA, observedA);
    HistoryCoversAll(statesB, observedB);
    CanonicalUnique(statesA[|observedA|], statesB[|observedB|]);
  }

  /** A report shown to a fresh scoreboard is recorded as it stands. */
  lemma ReportIsAFixedPoint(keys: set<int>, after: seq<Range>)
    requires Numbers(keys)
    requires ObserveStep([], SackRanges(keys), after)
    ensures after == SackRanges(keys)
  {
    hide Canonical, SackRanges;
    SackRangesReport(keys);
    EmptyCover([]);
    hide Cover;
    CanonicalUnique(after, SackRanges(keys));
  }
}
