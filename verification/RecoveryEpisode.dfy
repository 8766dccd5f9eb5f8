/** Fast recovery over a whole episode: what an endpoint's steps do to its mark and its threshold. */
module RecoveryEpisode {
  import opened Common
  import opened Ranges
  import opened Scoreboard
  import opened Congestion
  import opened RetransmitTimer
  import opened LossRecovery
  import opened AckHandling
  import opened Endpoint

  // ---- one acknowledgement

  ghost function KeptBy(s: SendState, next: int, ranges: seq<Range>): seq<Pending> {
    Keep(s.pending, next, SackedAfter(s.sacked, next, ranges))
  }

  /** The acknowledgement frees packets and reaches the mark. */
  ghost predicate Leaves(s: SendState, next: int, ranges: seq<Range>) {
    && s.window.recovery.Some?
    && |KeptBy(s, next, ranges)| < |s.pending|
    && s.window.recovery.value <= next
  }

  /** The tracker with this acknowledgement counted. */
  ghost function NotedBy(s: SendState, next: int, ranges: seq<Range>): Tracker {
    Noted(s.tracker, next, Min(Max(NewEvidence(s.sacked, next, ranges), 1), U32_MAX))
  }

  /** The packet the duplicates seen so far entitle to a resend. */
  ghost function Entitled(s: SendState, next: int, ranges: seq<Range>): Option<int> {
    BudgetChoice(KeptBy(s, next, ranges), SackedAfter(s.sacked, next, ranges),
                 NotedBy(s, next, ranges).duplicates / DUP_ACK_THRESHOLD, next)
  }

  /**
     The acknowledgement starts a fast retransmit: it asks for the front, frees nothing (or nothing that
     recovery answers with a resend), and brings the duplicates to a packet not resent last.
   */
  ghost predicate Fires(s: SendState, next: int, ranges: seq<Range>) {
    && Front(KeptBy(s, next, ranges)) == Some(next)
    && !(s.pending != [] && s.pending[0].sequence < next)
    && (|KeptBy(s, next, ranges)| == |s.pending| || s.window.recovery.None? || s.window.recovery.value <= next)
    && NotedBy(s, next, ranges).duplicates >= DUP_ACK_THRESHOLD
    && NotedBy(s, next, ranges).lastFastRetransmit != Entitled(s, next, ranges)
  }

  /** The mark and the threshold a fast retransmit sets for the packets then queued. */
  ghost predicate Restarted(w: Window, queued: seq<Pending>) {
    && queued != []
    && w.recovery == Some(Min(queued[|queued| - 1].sequence + 1, U64_MAX))
    && w.ssthresh == Ssthresh(|queued|)
    && w.cwnd == ClampWindow(w.ssthresh + DUP_ACK_THRESHOLD as real)
  }

  ghost predicate SameEpisode(w: Window, n: Window) { n.recovery == w.recovery && n.ssthresh == w.ssthresh }

  /** The window stays at least one packet above the threshold, or at the maximum. */
  ghost predicate Inflated(w: Window) { MinR(w.ssthresh + 1.0, MAX_WINDOW_SIZE) <= w.cwnd <= MAX_WINDOW_SIZE }

  /** The three things an acknowledgement inside recovery can do. */
  lemma AckInRecovery(s: SendState, next: int, ranges: seq<Range>, now: Millis)
    requires s.window.recovery.Some?
    ensures
      var (n, resend) := AfterAck(s, next, ranges, now);
      n.pending == KeptBy(s, next, ranges)
      && if Fires(s, next, ranges) then Restarted(n.window, n.pending) && resend == Entitled(s, next, ranges)
         else if Leaves(s, next, ranges) then
           n.window == Window(ClampWindow(s.window.ssthresh), s.window.ssthresh, None) && resend.None?
         else
           && SameEpisode(s.window, n.window) && (Inflated(s.window) ==> Inflated(n.window))
           && resend == if |n.pending| < |s.pending| then Front(n.pending) else None
  {
    hide Keep, BudgetChoice, RttSample, Sampled, NewEvidence, Noted;
  }

  /** Recovery is entered by fast retransmits only. */
  lemma EpisodeBegins(s: SendState, next: int, ranges: seq<Range>, now: Millis)
    ensures
      var n := AfterAck(s, next, ranges, now).0;
      && (Fires(s, next, ranges) ==> Restarted(n.window, n.pending))
      && (s.window.recovery.None? ==> (n.window.recovery.Some? <==> Fires(s, next, ranges)))
  {
    hide Keep, BudgetChoice, RttSample, Sampled, NewEvidence, Noted;
  }

  /**
     An acknowledgement inside recovery keeps the mark and the threshold exactly when it neither reaches
     the mark nor starts a fast retransmit, or starts one for a queue that gives the same two values.
   */
  lemma AckKeepsEpisode(s: SendState, next: int, ranges: seq<Range>, now: Millis)
    requires s.window.recovery.Some?
    ensures
      var n := AfterAck(s, next, ranges, now).0;
      SameEpisode(s.window, n.window) <==>
        if Fires(s, next, ranges) then
          var q := KeptBy(s, next, ranges);
          && s.window.recovery == Some(Min(q[|q| - 1].sequence + 1, U64_MAX))
          && s.window.ssthresh == Ssthresh(|q|)
        else !Leaves(s, next, ranges)
  {
    AckInRecovery(s, next, ranges, now);
    hide AfterAck, KeptBy, Entitled, NotedBy;
  }

  // ---- the steps of an endpoint

  /** The timer resends a packet, and the channel survives it. */
  ghost predicate Collapses(e: Endpoint, now: Millis) {
    var i := TimedOutIndex(e.send.pending, now, e.send.rto);
    && i < |e.send.pending|
    && e.send.pending[i].attempts < MAX_ATTEMPTS
    && !(CloseDue(e, now) && e.close.value.attempts >= MAX_ATTEMPTS)
  }

  /** The step leaves an episode alone: no fast retransmit, no arrival at the mark, no timeout. */
  ghost predicate Undisturbed(e: Endpoint, ev: Event) {
    match ev
    case TickEvent(now) => !Collapses(e, now)
    case ReceiveEvent(m, _) => m.Ack? ==> !Fires(e.send, m.next, m.ranges) && !Leaves(e.send, m.next, m.ranges)
    case _ => true
  }

  lemma ResendKeepsWindow(e: Endpoint, i: nat, now: Millis)
    requires i < |e.send.pending|
    ensures Resend(e, i, now).send.window == e.send.window && Resend(e, i, now).close == e.close
    ensures e.status.Running? ==> (Resend(e, i, now).status.Failed? <==> e.send.pending[i].attempts >= MAX_ATTEMPTS)
  {
  }

  lemma TickOnEpisode(e: Endpoint, now: Millis)
    requires e.status.Running?
    ensures OnTick(e, now).send.window ==
      if Collapses(e, now) then Timeout(e.send.window, |e.send.pending|) else e.send.window
  {
    var i := TimedOutIndex(e.send.pending, now, e.send.rto);
    if i < |e.send.pending| {
      ResendKeepsWindow(e, i, now);
    }
    hide Resend, TimedOutIndex, Timeout;
  }

  lemma AckStepWindow(e: Endpoint, next: u64, ranges: seq<Range>, now: Millis)
    ensures OnAck(e, next, ranges, now).send.window == AfterAck(e.send, next, ranges, now).0.window
  {
    var (send, resend) := AfterAck(e.send, next, ranges, now);
    hide AfterAck;
    var acked := e.(send := send, highestAck := Max(e.highestAck, next));
    if resend.Some? && IndexOf(send.pending, resend.value) < |send.pending| {
      ResendKeepsWindow(acked, IndexOf(send.pending, resend.value), now);
    }
    hide Resend;
  }

  lemma StepWindow(e: Endpoint, ev: Event)
    requires Enabled(e, ev)
    ensures Step(e, ev).send.window ==
      match ev
      case TickEvent(now) => if Collapses(e, now) then Timeout(e.send.window, |e.send.pending|) else e.send.window
      case ReceiveEvent(m, now) => if m.Ack? then AfterAck(e.send, m.next, m.ranges, now).0.window else e.send.window
      case _ => e.send.window
  {
    hide AfterAck, OpenAll, Report, Timeout, Collapses;
    match ev
    case TickEvent(now) => TickOnEpisode(e, now);
    case ReceiveEvent(m, now) =>
      hide OnAck;
      if m.Ack? {
        AckStepWindow(e, m.next, m.ranges, now);
      }
    case _ =>
  }

  /**
     A step taken inside recovery keeps the mark and the threshold exactly when it is undisturbed, or is
     an acknowledgement whose fast retransmit sets the same two values again.
   */
  lemma StepKeepsEpisode(e: Endpoint, ev: Event)
    requires Enabled(e, ev) && e.send.window.recovery.Some?
    ensures SameEpisode(e.send.window, Step(e, ev).send.window) <==>
      || Undisturbed(e, ev)
      || (ev.ReceiveEvent? && ev.message.Ack? && Fires(e.send, ev.message.next, ev.message.ranges)
          && var q := KeptBy(e.send, ev.message.next, ev.message.ranges);
             && e.send.window.recovery == Some(Min(q[|q| - 1].sequence + 1, U64_MAX))
             && e.send.window.ssthresh == Ssthresh(|q|))
    ensures Undisturbed(e, ev) && Inflated(e.send.window) ==> Inflated(Step(e, ev).send.window)
  {
    StepWindow(e, ev);
    hide Step, Collapses, KeptBy;
    if ev.ReceiveEvent? && ev.message.Ack? {
      AckInRecovery(e.send, ev.message.next, ev.message.ranges, ev.now);
      AckKeepsEpisode(e.send, ev.message.next, ev.message.ranges, ev.now);
      hide Fires, Leaves, AfterAck;
    }
  }

  // ---- a whole episode

  /** The states of one endpoint from a fast retransmit on, with nothing that disturbs the episode. */
  ghost predicate Episode(states: seq<Endpoint>, events: seq<Event>) {
    && |states| == |events| + 1
    && Restarted(states[0].send.window, states[0].send.pending)
    && forall i :: 0 <= i < |events| ==>
         && Enabled(states[i], events[i]) && Undisturbed(states[i], events[i])
         && states[i + 1] == Step(states[i], events[i])
  }

  /** An undisturbed episode keeps the mark and the threshold the fast retransmit set. */
  lemma {:induction false} EpisodeLasts(states: seq<Endpoint>, events: seq<Event>, i: nat)
    requires Episode(states, events) && i < |states|
    ensures SameEpisode(states[0].send.window, states[i].send.window) && Inflated(states[i].send.window)
  {
    if i > 0 {
      EpisodeLasts(states, events, i - 1);
      hide Undisturbed, Enabled, Step;
      StepKeepsEpisode(states[i - 1], events[i - 1]);
    }
  }

  /** The acknowledgement that ends an undisturbed episode leaves half of what was queued at its start. */
  lemma RecoveryHalves(states: seq<Endpoint>, events: seq<Event>, next: u64, ranges: seq<Range>, now: Millis)
    requires Episode(states, events)
    ensures
      var s := states[|events|].send;
      var (n, resend) := AfterAck(s, next, ranges, now);
      var half := Clamp(|states[0].send.pending| as real / 2.0, MIN_WINDOW_SIZE, MAX_WINDOW_SIZE);
      Leaves(s, next, ranges) && !Fires(s, next, ranges) ==> n.window == Window(half, half, None) && resend.None?
  {
    EpisodeLasts(states, events, |events|);
    hide Fires, Leaves, AfterAck;
    AckInRecovery(states[|events|].send, next, ranges, now);
  }

  // ---- an episode that is disturbed

  /** A queue whose entries from `a` up to `b`, and no others, were reported received. */
  lemma KeepWithout(q: seq<Pending>, next: int, sacked: set<int>, a: nat, b: nat)
    requires a <= b <= |q|
    requires forall i :: 0 <= i < |q| ==> q[i].sequence >= next && (q[i].sequence in sacked <==> a <= i < b)
    ensures Keep(q, next, sacked) == q[..a] + q[b..]
  {
    assert q == q[..a] + (q[a..b] + q[b..]);
    KeepConcat(q[..a], q[a..b] + q[b..], next, sacked);
    KeepConcat(q[a..b], q[b..], next, sacked);
    KeepAll(q[..a], next, sacked);
    KeepAll(q[b..], next, sacked);
    KeepNone(q[a..b], next, sacked);
    hide Keep;
    assert [] + q[b..] == q[b..];
  }

  lemma {:induction false} KeepNone(q: seq<Pending>, next: int, sacked: set<int>)
    requires forall i :: 0 <= i < |q| ==> q[i].sequence in sacked
    ensures Keep(q, next, sacked) == []
  {
    if q != [] {
      KeepNone(q[1..], next, sacked);
    }
  }

  /** Packets 4 to 11 in flight, nothing reported or counted yet. */
  ghost predicate EightInFlight(s: SendState) {
    && |s.pending| == 8 && (forall i :: 0 <= i < 8 ==> s.pending[i].sequence == 4 + i)
    && s.sacked == {} && s.window.recovery.None? && s.tracker == Tracker(Some(4), 0, None)
  }

  /** A report that extends what is known up to `known` reports the sequences above it for the first time. */
  lemma ReportOf(lo: u64, hi: u64, known: int, sacked: set<int>)
    requires 4 <= lo && lo - 1 <= known <= hi
    requires forall x :: x in sacked <==> lo <= x <= known
    ensures SackedAfter(sacked, 4, [Range(lo, hi)]) == Span(lo, hi)
    ensures NewEvidence(sacked, 4, [Range(lo, hi)]) == hi - known
  {
    CoverSingle(Range(lo, hi));
    SpanSize(known + 1, hi);
    assert Cover([Range(lo, hi)]) - AtLeast(sacked, 4) == Span(known + 1, hi);
  }

  lemma {:induction false} HolesUpTo(q: seq<Pending>, sacked: set<int>, holes: nat)
    requires holes <= |q|
    requires forall i :: 0 <= i < |q| ==> (BelowSome(q[i].sequence, sacked) <==> i < holes)
    ensures HoleCount(q, sacked) == holes
  {
    if holes > 0 {
      HolesUpTo(q[1..], sacked, holes - 1);
    }
  }

  lemma HolesBelow(q: seq<Pending>, lo: int, hi: int, holes: nat)
    requires lo <= hi && holes <= |q|
    requires forall i :: 0 <= i < |q| ==> (q[i].sequence <= hi <==> i < holes)
    ensures HoleCount(q, Span(lo, hi)) == holes
  {
    assert hi in Span(lo, hi);
    HolesUpTo(q, Span(lo, hi), holes);
  }

  /** What an acknowledgement of packet 4 does, given what it leaves queued and what it reports anew. */
  lemma AckOfFour(s: SendState, ranges: seq<Range>, now: Millis, sacked: set<int>, q: seq<Pending>, evidence: nat)
    requires s.pending != [] && s.pending[0].sequence == 4 && q != [] && q[0].sequence == 4
    requires s.tracker.lastAck == Some(4) && s.tracker.duplicates <= 10 && evidence <= 10
    requires SackedAfter(s.sacked, 4, ranges) == sacked && Keep(s.pending, 4, sacked) == q
    requires NewEvidence(s.sacked, 4, ranges) == evidence
    ensures
      var (w, partial) := AckProgress(s.window, |s.pending| - |q|, 4, Some(4));
      var duplicates := s.tracker.duplicates + Max(evidence, 1);
      var choice := BudgetChoice(q, sacked, duplicates / DUP_ACK_THRESHOLD, 4);
      var (n, resend) := AfterAck(s, 4, ranges, now);
      && n.pending == q && n.sacked == sacked
      && (partial.Some? ==>
           n.window == DuplicateAck(w) && n.tracker == Tracker(Some(4), duplicates, partial) && resend == partial)
      && (partial.None? && duplicates >= DUP_ACK_THRESHOLD && s.tracker.lastFastRetransmit != choice ==>
           && n.window == Window(ClampWindow(Ssthresh(|q|) + 3.0), Ssthresh(|q|),
                                 Some(Min(q[|q| - 1].sequence + 1, U64_MAX)))
           && n.tracker == Tracker(Some(4), duplicates, choice) && resend == choice
           && Fires(s, 4, ranges))
  {
    hide Keep, NewEvidence, SackedAfter, RttSample, Sampled, BudgetChoice, Grow;
  }

  lemma FiveLeft(p: seq<Pending>) returns (q: seq<Pending>)
    requires |p| == 8 && forall i :: 0 <= i < 8 ==> p[i].sequence == 4 + i
    ensures q == p[..2] + p[5..] == Keep(p, 4, Span(6, 8)) && HoleCount(q, Span(6, 8)) == 2
    ensures |q| == 5 && q[0].sequence == 4 && q[4].sequence == 11
  {
    q := p[..2] + p[5..];
    assert forall i :: 2 <= i < 5 ==> q[i] == p[i + 3];
    KeepWithout(p, 4, Span(6, 8), 2, 5);
    HolesBelow(q, 6, 8, 2);
    hide Keep, HoleCount;
  }

  /** Packets 6 to 8 are reported: five remain, and recovery starts with mark 12. */
  lemma FirstReport(s: SendState, now: Millis)
    requires EightInFlight(s)
    ensures var (n, resend) := AfterAck(s, 4, [Range(6, 8)], now);
      && n.pending == s.pending[..2] + s.pending[5..] && n.sacked == Span(6, 8) && resend == Some(4)
      && n.window == Window(5.5, 2.5, Some(12)) && n.tracker == Tracker(Some(4), 3, Some(4))
  {
    hide AfterAck, Fires, Keep, NewEvidence, SackedAfter, Grow, HoleCount;
    var q := FiveLeft(s.pending);
    ReportOf(6, 8, 5, s.sacked);
    AckOfFour(s, [Range(6, 8)], now, Span(6, 8), q, 3);
  }

  /** Packets 9 to 11 are reported as well: two remain, and the front is sent again at once. */
  lemma SecondReport(s: SendState, now: Millis)
    requires |s.pending| == 5 && s.pending[0].sequence == 4 && s.pending[1].sequence == 5
    requires forall i :: 2 <= i < 5 ==> s.pending[i].sequence == 7 + i
    requires s.sacked == Span(6, 8) && s.window == Window(5.5, 2.5, Some(12)) && s.tracker == Tracker(Some(4), 3, Some(4))
    ensures var (n, resend) := AfterAck(s, 4, [Range(6, 11)], now);
      && n.pending == s.pending[..2] && n.sacked == Span(6, 11) && resend == Some(4)
      && n.window == Window(4.5, 2.5, Some(12)) && n.tracker == Tracker(Some(4), 6, Some(4))
  {
    hide AfterAck, Fires, Keep, NewEvidence, SackedAfter, BudgetChoice;
    ReportOf(6, 11, 8, s.sacked);
    KeepWithout(s.pending, 4, Span(6, 11), 2, 5);
    assert s.pending[..2] + s.pending[5..] == s.pending[..2];
    AckOfFour(s, [Range(6, 11)], now, Span(6, 11), s.pending[..2], 3);
  }

  /** The same report once more: the duplicates now reach the later hole. */
  lemma ThirdReport(s: SendState, now: Millis)
    requires |s.pending| == 2 && s.pending[0].sequence == 4 && s.pending[1].sequence == 5
    requires s.sacked == Span(6, 11) && s.window == Window(4.5, 2.5, Some(12)) && s.tracker == Tracker(Some(4), 6, Some(4))
    ensures Fires(s, 4, [Range(6, 11)])
    ensures var (n, resend) := AfterAck(s, 4, [Range(6, 11)], now);
      n.window == Window(5.0, 2.0, Some(6)) && resend == Some(5)
  {
    hide AfterAck, Fires, Keep, NewEvidence, SackedAfter;
    ReportOf(6, 11, 11, s.sacked);
    KeepAll(s.pending, 4, Span(6, 11));
    HolesBelow(s.pending, 6, 11, 2);
    hide HoleCount;
    AckOfFour(s, [Range(6, 11)], now, Span(6, 11), s.pending, 0);
  }

  /**
     Of packets 4 to 11 the first two are lost and the others reported in two acknowledgements, the
     second of which arrives twice. The copy starts a second fast retransmit inside the recovery: the
     mark falls from 12 to 6 and the threshold from 2.5 to 2.
   */
  lemma SecondRetransmitMovesTheMark(s: SendState, now: Millis)
    requires EightInFlight(s)
    ensures
      var a := AfterAck(s, 4, [Range(6, 8)], now).0;
      var b := AfterAck(a, 4, [Range(6, 11)], now).0;
      var c := AfterAck(b, 4, [Range(6, 11)], now).0;
      && Fires(b, 4, [Range(6, 11)])
      && a.window.recovery == b.window.recovery == Some(12) && a.window.ssthresh == b.window.ssthresh == 2.5
      && c.window.recovery == Some(6) && c.window.ssthresh == 2.0
  {
    hide AfterAck, Fires;
    FirstReport(s, now);
    var a := AfterAck(s, 4, [Range(6, 8)], now).0;
    SecondReport(a, now);
    ThirdReport(AfterAck(a, 4, [Range(6, 11)], now).0, now);
  }
}
