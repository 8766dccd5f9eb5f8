/** The round-trip estimator and the retransmission timeout derived from it. */
module RetransmitTimer {
  import opened Common

  const INITIAL_RTO: Millis := 250.0
  const MIN_RTO: Millis := 120.0
  const MAX_RTO: Millis := 2000.0

  datatype Estimate = Estimate(srtt: Option<Millis>, rttvar: Option<Millis>)

  const NO_ESTIMATE: Estimate := Estimate(None, None)

  function Abs(x: real): real { if x < 0.0 then -x else x }

  function DurationFromMs(ms: real): Millis { MaxR(ms, 1.0) }

  predicate RtoInBounds(rto: Millis) { MIN_RTO <= rto <= MAX_RTO }

  /** The estimate after one sample, and the timeout it gives. */
  function Sampled(e: Estimate, sample: Millis): (r: (Estimate, Millis))
    ensures RtoInBounds(r.1)
  {
    if e.srtt.Some? && e.rttvar.Some? then
      var rttvar := 0.75 * e.rttvar.value + 0.25 * Abs(e.srtt.value - sample);
      var srtt := 0.875 * e.srtt.value + 0.125 * sample;
      (Estimate(Some(srtt), Some(rttvar)), DurationFromMs(Clamp(srtt + 4.0 * rttvar, MIN_RTO, MAX_RTO)))
    else
      (Estimate(Some(sample), Some(sample / 2.0)), DurationFromMs(Clamp(sample * 2.0, MIN_RTO, MAX_RTO)))
  }

  /** The doubling after a timer-driven resend. */
  function Backoff(rto: Millis): (backed: Millis)
    ensures RtoInBounds(backed)
    ensures RtoInBounds(rto) ==> rto <= backed <= 2.0 * rto
    ensures RtoInBounds(rto) ==> (backed == rto <==> rto == MAX_RTO)
  {
    MaxR(MinR(rto * 2.0, MAX_RTO), MIN_RTO)
  }

  class RttEstimator {
    var smoothed: Option<Millis>
    var variation: Option<Millis>

    ghost function State(): Estimate
      reads this
    {
      Estimate(smoothed, variation)
    }

    constructor ()
      ensures State() == NO_ESTIMATE
    {
      smoothed, variation := None, None;
    }

    method Update(sample: Millis) returns (rto: Millis)
      modifies this
      ensures (State(), rto) == Sampled(old(State()), sample)
      ensures RtoInBounds(rto)
    {
      if smoothed.Some? && variation.Some? {
        var nextVariation := 0.75 * variation.value + 0.25 * Abs(smoothed.value - sample);
        var nextSmoothed := 0.875 * smoothed.value + 0.125 * sample;
        smoothed, variation := Some(nextSmoothed), Some(nextVariation);
        rto := DurationFromMs(Clamp(nextSmoothed + 4.0 * nextVariation, MIN_RTO, MAX_RTO));
      } else {
        smoothed, variation := Some(sample), Some(sample / 2.0);
        rto := DurationFromMs(Clamp(sample * 2.0, MIN_RTO, MAX_RTO));
      }
    }
  }

  /** The estimate after a whole run of samples. */
  function AfterSamples(samples: seq<Millis>): Estimate {
    if samples == [] then NO_ESTIMATE
    else Sampled(AfterSamples(samples[..|samples| - 1]), samples[|samples| - 1]).0
  }

  /**
     The smoothed value never leaves the interval the samples lie in, and the variation never
     exceeds the first half-sample or the width of that interval.
   */
  lemma {:induction false} EstimateStaysWithinSamples(samples: seq<Millis>, lo: Millis, hi: Millis)
    requires samples != []
    requires forall i :: 0 <= i < |samples| ==> 0.0 <= lo <= samples[i] <= hi
    ensures var e := AfterSamples(samples);
      && e.srtt.Some? && lo <= e.srtt.value <= hi
      && e.rttvar.Some? && 0.0 <= e.rttvar.value <= MaxR(samples[0] / 2.0, hi - lo)
  {
    var front := samples[..|samples| - 1];
    if front != [] {
      assert forall i :: 0 <= i < |front| ==> front[i] == samples[i];
      EstimateStaysWithinSamples(front, lo, hi);
    }
  }

  function Decay(factor: real, n: nat): real {
    if n == 0 then 1.0 else factor * Decay(factor, n - 1)
  }

  /** What is left of a whole of which a fraction remains after each of `n` steps. */
  function Remains(factor: real, n: nat, whole: real): real {
    if n == 0 then whole else factor * Remains(factor, n - 1, whole)
  }

  lemma {:induction false} RemainsIsGeometric(factor: real, n: nat, whole: real)
    ensures Remains(factor, n, whole) == Decay(factor, n) * whole
  {
    if n > 0 {
      RemainsIsGeometric(factor, n - 1, whole);
      assert factor * (Decay(factor, n - 1) * whole) == (factor * Decay(factor, n - 1)) * whole;
    }
  }

  /** The estimate after `n` more samples of the same length. */
  function AfterEqual(e: Estimate, sample: Millis, n: nat): Estimate {
    if n == 0 then e else Sampled(AfterEqual(e, sample, n - 1), sample).0
  }

  lemma {:induction false} ErrorRemains(e: Estimate, sample: Millis, n: nat)
    requires e.srtt.Some? && e.rttvar.Some?
    ensures var a := AfterEqual(e, sample, n);
      && a.srtt.Some? && a.rttvar.Some?
      && a.srtt.value == sample + Remains(0.875, n, e.srtt.value - sample)
  {
    if n > 0 {
      ErrorRemains(e, sample, n - 1);
    }
  }

  /** After a change of the round-trip time an eighth of the remaining error is made good by each sample. */
  lemma SmoothedApproaches(e: Estimate, sample: Millis, n: nat)
    requires e.srtt.Some? && e.rttvar.Some?
    ensures var a := AfterEqual(e, sample, n);
      && a.srtt.Some? && a.rttvar.Some?
      && a.srtt.value == sample + Decay(0.875, n) * (e.srtt.value - sample)
  {
    ErrorRemains(e, sample, n);
    RemainsIsGeometric(0.875, n, e.srtt.value - sample);
    hide AfterEqual, Remains, Decay;
  }

  lemma {:induction false} RemainsAbs(factor: real, n: nat, whole: real)
    requires factor >= 0.0
    ensures Abs(Remains(factor, n, whole)) == Remains(factor, n, Abs(whole))
  {
    if n > 0 {
      RemainsAbs(factor, n - 1, whole);
      ScaledAbs(factor, Remains(factor, n - 1, whole));
    }
  }

  lemma ScaledAbs(factor: real, x: real)
    requires factor >= 0.0
    ensures Abs(factor * x) == factor * Abs(x)
  {
  }

  /**
     After a change of the round-trip time by `d` the variation is what remains of the old one, three
     quarters with each sample, and a swell that first rises and then dies away with the error.
   */
  lemma {:induction false} VariationFollows(e: Estimate, sample: Millis, n: nat)
    requires e.srtt.Some? && e.rttvar.Some?
    ensures
      var a := AfterEqual(e, sample, n);
      var d := Abs(e.srtt.value - sample);
      && a.srtt.Some? && a.rttvar.Some?
      && a.rttvar.value == Remains(0.75, n, e.rttvar.value) + 2.0 * (Remains(0.875, n, d) - Remains(0.75, n, d))
  {
    if n > 0 {
      var before, error := AfterEqual(e, sample, n - 1), e.srtt.value - sample;
      VariationFollows(e, sample, n - 1);
      ErrorRemains(e, sample, n - 1);
      RemainsAbs(0.875, n - 1, error);
      NextVariation(before, sample);
      assert AfterEqual(e, sample, n) == Sampled(before, sample).0;
      hide Abs, Sampled, AfterEqual;
      assert before.srtt.value - sample == Remains(0.875, n - 1, error);
    }
  }

  lemma NextVariation(e: Estimate, sample: Millis)
    requires e.srtt.Some? && e.rttvar.Some?
    ensures
      var n := Sampled(e, sample).0;
      n.srtt.Some? && n.rttvar.Some?
      && n.rttvar.value == 0.75 * e.rttvar.value + 0.25 * Abs(e.srtt.value - sample)
  {
  }

  /** The timeout after `n` resends with nothing acknowledged. */
  function BackedOff(rto: Millis, n: nat): Millis {
    if n == 0 then rto else Backoff(BackedOff(rto, n - 1))
  }

  function Doubled(rto: Millis, n: nat): Millis {
    if n == 0 then rto else 2.0 * Doubled(rto, n - 1)
  }

  /** It doubles with each until it reaches two seconds. */
  lemma {:induction false} TimeoutDoubles(rto: Millis, n: nat)
    requires RtoInBounds(rto)
    ensures BackedOff(rto, n) == MinR(Doubled(rto, n), 2000.0) && Doubled(rto, n) >= rto
  {
    if n > 0 {
      TimeoutDoubles(rto, n - 1);
    }
  }

  lemma {:induction false} MarginRemains(sample: Millis, n: nat)
    ensures var (first, rto) := Sampled(NO_ESTIMATE, sample);
      && AfterEqual(first, sample, n) == Estimate(Some(sample), Some(Remains(0.75, n, sample / 2.0)))
      && Sampled(AfterEqual(first, sample, n), sample).1
           == Clamp(sample + 4.0 * Remains(0.75, n + 1, sample / 2.0), MIN_RTO, MAX_RTO)
  {
    if n > 0 {
      MarginRemains(sample, n - 1);
    }
  }

  /** What a margin has decayed to after `n` samples. */
  function Margin(n: nat, whole: Millis): Millis { Decay(0.75, n) * whole }

  lemma MarginIsWhatRemains(n: nat, whole: Millis)
    ensures Margin(n, whole) == Remains(0.75, n, whole)
  {
    RemainsIsGeometric(0.75, n, whole);
  }

  /**
     On a path of constant round-trip time the first timeout is twice that time, and the later ones
     fall towards the time itself, by a quarter of the margin with each sample.
   */
  lemma SteadyTimeouts(sample: Millis, n: nat)
    ensures var (first, rto) := Sampled(NO_ESTIMATE, sample);
      && rto == Clamp(2.0 * sample, MIN_RTO, MAX_RTO)
      && AfterEqual(first, sample, n) == Estimate(Some(sample), Some(Margin(n, sample / 2.0)))
      && Sampled(AfterEqual(first, sample, n), sample).1
           == Clamp(sample + 4.0 * Margin(n + 1, sample / 2.0), MIN_RTO, MAX_RTO)
  {
    MarginRemains(sample, n);
    MarginIsWhatRemains(n, sample / 2.0);
    MarginIsWhatRemains(n + 1, sample / 2.0);
    hide AfterEqual, Remains, Margin;
  }
}
