/** Surge detection of internal/forecaster/service.go, and the real evidence it
    is given (RealContiguousSuffix, internal/dataset/inference.go). */
module Surge {
  import opened RealArithmetic
  import opened Observations
  import opened Safety
  import Sorting

  const BASELINE_SAMPLES := 5

  function Minutes(d: Duration): real { d as real / MINUTE as real }

  function Confirmations(p: SurgePolicy): (c: int)
    ensures c >= 1
  {
    if p.confirmation < 1 then DEFAULT_POLICY.confirmation else p.confirmation
  }

  function Rate(later: real, earlier: real, minutes: real): real
    requires minutes > 0.0
  {
    (later - earlier) / minutes
  }

  function Slope(v: seq<real>, i: nat, minutes: real): real
    requires 0 < i < |v| && minutes > 0.0
  {
    Rate(v[i], v[i - 1], minutes)
  }

  /** The slopes before the samples that are to be judged. */
  function Slopes(v: seq<real>, minutes: real, count: nat): (r: seq<real>)
    requires count < |v| && minutes > 0.0
    ensures |r| == count
  {
    seq(count, i requires 0 <= i < count => Slope(v, i + 1, minutes))
  }

  function Rank(n: nat): (k: int)
    requires n > 0
    ensures 0 <= k < n && 20 * k < 19 * n <= 20 * (k + 1)
  {
    (19 * n + 19) / 20 - 1
  }

  function NearestRank(slopes: seq<real>): real
    requires slopes != []
  {
    Sorting.Sorted(slopes)[Rank(|slopes|)]
  }

  /** The mean of the five samples before sample i. */
  function Baseline(v: seq<real>, i: nat): real
    requires BASELINE_SAMPLES <= i <= |v|
  {
    Sum(v[i - BASELINE_SAMPLES..i]) / 5.0
  }

  function InputAt(v: seq<real>, i: nat, minutes: real, p95: real, lead: real): SurgeInput
    requires BASELINE_SAMPLES <= i < |v| && minutes > 0.0
  {
    SurgeInput(v[i], Baseline(v, i), Slope(v, i, minutes), p95, lead)
  }

  /** Enough history to judge the newest samples at all. */
  predicate Judged(v: seq<real>, interval: Duration, c: int) {
    interval > 0 && c >= 1 && |v| >= c + BASELINE_SAMPLES
  }

  function HistoricalP95(v: seq<real>, interval: Duration, c: int): real
    requires Judged(v, interval, c)
  {
    NearestRank(Slopes(v, Minutes(interval), |v| - c - 1))
  }

  /** Each of the newest c samples grows abnormally fast against the earlier
      slopes and stands clear of the five samples before it. */
  predicate Sustained(v: seq<real>, interval: Duration, c: int, p95: real, policy: SurgePolicy)
    requires Judged(v, interval, c)
  {
    forall i :: |v| - c <= i < |v| ==> IsSurgeCandidate(InputAt(v, i, Minutes(interval), p95, 0.0), policy)
  }

  /** The whole decision in terms of the samples alone. */
  predicate IsSurge(v: seq<real>, interval: Duration, lead: Duration, policy: SurgePolicy) {
    var c := Confirmations(policy);
    && Judged(v, interval, c)
    && lead > 0
    && Sustained(v, interval, c, HistoricalP95(v, interval, c), policy)
  }

  /** The last value carried along the last slope for the lead time, cut off at
      the policy's multiple of the last value. */
  function SurgeDemand(v: seq<real>, interval: Duration, lead: Duration, policy: SurgePolicy): real
    requires |v| >= 2 && interval > 0
  {
    var last := |v| - 1;
    MinReal(v[last] + Times(Slope(v, last, Minutes(interval)), Minutes(lead)),
            Times(v[last], Normalized(policy).maxMultiplier))
  }

  lemma MinutesExactly(d: Duration)
    ensures Minutes(d) * MINUTE as real == d as real
  {
  }

  lemma RateExactly(later: real, earlier: real, minutes: real)
    requires minutes > 0.0
    ensures earlier + minutes * Rate(later, earlier, minutes) == later
  {
  }

  lemma SumOfMore(v: seq<real>, k: nat)
    requires k < |v|
    ensures Sum(v[..k + 1]) == Sum(v[..k]) + v[k]
  {
    assert v[..k + 1][..k] == v[..k];
  }

  /** The five samples before sample i average to the baseline. */
  lemma BaselineExactly(v: seq<real>, i: nat)
    requires BASELINE_SAMPLES <= i <= |v|
    ensures i >= 5 && 5.0 * Baseline(v, i) == v[i - 5] + v[i - 4] + v[i - 3] + v[i - 2] + v[i - 1]
  {
    var w := v[i - 5..i];
    assert w[..5] == w && w[..0] == [];
    SumOfMore(w, 0);
    SumOfMore(w, 1);
    SumOfMore(w, 2);
    SumOfMore(w, 3);
    SumOfMore(w, 4);
  }

  method MeanBefore(samples: seq<Sample>, i: nat) returns (baseline: real)
    requires BASELINE_SAMPLES <= i <= |samples|
    ensures baseline == Baseline(Values(samples), i)
  {
    baseline := 0.0;
    for k := i - BASELINE_SAMPLES to i
      invariant baseline == Sum(Values(samples)[i - BASELINE_SAMPLES..k])
    {
      assert Values(samples)[i - BASELINE_SAMPLES..k + 1] ==
        Values(samples)[i - BASELINE_SAMPLES..k] + [samples[k].value];
      baseline := baseline + samples[k].value;
    }
    baseline := baseline / 5.0;
  }

  method DetectSurgeIn(samples: seq<Sample>, interval: Duration, lead: Duration, policy: SurgePolicy)
    returns (r: SurgeResult)
    ensures r.triggered <==> IsSurge(Values(samples), interval, lead, policy)
    ensures !r.triggered ==> r == NO_SURGE
    ensures r.triggered ==> r.demand == SurgeDemand(Values(samples), interval, lead, policy)
    ensures r.triggered ==>
              var last := samples[|samples| - 1].value;
              last < r.demand <= Times(last, Normalized(policy).maxMultiplier)
  {
    hide Sorting.Sorted, IsSurgeCandidate, Baseline, DetectSurge, Minutes, Rate, Slopes, Normalized, Times;
    var confirmation := policy.confirmation;
    if confirmation < 1 { confirmation := DEFAULT_POLICY.confirmation; }
    if |samples| < confirmation + BASELINE_SAMPLES || interval <= 0 { return NO_SURGE; }
    var minutes := Minutes(interval);
    var historyEnd := |samples| - confirmation;
    ghost var v := Values(samples);
    var slopes: seq<real> := [];
    MinutesPositive(interval);
    MinutesPositive(lead);
    for i := 1 to historyEnd
      invariant slopes == Slopes(v, minutes, i - 1)
    {
      SlopesGrow(samples, minutes, i);
      slopes := slopes + [Rate(samples[i].value, samples[i - 1].value, minutes)];
    }
    assert Judged(v, interval, confirmation);
    var p95 := Sorting.Sorted(slopes)[Rank(|slopes|)];
    assert p95 == HistoricalP95(v, interval, confirmation);
    for candidate := historyEnd to |samples|
      invariant forall i :: historyEnd <= i < candidate ==> IsSurgeCandidate(InputAt(v, i, minutes, p95, 0.0), policy)
    {
      var baseline := MeanBefore(samples, candidate);
      var slope := Rate(samples[candidate].value, samples[candidate - 1].value, minutes);
      var input := SurgeInput(samples[candidate].value, baseline, slope, p95, Minutes(lead));
      assert input.(lead := 0.0) == InputAt(v, candidate, minutes, p95, 0.0);
      LeadIsNotJudged(input, policy);
      if !IsSurgeCandidate(input, policy) { return NO_SURGE; }
    }
    var last := samples[|samples| - 1].value;
    var previous := samples[|samples| - 2].value;
    var baseline := MeanBefore(samples, |samples| - 1);
    var input := SurgeInput(last, baseline, Rate(last, previous, minutes), p95, Minutes(lead));
    LeadIsNotJudged(input, policy);
    SurgeIsBounded(input, policy);
    assert input.(lead := 0.0) == InputAt(v, |samples| - 1, minutes, p95, 0.0);
    r := DetectSurge(input, policy);
  }

  lemma SlopesGrow(samples: seq<Sample>, minutes: real, i: nat)
    requires 0 < i < |samples| && minutes > 0.0
    ensures Slopes(Values(samples), minutes, i - 1) + [Rate(samples[i].value, samples[i - 1].value, minutes)] ==
            Slopes(Values(samples), minutes, i)
  {
    hide Rate;
  }

  lemma LeadIsNotJudged(input: SurgeInput, policy: SurgePolicy)
    ensures IsSurgeCandidate(input.(lead := 0.0), policy) <==> IsSurgeCandidate(input, policy)
  {
  }

  lemma MinutesPositive(d: Duration)
    ensures Minutes(d) > 0.0 <==> d > 0
  {
  }

  // ----- the percentile, independently of sorting

  /** At least 95% of the slopes are at most x, and fewer are below it. */
  predicate IsPercentile(s: seq<real>, x: real) {
    20 * Sorting.AtMost(s, x) >= 19 * |s| > 20 * Sorting.Below(s, x)
  }

  /** The value the code picks out of the sorted slopes is the one percentile. */
  lemma NearestRankIsPercentile(s: seq<real>, x: real)
    requires s != []
    ensures IsPercentile(s, x) <==> x == NearestRank(s)
  {
    hide Sorting.Sorted, Sorting.AtMost, Sorting.Below;
    var r, k := Sorting.Sorted(s), Rank(|s|);
    Sorting.SortedSorts(s);
    Sorting.CountsInOrder(r, k);
    Sorting.SortedCounts(s, r[k]);
    assert IsPercentile(s, r[k]);
    if x < r[k] { Sorting.CountsSeparate(s, x, r[k]); }
    if x > r[k] { Sorting.CountsSeparate(s, r[k], x); }
  }

  // ----- laws

  /** The samples that are judged take no part in the percentile they are
      judged against. */
  lemma JudgedSamplesStayOut(v: seq<real>, w: seq<real>, interval: Duration, c: int)
    requires Judged(v, interval, c) && |w| == |v|
    requires v[..|v| - c] == w[..|v| - c]
    ensures HistoricalP95(v, interval, c) == HistoricalP95(w, interval, c)
  {
    hide NearestRank;
    var n, minutes := |v| - c - 1, Minutes(interval);
    forall i | 0 <= i < n ensures Slopes(v, minutes, n)[i] == Slopes(w, minutes, n)[i] {
      assert v[i] == v[..n + 1][i] && v[i + 1] == v[..n + 1][i + 1];
      assert w[i] == w[..n + 1][i] && w[i + 1] == w[..n + 1][i + 1];
    }
    assert Slopes(v, minutes, n) == Slopes(w, minutes, n);
  }

  lemma BaselineAgrees(v: seq<real>, w: seq<real>, i: nat)
    requires BASELINE_SAMPLES <= i <= |v| && i <= |w|
    requires forall k :: 0 <= k < i ==> v[k] == w[k]
    ensures Baseline(v, i) == Baseline(w, i)
  {
    assert v[i - BASELINE_SAMPLES..i] == w[i - BASELINE_SAMPLES..i];
  }

  lemma SlopeGrows(v: seq<real>, more: real, i: nat, minutes: real)
    requires 0 < i < |v| && minutes > 0.0 && more >= v[|v| - 1]
    ensures Slope(v, i, minutes) <= Slope(v[|v| - 1 := more], i, minutes)
  {
    hide Rate;
    var w := v[|v| - 1 := more];
    RateOrdered(v[i], w[i], v[i - 1], minutes);
  }

  lemma RateOrdered(a: real, b: real, earlier: real, minutes: real)
    requires a <= b && minutes > 0.0
    ensures Rate(a, earlier, minutes) <= Rate(b, earlier, minutes)
  {
    assert Rate(b, earlier, minutes) - Rate(a, earlier, minutes) == (b - a) / minutes;
  }

  lemma StillCandidate(x: SurgeInput, y: SurgeInput, policy: SurgePolicy)
    requires IsSurgeCandidate(x, policy) && x.current <= y.current && x.slope <= y.slope
    requires x.baseline == y.baseline && x.slopeP95 == y.slopeP95
    ensures IsSurgeCandidate(y, policy)
  {
    hide Normalized, Times;
  }

  lemma MinInOrder(a: real, b: real, x: real, y: real, lead: real, m: real)
    requires a <= b && x <= y && lead > 0.0 && m > 0.0
    ensures MinReal(a + Times(x, lead), Times(a, m)) <= MinReal(b + Times(y, lead), Times(b, m))
  {
    hide Times;
    TimesOrdered(x, y, lead);
    TimesOrdered(a, b, m);
  }

  /** A surge stays a surge when the newest value is higher still, and then asks
      for at least as much. */
  lemma MoreDemandKeepsSurge(v: seq<real>, more: real, interval: Duration, lead: Duration, policy: SurgePolicy)
    requires IsSurge(v, interval, lead, policy) && more >= v[|v| - 1]
    ensures var w := v[|v| - 1 := more];
            IsSurge(w, interval, lead, policy)
              && SurgeDemand(v, interval, lead, policy) <= SurgeDemand(w, interval, lead, policy)
  {
    hide HistoricalP95, IsSurgeCandidate, Baseline, Slope, Minutes, Normalized, Times, Rate;
    var last, c, minutes := |v| - 1, Confirmations(policy), Minutes(interval);
    var w := v[last := more];
    var p95 := HistoricalP95(v, interval, c);
    MinutesPositive(interval);
    MinutesPositive(lead);
    assert v[..|v| - c] == w[..|v| - c];
    JudgedSamplesStayOut(v, w, interval, c);
    forall i | |v| - c <= i < |v| ensures IsSurgeCandidate(InputAt(w, i, minutes, p95, 0.0), policy) {
      BaselineAgrees(v, w, i);
      SlopeGrows(v, more, i, minutes);
      StillCandidate(InputAt(v, i, minutes, p95, 0.0), InputAt(w, i, minutes, p95, 0.0), policy);
    }
    SlopeGrows(v, more, last, minutes);
    SurgeIsBounded(InputAt(v, last, minutes, p95, Minutes(lead)), policy);
    MinInOrder(v[last], more, Slope(v, last, minutes), Slope(w, last, minutes), Minutes(lead),
               Normalized(policy).maxMultiplier);
  }

  // ----- unit independence

  function ScaledBy(k: real): real -> real { x => Times(k, x) }

  function ScaledValues(v: seq<real>, k: real): (r: seq<real>)
    ensures |r| == |v|
  {
    Map(ScaledBy(k), v)
  }

  lemma ScalingOrders(k: real, x: real, y: real)
    requires k > 0.0
    ensures Times(k, x) <= Times(k, y) <==> x <= y
  {
    hide Times;
    if x <= y { TimesOrdered(x, y, k); } else { StrictlyLess(y, x, k); }
  }

  lemma ScalingKeepsSign(k: real, x: real)
    requires k > 0.0
    ensures Times(k, x) <= 0.0 <==> x <= 0.0
  {
    hide Times;
    ScalingOrders(k, x, 0.0);
    TimesConstants(k);
  }

  lemma RateScales(k: real, a: real, b: real, minutes: real)
    requires minutes > 0.0
    ensures Rate(Times(k, a), Times(k, b), minutes) == Times(k, Rate(a, b, minutes))
  {
    var rate := Rate(a, b, minutes);
    assert rate * minutes == a - b;
    Regroup(k, rate, minutes);
    assert k * a - k * b == k * (a - b);
    Unique(k * a - k * b, k * rate, minutes);
  }

  lemma Regroup(k: real, a: real, b: real)
    ensures k * a * b == k * (a * b)
  {
  }

  lemma Unique(a: real, q: real, m: real)
    requires m > 0.0 && q * m == a
    ensures a / m == q
  {
  }

  lemma ScalingIncreases(k: real)
    requires k > 0.0
    ensures Sorting.Increasing(ScaledBy(k))
  {
    hide Times;
    forall x: real, y: real ensures ScaledBy(k)(x) <= ScaledBy(k)(y) <==> x <= y {
      ScalingOrders(k, x, y);
    }
  }

  lemma SlopeScales(v: seq<real>, i: nat, minutes: real, k: real)
    requires 0 < i < |v| && minutes > 0.0
    ensures Slope(ScaledValues(v, k), i, minutes) == Times(k, Slope(v, i, minutes))
  {
    hide Times, Rate;
    RateScales(k, v[i], v[i - 1], minutes);
  }

  lemma {:induction false} SumScales(v: seq<real>, k: real)
    ensures Sum(ScaledValues(v, k)) == Times(k, Sum(v))
  {
    hide Times;
    if v == [] {
      TimesConstants(k);
    } else {
      var n := |v| - 1;
      SumScales(v[..n], k);
      assert ScaledValues(v, k)[..n] == ScaledValues(v[..n], k);
      TimesSum(Sum(v[..n]), v[n], k);
    }
  }

  lemma Fifth(k: real, a: real)
    ensures Times(k, a) / 5.0 == Times(k, a / 5.0)
  {
  }

  lemma BaselineScales(v: seq<real>, i: nat, k: real)
    requires BASELINE_SAMPLES <= i <= |v|
    ensures Baseline(ScaledValues(v, k), i) == Times(k, Baseline(v, i))
  {
    hide Sum, Times;
    var before := v[i - BASELINE_SAMPLES..i];
    assert ScaledValues(v, k)[i - BASELINE_SAMPLES..i] == ScaledValues(before, k);
    SumScales(before, k);
    Fifth(k, Sum(before));
  }

  lemma PercentileScales(v: seq<real>, interval: Duration, c: int, k: real)
    requires Judged(v, interval, c) && k > 0.0
    ensures HistoricalP95(ScaledValues(v, k), interval, c) == Times(k, HistoricalP95(v, interval, c))
  {
    hide Sorting.Sorted, Slope, Times, Minutes;
    var n, minutes := |v| - c - 1, Minutes(interval);
    MinutesPositive(interval);
    var slopes := Slopes(v, minutes, n);
    forall i | 0 <= i < n ensures Slopes(ScaledValues(v, k), minutes, n)[i] == Times(k, slopes[i]) {
      SlopeScales(v, i + 1, minutes, k);
    }
    assert Slopes(ScaledValues(v, k), minutes, n) == Map(ScaledBy(k), slopes);
    ScalingIncreases(k);
    Sorting.SortedMaps(ScaledBy(k), slopes);
  }

  lemma CandidateScales(x: SurgeInput, y: SurgeInput, k: real, policy: SurgePolicy)
    requires k > 0.0
    requires y.current == Times(k, x.current) && y.baseline == Times(k, x.baseline)
    requires y.slope == Times(k, x.slope) && y.slopeP95 == Times(k, x.slopeP95)
    ensures IsSurgeCandidate(x, policy) <==> IsSurgeCandidate(y, policy)
  {
    hide Times, Normalized;
    var p := Normalized(policy);
    ScalingKeepsSign(k, x.slope);
    ScalingKeepsSign(k, x.baseline);
    ScalingKeepsSign(k, x.slopeP95);
    TimesGroups(k, x.slopeP95, p.slopeMultiplier);
    TimesGroups(k, x.baseline, p.baselineMultiplier);
    ScalingOrders(k, Times(x.slopeP95, p.slopeMultiplier), x.slope);
    ScalingOrders(k, Times(x.baseline, p.baselineMultiplier), x.current);
  }

  lemma SustainedScales(v: seq<real>, w: seq<real>, interval: Duration, c: int, p: real, q: real, policy: SurgePolicy)
    requires Judged(v, interval, c) && |w| == |v|
    requires forall i :: |v| - c <= i < |v| ==>
             (IsSurgeCandidate(InputAt(v, i, Minutes(interval), p, 0.0), policy) <==>
              IsSurgeCandidate(InputAt(w, i, Minutes(interval), q, 0.0), policy))
    ensures Sustained(v, interval, c, p, policy) <==> Sustained(w, interval, c, q, policy)
  {
    hide IsSurgeCandidate, InputAt, Minutes;
    MinutesPositive(interval);
  }

  /** Measuring demand in another unit changes neither whether there is a surge
      nor, up to the unit, what it asks for. */
  lemma SurgeIsUnitIndependent(v: seq<real>, k: real, interval: Duration, lead: Duration, policy: SurgePolicy)
    requires k > 0.0
    ensures IsSurge(ScaledValues(v, k), interval, lead, policy) <==> IsSurge(v, interval, lead, policy)
    ensures |v| >= 2 && interval > 0 ==>
            SurgeDemand(ScaledValues(v, k), interval, lead, policy) ==
            Times(k, SurgeDemand(v, interval, lead, policy))
  {
    hide IsSurgeCandidate, HistoricalP95, Baseline, Slope, Normalized, Sustained, SurgeDemand, Minutes, Times;
    var w, c, minutes := ScaledValues(v, k), Confirmations(policy), Minutes(interval);
    MinutesPositive(interval);
    if Judged(v, interval, c) {
      var p95 := HistoricalP95(v, interval, c);
      var scaled := Times(k, p95);
      PercentileScales(v, interval, c, k);
      forall i | |v| - c <= i < |v|
        ensures IsSurgeCandidate(InputAt(v, i, minutes, p95, 0.0), policy) <==>
                IsSurgeCandidate(InputAt(w, i, minutes, scaled, 0.0), policy)
      {
        SlopeScales(v, i, minutes, k);
        BaselineScales(v, i, k);
        CandidateScales(InputAt(v, i, minutes, p95, 0.0), InputAt(w, i, minutes, scaled, 0.0), k, policy);
      }
      SustainedScales(v, w, interval, c, p95, scaled, policy);
      assert IsSurge(v, interval, lead, policy) <==> lead > 0 && Sustained(v, interval, c, p95, policy);
      assert IsSurge(w, interval, lead, policy) <==> lead > 0 && Sustained(w, interval, c, scaled, policy);
    } else {
      assert !Judged(w, interval, c);
    }
    if |v| >= 2 && interval > 0 { DemandScales(v, k, interval, lead, policy); }
  }

  lemma DemandScales(v: seq<real>, k: real, interval: Duration, lead: Duration, policy: SurgePolicy)
    requires k > 0.0 && |v| >= 2 && interval > 0
    ensures SurgeDemand(ScaledValues(v, k), interval, lead, policy) == Times(k, SurgeDemand(v, interval, lead, policy))
  {
    hide Slope, Normalized, Minutes, Times;
    MinutesPositive(interval);
    var last, minutes := |v| - 1, Minutes(interval);
    var slope, m := Slope(v, last, minutes), Normalized(policy).maxMultiplier;
    SlopeScales(v, last, minutes, k);
    TimesGroups(k, slope, Minutes(lead));
    TimesGroups(k, v[last], m);
    TimesSum(v[last], Times(slope, Minutes(lead)), k);
    ScalingOrders(k, v[last] + Times(slope, Minutes(lead)), Times(v[last], m));
    ScalingOrders(k, Times(v[last], m), v[last] + Times(slope, Minutes(lead)));
  }
}
