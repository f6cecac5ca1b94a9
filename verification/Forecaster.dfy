/** The scaling decision of Service.Forecast (internal/forecaster/service.go) once
    the inputs and the prediction are known, and the real observations its
    surge detector is allowed to see (internal/dataset/inference.go). */
module Forecaster {
  import opened Products
  import opened RealArithmetic
  import opened Observations
  import opened Safety
  import opened Windows
  import opened Wrappers

  // ----- RealContiguousSuffix

  /** A new slot starts at observation j, too late after the one before it. */
  predicate Cut(s: seq<Sample>, interval: Duration, j: int)
    requires interval > 0
  {
    && 0 < j < |s|
    && Slot(s[j].at, interval) != Slot(s[j - 1].at, interval)
    && s[j].at - s[j - 1].at >= interval + interval / 2
  }

  /** The newest cut, or the beginning. */
  ghost predicate IsLastCut(s: seq<Sample>, interval: Duration, start: int)
    requires interval > 0
  {
    && (start == 0 || Cut(s, interval, start))
    && (forall j :: start < j < |s| ==> !Cut(s, interval, j))
  }

  lemma DedupContinues(s: seq<Sample>, interval: Duration, start: nat, i: nat)
    requires interval > 0 && start < i < |s|
    ensures var kept, p := Dedup(s[start..i], interval), s[i];
            && kept != [] && kept[|kept| - 1] == s[i - 1]
            && Dedup(s[start..i + 1], interval) ==
               if Truncate(s[i - 1].at, interval) == Truncate(p.at, interval) then kept[..|kept| - 1] + [p]
                 else kept + [p]
  {
    hide Dedup, Truncate;
    assert s[start..i][|s[start..i]| - 1] == s[i - 1];
    DedupStep(s[start..i], s[i], interval);
    assert s[start..i] + [s[i]] == s[start..i + 1];
  }

  lemma DedupOne(s: seq<Sample>, interval: Duration, i: nat)
    requires interval > 0 && i < |s|
    ensures Dedup(s[i..i + 1], interval) == [s[i]] && Dedup(s[i..i], interval) == []
  {
    assert s[i..i + 1][..0] == [] && s[i..i] == [];
  }

  method RealContiguousSuffix(observed: seq<Sample>, interval: Duration) returns (evidence: seq<Sample>)
    ensures interval <= 0 ==> evidence == []
    ensures interval > 0 && observed != [] ==>
              exists start :: 0 <= start < |observed| && IsLastCut(observed, interval, start)
                && evidence == Dedup(observed[start..], interval)
    ensures observed == [] ==> evidence == []
  {
    hide Dedup, Slot, Truncate;
    evidence := [];
    if interval <= 0 { return; }
    ghost var start: nat := 0;
    if observed != [] { DedupOne(observed, interval, 0); }
    for i := 0 to |observed|
      invariant i == 0 ==> start == 0 && evidence == []
      invariant i > 0 ==> start < i && evidence == Dedup(observed[start..i], interval)
      invariant i > 0 ==> IsLastCut(observed[..i], interval, start)
    {
      var sample := observed[i];
      DedupOne(observed, interval, i);
      if i > 0 {
        DedupContinues(observed, interval, start, i);
        CutExtends(observed, interval, start, i);
      }
      if |evidence| > 0 {
        var previous := evidence[|evidence| - 1];
        TruncateSteps(previous.at, sample.at, interval);
        if Truncate(previous.at, interval) == Truncate(sample.at, interval) {
          evidence := evidence[..|evidence| - 1] + [sample];
          continue;
        }
        if sample.at - previous.at >= interval + interval / 2 {
          evidence := [];
          start := i;
        }
      }
      evidence := evidence + [sample];
    }
    assert observed[..|observed|] == observed && observed[start..] == observed[start..|observed|];
  }

  lemma CutExtends(s: seq<Sample>, interval: Duration, start: nat, i: nat)
    requires interval > 0 && start < i < |s| && IsLastCut(s[..i], interval, start)
    ensures !Cut(s, interval, i) ==> IsLastCut(s[..i + 1], interval, start)
    ensures Cut(s, interval, i) ==> IsLastCut(s[..i + 1], interval, i)
  {
    hide Slot, Cut;
    var longer := s[..i + 1];
    forall j | start < j < |longer| ensures Cut(longer, interval, j) ==> j == i && Cut(s, interval, i) {
      CutOfPrefix(s, interval, i + 1, j);
      if j < i { CutOfPrefix(s, interval, i, j); }
    }
    if start > 0 {
      CutOfPrefix(s, interval, i + 1, start);
      CutOfPrefix(s, interval, i, start);
    }
    CutOfPrefix(s, interval, i + 1, i);
  }

  lemma CutOfPrefix(s: seq<Sample>, interval: Duration, n: nat, j: int)
    requires interval > 0 && 0 < j < n <= |s|
    ensures Cut(s[..n], interval, j) <==> Cut(s, interval, j)
  {
    hide Slot;
  }

  /** Observation j follows so late in its slot that a whole slot is left out
      although the gap is tolerated. */
  predicate Skips(s: seq<Sample>, interval: Duration, j: int)
    requires interval > 0 && 0 < j < |s|
  {
    s[j - 1].at % interval + (s[j].at - s[j - 1].at) >= 2 * interval
  }

  lemma SkipMeansTwoSlots(s: seq<Sample>, interval: Duration, j: int)
    requires interval > 0 && 0 < j < |s| && s[j - 1].at < s[j].at && !Cut(s, interval, j)
    ensures Skips(s, interval, j) <==> Slot(s[j].at, interval) >= Slot(s[j - 1].at, interval) + 2
    ensures Slot(s[j - 1].at, interval) <= Slot(s[j].at, interval)
  {
    var a, b := s[j - 1].at, s[j].at;
    DivBounds(a, interval);
    DivBounds(b, interval);
    assert a % interval == a - a / interval * interval;
    SlotMonotone(a, b, interval);
    SlotsApart(a / interval, b / interval, interval);
  }

  lemma SlotsApart(p: int, q: int, n: int)
    requires n > 0
    ensures q >= p + 2 <==> q * n - p * n >= 2 * n
    ensures q >= p + 1 <==> q * n - p * n >= n
  {
    ProductDifference(p, q, n);
    ProductGrows(if q - p >= 2 then 2 else q - p, if q - p >= 2 then q - p else 1, n);
    ProductGrows(if q - p >= 1 then 1 else q - p, if q - p >= 1 then q - p else 0, n);
  }

  /** Exactly when the evidence really misses no sampling slot. */
  lemma {:induction false} EvidenceIsGapFree(s: seq<Sample>, interval: Duration)
    requires interval > 0 && s != [] && StrictlyOrdered(s)
    requires forall j :: 0 < j < |s| ==> !Cut(s, interval, j)
    ensures var d := Dedup(s, interval);
            d != [] && (Complete(d, interval, 0, |d| - 1) <==> forall j :: 0 < j < |s| ==> !Skips(s, interval, j))
  {
    hide Slot, Dedup, Skips, Cut, Truncate;
    var n := |s| - 1;
    if n == 0 {
      DedupOne(s, interval, 0);
      assert s[0..1] == s;
    } else {
      var t := s[..n];
      assert t == s[0..n] && s == s[0..n + 1];
      forall j | 0 < j < n ensures !Cut(t, interval, j) && (Skips(t, interval, j) <==> Skips(s, interval, j)) {
        CutOfPrefix(s, interval, n, j);
        SkipsInPrefix(s, interval, n, j);
      }
      EvidenceIsGapFree(t, interval);
      DedupContinues(s, interval, 0, n);
      SkipMeansTwoSlots(s, interval, n);
      TruncateSteps(s[n - 1].at, s[n].at, interval);
      LastStep(Dedup(t, interval), s[n], interval);
    }
  }

  lemma SkipsInPrefix(s: seq<Sample>, interval: Duration, n: nat, j: int)
    requires interval > 0 && 0 < j < n <= |s|
    ensures Skips(s[..n], interval, j) <==> Skips(s, interval, j)
  {
    hide Slot;
  }

  lemma LastStep(kept: seq<Sample>, p: Sample, interval: Duration)
    requires interval > 0 && kept != []
    ensures var d := kept + [p];
            Complete(d, interval, 0, |d| - 1) <==>
              Complete(kept, interval, 0, |kept| - 1)
              && Slot(p.at, interval) == Slot(kept[|kept| - 1].at, interval) + 1
    ensures var d := kept[..|kept| - 1] + [p];
            Slot(p.at, interval) == Slot(kept[|kept| - 1].at, interval) ==>
              (Complete(d, interval, 0, |d| - 1) <==> Complete(kept, interval, 0, |kept| - 1))
  {
    hide Slot;
    var d, e, k := kept + [p], kept[..|kept| - 1] + [p], |kept| - 1;
    forall i | 0 < i <= k ensures Follows(d, interval, i) <==> Follows(kept, interval, i) {}
    assert Follows(d, interval, k + 1) <==> Slot(p.at, interval) == Slot(kept[k].at, interval) + 1;
    if Slot(p.at, interval) == Slot(kept[k].at, interval) {
      forall i | 0 < i <= k ensures Follows(e, interval, i) <==> Follows(kept, interval, i) {}
    }
  }

  /** The evidence can miss a slot: an observation late in one slot and another
      early in the next but one are less than one and a half intervals apart. */
  lemma EvidenceCanMissASlot()
    ensures var s := [Sample(119 * SECOND, 1.0), Sample(180 * SECOND, 9.0)];
            && !Cut(s, MINUTE, 1)
            && Dedup(s, MINUTE) == s
            && Slot(s[1].at, MINUTE) == Slot(s[0].at, MINUTE) + 2
  {
    var s := [Sample(119 * SECOND, 1.0), Sample(180 * SECOND, 9.0)];
    DivUnique(119 * SECOND, MINUTE, 1);
    DivUnique(180 * SECOND, MINUTE, 3);
    assert s[..1] == [s[0]] && s[..1][..0] == [];
  }

  // ----- the decision

  /** What the lookup of the current replicas gives, if there is one. */
  datatype Replicas = NoLookup | LookupFailed | Observed(count: real)

  datatype Situation = Situation(
    p50: real, p95: real, surge: SurgeResult, estimated: nat, threshold: real, replicas: Replicas,
    maxReplicas: int, absoluteStep: real, percentIncrease: real, healthy: bool, capacity: (real, real) -> bool)

  datatype Failure = InvalidPrediction | InvalidThreshold | ReplicasUnreadable | NoReplicaObservation

  datatype Decision = Decision(surgeDemand: real, safe: real)

  /** The same situation without a surge. */
  function Calm(s: Situation): Situation { s.(surge := NO_SURGE) }

  lemma CeilIsMonotone(x: real, y: real)
    requires x <= y
    ensures Ceil(x) <= Ceil(y)
  {
  }

  function Current(s: Situation): real { if s.replicas.Observed? then s.replicas.count else 0.0 }

  function Demand(s: Situation): real {
    if s.surge.triggered && s.surge.demand > s.p95 then s.surge.demand else s.p95
  }

  function Desired(s: Situation): real
    requires s.threshold > 0.0
  {
    var desired := Ceil(Demand(s) / s.threshold) as real;
    if s.estimated > 0 then MaxReal(desired, Current(s)) else desired
  }

  /** Without estimated inputs, the fewest replicas that keep the larger of forecast
      and surge at the threshold each. */
  lemma DesiredIsJustEnough(s: Situation)
    requires s.threshold > 0.0 && s.estimated == 0
    ensures var demand := if s.surge.triggered then MaxReal(s.p95, s.surge.demand) else s.p95;
            (Desired(s) - 1.0) * s.threshold < demand <= Desired(s) * s.threshold
  {
    JustEnough(Demand(s), s.threshold, Desired(s));
  }

  lemma JustEnough(demand: real, threshold: real, n: real)
    requires threshold > 0.0 && demand / threshold <= n < demand / threshold + 1.0
    ensures (n - 1.0) * threshold < demand <= n * threshold
  {
    var share := demand / threshold;
    assert Times(threshold, share) == demand;
    TimesOrdered(share, n, threshold);
    StrictlyLess(n - 1.0, share, threshold);
  }

  function GuardOf(s: Situation): Guard
    requires s.threshold > 0.0
  {
    var step := if s.absoluteStep <= 0.0 then 3.0 else s.absoluteStep;
    var percent := if s.percentIncrease <= 0.0 then 100.0 else s.percentIncrease;
    Guard(Desired(s), Current(s), s.maxReplicas,
          if s.estimated > 0 then MinReal(step, 1.0) else step,
          if s.estimated > 0 then MinReal(percent, 25.0) else percent,
          s.healthy, s.capacity(Current(s), Desired(s)))
  }

  method Decide(s: Situation) returns (r: Result<Decision, Failure>)
    ensures r == Err(InvalidPrediction) <==> s.p50 < 0.0 || s.p95 < 0.0
    ensures r == Err(InvalidThreshold) <==> s.p50 >= 0.0 && s.p95 >= 0.0 && s.threshold <= 0.0
    ensures r == Err(ReplicasUnreadable) <==>
            s.p50 >= 0.0 && s.p95 >= 0.0 && s.threshold > 0.0 && s.replicas.LookupFailed?
    ensures r == Err(NoReplicaObservation) <==>
            s.p50 >= 0.0 && s.p95 >= 0.0 && s.threshold > 0.0 && s.replicas.NoLookup? && s.estimated > 0
    ensures r.Ok? ==> r.value.safe == ApplyGuardrails(GuardOf(s)).0
    ensures r.Ok? ==> r.value.surgeDemand == if Demand(s) > s.p95 then Demand(s) else 0.0
  {
    hide ApplyGuardrails;
    if s.p50 < 0.0 || s.p95 < 0.0 { return Err(InvalidPrediction); }
    if s.threshold <= 0.0 { return Err(InvalidThreshold); }
    var raw, surgeDemand := s.p95, 0.0;
    if s.surge.triggered && s.surge.demand > raw {
      raw := s.surge.demand;
      surgeDemand := s.surge.demand;
    }
    var desired := Ceil(raw / s.threshold) as real;
    var current := 0.0;
    if s.replicas.LookupFailed? { return Err(ReplicasUnreadable); }
    if s.replicas.Observed? { current := s.replicas.count; }
    if s.estimated > 0 {
      if s.replicas.NoLookup? { return Err(NoReplicaObservation); }
      desired := MaxReal(desired, current);
    }
    var capacityAllowed := s.capacity(current, desired);
    var step, percent := s.absoluteStep, s.percentIncrease;
    if step <= 0.0 { step := 3.0; }
    if percent <= 0.0 { percent := 100.0; }
    if s.estimated > 0 { step, percent := MinReal(step, 1.0), MinReal(percent, 25.0); }
    var (safe, _) := ApplyGuardrails(Guard(desired, current, s.maxReplicas, step, percent, s.healthy, capacityAllowed));
    r := Ok(Decision(surgeDemand, safe));
  }

  /** Estimated inputs never scale below the current replicas, unless these are
      over the maximum, and never up by more than one replica or a quarter. */
  lemma EstimatesAreConservative(s: Situation)
    requires s.threshold > 0.0 && s.estimated > 0 && s.replicas.Observed?
    ensures var safe, current := ApplyGuardrails(GuardOf(s)).0, s.replicas.count;
            && safe >= MinReal(current, s.maxReplicas as real)
            && safe <= current + 1.0
            && (current > 0.0 ==> safe <= current * 1.25)
  {
    hide ApplyGuardrails, Desired;
    EstimatedDesired(s);
    ConservativeGuard(GuardOf(s));
  }

  lemma ConservativeGuard(g: Guard)
    requires g.desired >= g.current && 0.0 < g.step <= 1.0 && 0.0 < g.percent <= 25.0
    ensures var safe := ApplyGuardrails(g).0;
            && safe >= MinReal(g.current, g.maxReplicas as real)
            && safe <= g.current + 1.0
            && (g.current > 0.0 ==> safe <= g.current * 1.25)
  {
    hide ApplyGuardrails, PercentLimit;
    GuardrailsHold(g);
    if g.current > 0.0 { PercentLimitBound(g); }
  }

  lemma PercentLimitBound(g: Guard)
    requires g.current > 0.0 && 0.0 < g.percent <= 25.0
    ensures g.current < PercentLimit(g) <= g.current * 1.25
  {
    hide Times;
    Quarter(g.current, 1.0 + g.percent / 100.0);
  }

  lemma EstimatedDesired(s: Situation)
    requires s.threshold > 0.0 && s.estimated > 0
    ensures Desired(s) >= Current(s)
  {
  }

  lemma Quarter(a: real, m: real)
    requires a > 0.0 && 1.0 < m <= 1.25
    ensures a < Times(a, m) <= a * 1.25
  {
    hide Times;
    TimesGrows(a, m);
    TimesOrdered(m, 1.25, a);
    ByQuarter(a);
  }

  lemma ByQuarter(a: real)
    ensures Times(a, 1.25) == a * 1.25
  {
  }

  lemma QuotientInOrder(a: real, b: real, n: real)
    requires a <= b && n > 0.0
    ensures a / n <= b / n
  {
    assert b / n - a / n == (b - a) / n;
  }

  lemma SurgeAsksForMore(s: Situation)
    requires s.threshold > 0.0
    ensures Desired(Calm(s)) <= Desired(s)
  {
    hide Ceil;
    QuotientInOrder(Demand(Calm(s)), Demand(s), s.threshold);
    CeilIsMonotone(Demand(Calm(s)) / s.threshold, Demand(s) / s.threshold);
  }

  /** A surge never asks for less, but the capacity check sees the larger request
      and may answer differently: exactly then can a surge lower the result. */
  lemma SurgeLowersOnlyThroughCapacity(s: Situation)
    requires s.threshold > 0.0
    ensures var safe, calm, current := ApplyGuardrails(GuardOf(s)).0, ApplyGuardrails(GuardOf(Calm(s))).0, Current(s);
            var granted, before := s.capacity(current, Desired(s)), s.capacity(current, Desired(Calm(s)));
            safe >= calm <==>
              || !s.healthy || granted == before
              || (before && MinReal(Desired(Calm(s)), s.maxReplicas as real) <= current)
              || (granted && MinReal(Desired(s), s.maxReplicas as real) >= current)
  {
    hide ApplyGuardrails, Desired;
    SurgeAsksForMore(s);
    var g, c := GuardOf(s), GuardOf(Calm(s));
    GuardrailsAreMonotone(c, g.desired);
    GuardrailsHold(g);
    GuardrailsHold(c);
    GrantedKeeps(g);
    GrantedKeeps(c);
  }

  lemma GrantedKeeps(g: Guard)
    requires g.step > 0.0 && g.percent > 0.0
    ensures g.healthy && g.capacity ==>
            (ApplyGuardrails(g).0 >= g.current <==> MinReal(g.desired, g.maxReplicas as real) >= g.current)
    ensures g.healthy && g.capacity ==>
            (ApplyGuardrails(g).0 <= g.current <==> MinReal(g.desired, g.maxReplicas as real) <= g.current)
    ensures g.healthy && !g.capacity ==> ApplyGuardrails(g).0 == g.current
  {
    hide Times;
    if g.current > 0.0 { TimesGrows(g.current, 1.0 + g.percent / 100.0); }
  }

  /** Such a case: capacity for two replicas but not for five. */
  lemma CapacityCanLowerASurge()
    ensures var s := Situation(1.0, 2.0, SurgeResult(true, 5.0, ""), 0, 1.0, Observed(1.0), 10, 3.0, 100.0, true,
                               (current: real, desired: real) => desired <= 2.0);
            ApplyGuardrails(GuardOf(s)).0 == 1.0 && ApplyGuardrails(GuardOf(Calm(s))).0 == 2.0
  {
  }
}
