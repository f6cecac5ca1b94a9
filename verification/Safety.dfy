/** internal/safety/safety.go: which observation counts as a surge, how far a
    surge is projected, and the limits around a scaling decision. */
module Safety {
  import opened RealArithmetic

  datatype SurgeInput = SurgeInput(current: real, baseline: real, slope: real, slopeP95: real, lead: real)

  datatype SurgePolicy = SurgePolicy(slopeMultiplier: real, baselineMultiplier: real, confirmation: int,
                                     maxMultiplier: real)

  datatype SurgeResult = SurgeResult(triggered: bool, demand: real, reason: string)

  const NO_SURGE := SurgeResult(false, 0.0, "")
  const DEFAULT_POLICY := SurgePolicy(3.0, 1.5, 2, 1.5)

  /** A limit that is not usable is replaced by its default, one by one. */
  function Normalized(p: SurgePolicy): (r: SurgePolicy)
    ensures r.slopeMultiplier > 1.0 && r.baselineMultiplier > 1.0 && r.confirmation >= 1 && r.maxMultiplier > 1.0
  {
    SurgePolicy(
      if p.slopeMultiplier <= 1.0 then DEFAULT_POLICY.slopeMultiplier else p.slopeMultiplier,
      if p.baselineMultiplier <= 1.0 then DEFAULT_POLICY.baselineMultiplier else p.baselineMultiplier,
      if p.confirmation < 1 then DEFAULT_POLICY.confirmation else p.confirmation,
      if p.maxMultiplier <= 1.0 then DEFAULT_POLICY.maxMultiplier else p.maxMultiplier)
  }

  /** Every limit the policy sets above one, or at least one for the confirmations,
      is kept; the defaults are three slopes, one and a half baselines, two samples
      and one and a half times the current value. */
  lemma NormalizedExactly(p: SurgePolicy)
    ensures Normalized(p) == SurgePolicy(
      if p.slopeMultiplier > 1.0 then p.slopeMultiplier else 3.0,
      if p.baselineMultiplier > 1.0 then p.baselineMultiplier else 1.5,
      if p.confirmation >= 1 then p.confirmation else 2,
      if p.maxMultiplier > 1.0 then p.maxMultiplier else 1.5)
    ensures Normalized(Normalized(p)) == Normalized(p)
  {
  }

  predicate IsSurgeCandidate(input: SurgeInput, policy: SurgePolicy) {
    var p := Normalized(policy);
    && input.slope > 0.0 && input.baseline > 0.0
    && (input.slopeP95 <= 0.0 || input.slope >= Times(input.slopeP95, p.slopeMultiplier))
    && input.current >= Times(input.baseline, p.baselineMultiplier)
  }

  lemma RatioAtLeast(x: real, y: real, m: real)
    requires y > 0.0
    ensures x >= Times(y, m) <==> x / y >= m
  {
    var f := x / y;
    assert Times(y, f) == x;
    if f >= m { TimesOrdered(m, f, y); } else { StrictlyLess(f, m, y); }
  }

  /** A candidate grows, against a positive baseline, at least the slope multiplier
      times as fast as the percentile of the earlier slopes, if that is positive,
      and stands at least the baseline multiplier times above the baseline. */
  lemma CandidateExactly(input: SurgeInput, policy: SurgePolicy)
    ensures IsSurgeCandidate(input, policy) <==>
            && input.slope > 0.0 && input.baseline > 0.0
            && (input.slopeP95 > 0.0 ==> input.slope / input.slopeP95 >= Normalized(policy).slopeMultiplier)
            && input.current / input.baseline >= Normalized(policy).baselineMultiplier
  {
    hide Times, Normalized;
    var p := Normalized(policy);
    if input.slopeP95 > 0.0 { RatioAtLeast(input.slope, input.slopeP95, p.slopeMultiplier); }
    if input.baseline > 0.0 { RatioAtLeast(input.current, input.baseline, p.baselineMultiplier); }
  }

  function DetectSurge(input: SurgeInput, policy: SurgePolicy): SurgeResult {
    if input.lead <= 0.0 then NO_SURGE
    else
      var p := Normalized(policy);
      if !IsSurgeCandidate(input, p) then NO_SURGE
      else
        var demand := input.current + Times(MaxReal(0.0, input.slope), input.lead);
        var capped := if p.maxMultiplier > 1.0 then MinReal(demand, Times(input.current, p.maxMultiplier)) else demand;
        SurgeResult(true, capped, "sustained_abnormal_slope_and_baseline")
  }

  /** A detected surge asks for more than is seen now, never more than the
      policy's multiple of it and never more than the slope explains. */
  lemma SurgeIsBounded(input: SurgeInput, policy: SurgePolicy)
    ensures var r := DetectSurge(input, policy);
            && (r.triggered <==> input.lead > 0.0 && IsSurgeCandidate(input, policy))
            && (!r.triggered ==> r == NO_SURGE)
            && (r.triggered ==> r.reason == "sustained_abnormal_slope_and_baseline")
            && (r.triggered ==>
                0.0 < input.current < r.demand <= Times(input.current, Normalized(policy).maxMultiplier))
            && (r.triggered ==>
                r.demand ==
                MinReal(input.current + Times(input.slope, input.lead),
                        Times(input.current, Normalized(policy).maxMultiplier)))
  {
    hide Times;
    if input.lead > 0.0 && IsSurgeCandidate(input, policy) {
      var p := Normalized(policy);
      TimesPositive(input.baseline, p.baselineMultiplier);
      TimesPositive(input.slope, input.lead);
      TimesGrows(input.current, p.maxMultiplier);
    }
  }

  // ----- guardrails

  datatype Guard = Guard(desired: real, current: real, maxReplicas: int, step: real, percent: real, healthy: bool,
                         capacity: bool)

  function PercentLimit(g: Guard): real { Times(g.current, 1.0 + g.percent / 100.0) }

  function ApplyGuardrails(g: Guard): (real, string) {
    if !g.healthy then (g.current, "cluster_unhealthy")
    else if !g.capacity then (g.current, "capacity_unavailable")
    else
      var desired := MinReal(g.desired, g.maxReplicas as real);
      if desired <= g.current then (desired, "no_predictive_scale_up")
      else
        var stepped := if g.step > 0.0 then MinReal(desired, g.current + g.step) else desired;
        var limit := if g.percent > 0.0 && g.current > 0.0 then MinReal(stepped, PercentLimit(g)) else stepped;
        (limit, "rate_limited")
  }

  /** x keeps every limit that the guard sets on a scale-up. */
  ghost predicate Permitted(g: Guard, x: real) {
    && x <= g.desired && x <= g.maxReplicas as real
    && (g.step > 0.0 ==> x <= g.current + g.step)
    && (g.percent > 0.0 && g.current > 0.0 ==> WithinPercent(g, x))
  }

  predicate WithinPercent(g: Guard, x: real) { 100.0 * x <= g.current * (100.0 + g.percent) }

  /** A blocked decision keeps the current value. A granted one scales down to what
      is asked for and the maximum allows, or up to the highest permitted value. */
  lemma GuardrailsExactly(g: Guard)
    ensures var (safe, reason) := ApplyGuardrails(g);
            var up := g.desired > g.current && g.maxReplicas as real > g.current;
            && (reason == "cluster_unhealthy" <==> !g.healthy)
            && (reason == "capacity_unavailable" <==> g.healthy && !g.capacity)
            && (reason == "rate_limited" <==> g.healthy && g.capacity && up)
            && (!g.healthy || !g.capacity ==> safe == g.current)
            && (g.healthy && g.capacity && !up ==> safe == MinReal(g.desired, g.maxReplicas as real))
            && (g.healthy && g.capacity && up ==> Permitted(g, safe) && forall x :: Permitted(g, x) ==> x <= safe)
  {
    hide Times, PercentLimit, WithinPercent;
    forall x: real ensures WithinPercent(g, x) <==> x <= PercentLimit(g) {
      PercentLimitIs(g, x);
    }
    if g.percent > 0.0 && g.current > 0.0 { AboveCurrent(g); }
  }

  lemma PercentLimitIs(g: Guard, x: real)
    ensures WithinPercent(g, x) <==> x <= PercentLimit(g)
  {
    assert 100.0 * Times(g.current, 1.0 + g.percent / 100.0) == g.current * (100.0 + g.percent);
  }

  lemma AboveCurrent(g: Guard)
    requires g.percent > 0.0 && g.current > 0.0
    ensures PercentLimit(g) > g.current
  {
    TimesGrows(g.current, 1.0 + g.percent / 100.0);
  }

  /** A blocked decision changes nothing; any other lies between the current
      value and what was asked for, on whichever side that is, under the replica
      maximum and, when scaling up, within one step and one percentage. */
  lemma GuardrailsHold(g: Guard)
    ensures var safe := ApplyGuardrails(g).0;
            && (!g.healthy || !g.capacity ==> safe == g.current)
            && (g.healthy && g.capacity ==> safe <= g.desired && safe <= g.maxReplicas as real)
            && (safe < g.current ==> g.healthy && g.capacity && safe == MinReal(g.desired, g.maxReplicas as real))
            && (safe > g.current && g.step > 0.0 ==> safe <= g.current + g.step)
            && (safe > g.current > 0.0 && g.percent > 0.0 ==> safe <= PercentLimit(g))
  {
    hide Times;
    if g.current > 0.0 && g.percent > 0.0 { TimesGrows(g.current, 1.0 + g.percent / 100.0); }
  }

  /** Asking for more never yields less. */
  lemma GuardrailsAreMonotone(g: Guard, more: real)
    requires g.desired <= more
    ensures ApplyGuardrails(g).0 <= ApplyGuardrails(g.(desired := more)).0
  {
    hide Times;
    if g.current > 0.0 && g.percent > 0.0 { TimesGrows(g.current, 1.0 + g.percent / 100.0); }
  }
}
