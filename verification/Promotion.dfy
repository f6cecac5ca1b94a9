/** The promotion gate and the decisions of internal/training/evaluation.go:
    which artifact an evaluation targets, which reference it must beat, and the
    report it hands to storage. */
module Promotion {
  import opened RealArithmetic
  import opened Wrappers
  import opened Observations
  import opened Scoring
  import opened Comparison

  /** Identifiers, fingerprints and revisions are opaque; None is "". */
  type Id = nat

  datatype Version = Unversioned | ArtifactComparisonV1 | OtherVersion

  datatype Contract = Contract(version: Version, policyRevision: Id, horizonSeconds: int, samplingSeconds: int,
                               seasonalSeconds: int, quantile: real, timezone: Id)

  datatype Mode = Automatic | Shadow | UnknownMode

  datatype Policy = Policy(mode: Mode, window: Duration, minDuration: Duration, minWindows: int, maxWindows: int,
                           coverageTolerance: real, minimumImprovement: real, maxRelativeUnderprediction: real,
                           rollback: bool)

  datatype Action = NoAction | Withheld | Promote | ShadowPromote | Rejected | Revalidated | Degraded | Rollback
    | ShadowRollback

  datatype Reason =
    | NoReason | IncompatibleContract | InvalidTrainingBoundary | CandidateExpired | InvalidArtifact
    | InvalidRollbackArtifact | InvalidContractReason | StaleSource | InsufficientEvidence | EvaluationNotCurrent
    | InvalidPolicy | CandidateSafetyGateFailed | IncomparableReference | UnderpredictionRegression
    | SafeBaselineEquivalent | InsufficientLossImprovement | PairedEvaluationPassed
    | ActiveRevalidationPassed | ActiveRevalidationFailed

  datatype Decision = Decision(promote: bool, reason: Reason)

  const NO_EVIDENCE := Evidence(0, 0, "", 0, map[])

  datatype Report = Report(version: Version, at: int, action: Action, reason: Reason, expectedActive: Option<Id>,
                           previous: Option<Id>, contract: Contract, policy: Policy, evidence: Evidence,
                           decision: Decision)

  datatype Status = CandidateModel | ActiveModel | RetiredModel

  /** A stored model as an evaluation reads it. */
  datatype Snapshot = Snapshot(id: Id, engine: Id, status: Status, trainedUntil: int, createdAt: int, activatedAt: int,
                               contract: Contract, report: Report)

  /** The workload contract an evaluation is started with. */
  datatype Workload = Workload(id: Id, policyRevision: Id, fingerprint: Id, engine: Id, horizon: Duration,
                               sampling: Duration, trainingWindow: Duration, quantile: real, timezone: Id,
                               threshold: real)

  predicate ValidPolicy(p: Policy) {
    && (p.mode == Automatic || p.mode == Shadow) && p.minDuration > 0 && p.window >= p.minDuration
    && p.minWindows >= 2 && p.minWindows <= p.maxWindows <= 4096
    && 0.0 <= p.coverageTolerance < 0.5 && 0.0 <= p.minimumImprovement < 1.0
    && 0.0 < p.maxRelativeUnderprediction <= 1.0
  }

  // ----- the acceptance gates

  const TOLERANCE: real := 0.000000001

  predicate SafeMetrics(p: Policy, q: real, m: Metrics) {
    && ValidMetrics(m) && m.windows >= p.minWindows && m.coverage >= q - p.coverageTolerance
    && m.meanUnderprediction >= 0.0
    && 0.0 <= m.maxRelativeUnderprediction <= p.maxRelativeUnderprediction
    && m.peakMeanUnderprediction >= 0.0 && m.excessReplicaMinutes >= 0.0
  }

  predicate CanRevalidate(p: Policy, q: real, active: Metrics, baseline: Metrics) {
    && ValidPolicy(p) && 0.0 < q < 1.0 && SafeMetrics(p, q, active) && ValidMetrics(baseline)
    && baseline.windows == active.windows && active.pinballLoss <= baseline.pinballLoss * 1.1 + 0.000000001
  }

  predicate Regresses(candidate: Metrics, reference: Metrics) {
    || candidate.meanUnderprediction > reference.meanUnderprediction + 0.000000001
    || candidate.peakMeanUnderprediction > reference.peakMeanUnderprediction + 0.000000001
    || candidate.underpredictionRate > reference.underpredictionRate + 0.000000001
  }

  /** EvaluateArtifactPromotion. */
  function Gate(p: Policy, q: real, candidate: Metrics, champion: Option<Metrics>, baseline: Metrics): Decision {
    if !ValidPolicy(p) || q <= 0.0 || q >= 1.0 then Decision(false, InvalidPolicy)
    else if !SafeMetrics(p, q, candidate) then Decision(false, CandidateSafetyGateFailed)
    else
      var reference := if champion.Some? then champion.value else baseline;
      if !ValidMetrics(reference) || reference.windows != candidate.windows then Decision(false, IncomparableReference)
      else if Regresses(candidate, reference) then Decision(false, UnderpredictionRegression)
      else if champion.None? && candidate.pinballLoss <= 0.000000001 && reference.pinballLoss <= 0.000000001
      then Decision(true, SafeBaselineEquivalent)
      else if candidate.pinballLoss >= reference.pinballLoss * (1.0 - p.minimumImprovement) - 0.000000001
      then Decision(false, InsufficientLossImprovement)
      else Decision(true, PairedEvaluationPassed)
  }

  // ----- what the gates ask of the scores

  /** A policy that can be evaluated: what Validate asks of its fields. */
  ghost predicate Usable(p: Policy) {
    && p.mode != UnknownMode && 0 < p.minDuration <= p.window && 2 <= p.minWindows <= p.maxWindows <= 4096
    && 0.0 <= p.coverageTolerance < 0.5 && 0.0 <= p.minimumImprovement < 1.0
    && 0.0 < p.maxRelativeUnderprediction <= 1.0
  }

  /** Rates that add up to one over at least one window, and errors. */
  ghost predicate WellFormed(m: Metrics) {
    && m.windows >= 1 && 0.0 <= m.coverage <= 1.0 && 0.0 <= m.underpredictionRate <= 1.0
    && 1.0 - TOLERANCE < m.coverage + m.underpredictionRate < 1.0 + TOLERANCE
    && 0.0 <= m.meanAbsoluteError && 0.0 <= m.pinballLoss
  }

  /** Enough windows, covered as often as the quantile asks but for the tolerance,
      and no forecast too far below what was observed. */
  ghost predicate Acceptable(p: Policy, q: real, m: Metrics) {
    && WellFormed(m) && p.minWindows <= m.windows && q <= m.coverage + p.coverageTolerance
    && 0.0 <= m.meanUnderprediction && 0.0 <= m.peakMeanUnderprediction && 0.0 <= m.excessReplicaMinutes
    && 0.0 <= m.maxRelativeUnderprediction <= p.maxRelativeUnderprediction
  }

  /** It underpredicts no more: not in the mean, not at the peaks, not more often. */
  ghost predicate NoWorse(m: Metrics, reference: Metrics) {
    && m.meanUnderprediction <= reference.meanUnderprediction + TOLERANCE
    && m.peakMeanUnderprediction <= reference.peakMeanUnderprediction + TOLERANCE
    && m.underpredictionRate <= reference.underpredictionRate + TOLERANCE
  }

  /** Its loss is lower by more than the asked share. */
  ghost predicate Improves(improvement: real, m: Metrics, reference: Metrics) {
    m.pinballLoss < reference.pinballLoss * (1.0 - improvement) - TOLERANCE
  }

  ghost predicate BothPerfect(m: Metrics, reference: Metrics) {
    m.pinballLoss <= TOLERANCE && reference.pinballLoss <= TOLERANCE
  }

  /** Scores that earn a model the place of its reference. Without a champion the
      reference is the baseline, and being as perfect as that is enough. */
  ghost predicate Outperforms(p: Policy, q: real, improvement: real, m: Metrics, reference: Metrics, champion: bool) {
    && Acceptable(p, q, m) && WellFormed(reference) && reference.windows == m.windows && NoWorse(m, reference)
    && (Improves(improvement, m, reference) || (!champion && BothPerfect(m, reference)))
  }

  lemma UsableExactly(p: Policy)
    ensures ValidPolicy(p) <==> Usable(p)
  {
  }

  lemma WellFormedExactly(m: Metrics)
    ensures ValidMetrics(m) <==> WellFormed(m)
  {
  }

  lemma AcceptableExactly(p: Policy, q: real, m: Metrics)
    ensures SafeMetrics(p, q, m) <==> Acceptable(p, q, m)
  {
    hide ValidMetrics, WellFormed;
    WellFormedExactly(m);
  }

  /** The gate promotes exactly the models whose scores earn it, and its reason
      tells the first thing that is missing. */
  lemma GatePromotesExactly(p: Policy, q: real, candidate: Metrics, champion: Option<Metrics>, baseline: Metrics)
    ensures var d, reference := Gate(p, q, candidate, champion, baseline),
              if champion.Some? then champion.value else baseline;
            var asked := Usable(p) && 0.0 < q < 1.0;
            var safe := asked && Acceptable(p, q, candidate);
            var paired := safe && WellFormed(reference) && reference.windows == candidate.windows;
            && (d.promote <==> asked && Outperforms(p, q, p.minimumImprovement, candidate, reference, champion.Some?))
            && (d.reason == InvalidPolicy <==> !asked)
            && (d.reason == CandidateSafetyGateFailed <==> asked && !safe)
            && (d.reason == IncomparableReference <==> safe && !paired)
            && (d.reason == UnderpredictionRegression <==> paired && !NoWorse(candidate, reference))
            && (d.reason == InsufficientLossImprovement <==> paired && NoWorse(candidate, reference) && !d.promote)
            && (d.reason == SafeBaselineEquivalent <==>
                paired && NoWorse(candidate, reference) && champion.None? && BothPerfect(candidate, reference))
            && (d.reason == PairedEvaluationPassed <==> d.promote && d.reason != SafeBaselineEquivalent)
  {
    hide Usable, Acceptable, WellFormed, SafeMetrics, ValidMetrics, ValidPolicy;
    UsableExactly(p);
    AcceptableExactly(p, q, candidate);
    WellFormedExactly(if champion.Some? then champion.value else baseline);
  }

  /** A champion stays certified exactly while its scores are acceptable and its
      loss exceeds the baseline's by no more than a tenth. */
  lemma RevalidatesExactly(p: Policy, q: real, active: Metrics, baseline: Metrics)
    ensures CanRevalidate(p, q, active, baseline) <==>
            && Usable(p) && 0.0 < q < 1.0 && Acceptable(p, q, active) && WellFormed(baseline)
            && active.windows == baseline.windows
              && 10.0 * (active.pinballLoss - TOLERANCE) <= 11.0 * baseline.pinballLoss
  {
    hide Usable, Acceptable, WellFormed, SafeMetrics, ValidMetrics, ValidPolicy;
    UsableExactly(p);
    AcceptableExactly(p, q, active);
    WellFormedExactly(baseline);
  }

  /** b's scores are at least as good as a's, over as many windows. */
  ghost predicate AtLeastAsGood(b: Metrics, a: Metrics) {
    && b.windows == a.windows && a.coverage <= b.coverage && b.underpredictionRate <= a.underpredictionRate
    && b.pinballLoss <= a.pinballLoss && b.meanUnderprediction <= a.meanUnderprediction
    && b.peakMeanUnderprediction <= a.peakMeanUnderprediction
    && b.maxRelativeUnderprediction <= a.maxRelativeUnderprediction
  }

  /** Scores of no more than they measure. */
  ghost predicate NonNegative(m: Metrics) {
    0.0 <= m.meanUnderprediction && 0.0 <= m.peakMeanUnderprediction && 0.0 <= m.maxRelativeUnderprediction
    && 0.0 <= m.excessReplicaMinutes
  }

  /** Better scores never cost a promotion, nor do worse ones of the reference. */
  lemma GateIsMonotone(p: Policy, q: real, a: Metrics, b: Metrics, champion: Option<Metrics>, baseline: Metrics,
                       worse: Metrics)
    requires Gate(p, q, a, champion, baseline).promote
    requires AtLeastAsGood(b, a) && WellFormed(b) && NonNegative(b)
    requires champion.Some? ==> AtLeastAsGood(champion.value, worse) && WellFormed(worse)
    ensures Gate(p, q, b, if champion.Some? then Some(worse) else None, baseline).promote
  {
    hide Gate, Outperforms;
    var reference := if champion.Some? then champion.value else baseline;
    GatePromotesExactly(p, q, a, champion, baseline);
    GatePromotesExactly(p, q, b, if champion.Some? then Some(worse) else None, baseline);
    StillOutperforms(p, q, a, b, reference, if champion.Some? then worse else baseline, champion.Some?);
  }

  lemma StillOutperforms(p: Policy, q: real, a: Metrics, b: Metrics, reference: Metrics, worse: Metrics, champion: bool)
    requires Usable(p) && Outperforms(p, q, p.minimumImprovement, a, reference, champion)
    requires AtLeastAsGood(b, a) && WellFormed(b) && NonNegative(b)
    requires WellFormed(worse) && if champion then AtLeastAsGood(reference, worse) else worse == reference
    ensures Outperforms(p, q, p.minimumImprovement, b, worse, champion)
  {
    hide Improves;
    if Improves(p.minimumImprovement, a, reference) {
      StillImproves(p.minimumImprovement, a, b, reference, worse);
    }
  }

  lemma StillImproves(improvement: real, a: Metrics, b: Metrics, reference: Metrics, worse: Metrics)
    requires 0.0 <= improvement < 1.0 && Improves(improvement, a, reference)
    requires b.pinballLoss <= a.pinballLoss && reference.pinballLoss <= worse.pinballLoss
    ensures Improves(improvement, b, worse)
  {
    OrderKept(reference.pinballLoss, worse.pinballLoss, 1.0 - improvement);
  }

  lemma OrderKept(x: real, y: real, k: real)
    requires x <= y && k >= 0.0
    ensures x * k <= y * k
  {
    assert (y - x) * k >= 0.0;
    assert (y - x) * k == y * k - x * k;
  }

  lemma Shrinks(x: real, k: real)
    requires x >= 0.0 && 0.0 <= k < 1.0
    ensures x * (1.0 - k) <= x
  {
    assert x * k >= 0.0;
    assert x * (1.0 - k) == x - x * k;
  }

  /** A champion is only ever replaced by an artifact with strictly smaller
      loss, so two artifacts can never each be promoted over the other on the
      same evidence. */
  lemma ReplacementImproves(p: Policy, q: real, candidate: Metrics, champion: Metrics, baseline: Metrics)
    requires Gate(p, q, candidate, Some(champion), baseline).promote
    ensures candidate.pinballLoss < champion.pinballLoss
    ensures NoWorse(candidate, champion)
    ensures forall p', q' :: !Gate(p', q', champion, Some(candidate), baseline).promote
  {
    Shrinks(champion.pinballLoss, p.minimumImprovement);
    forall p', q' ensures !Gate(p', q', champion, Some(candidate), baseline).promote {
      if Gate(p', q', champion, Some(candidate), baseline).promote {
        Shrinks(candidate.pinballLoss, p'.minimumImprovement);
        assert false;
      }
    }
  }

  /** Scores that come from one comparison are always comparable. */
  lemma ComparedScoresAreComparable(p: Policy, q: real, c: Scale, windows: nat, candidate: Metrics,
                                    champion: Option<Metrics>, baseline: Metrics)
    requires ScoreLaws(c, candidate, windows) && ScoreLaws(c, baseline, windows)
    requires champion.Some? ==> ScoreLaws(c, champion.value, windows)
    ensures Gate(p, q, candidate, champion, baseline).reason != IncomparableReference
  {
    hide ScoreLaws;
    ScoresAreValid(c, candidate, windows);
    ScoresAreValid(c, baseline, windows);
    if champion.Some? { ScoresAreValid(c, champion.value, windows); }
    SameWindows(c, windows, candidate, champion, baseline);
  }

  lemma SameWindows(c: Scale, windows: nat, candidate: Metrics, champion: Option<Metrics>, baseline: Metrics)
    requires ScoreLaws(c, candidate, windows) && ScoreLaws(c, baseline, windows)
    requires champion.Some? ==> ScoreLaws(c, champion.value, windows)
    ensures candidate.windows == baseline.windows
    ensures champion.Some? ==> champion.value.windows == candidate.windows
  {
  }

  // ----- current evidence

  function MetricsOf(e: Evidence, role: Role): Metrics {
    if role in e.metrics then e.metrics[role] else NO_METRICS
  }

  function ChampionOf(e: Evidence): Option<Metrics> {
    if Champion in e.metrics then Some(e.metrics[Champion]) else None
  }

  /** In this evidence the model in a role earns the place of the one in another. */
  ghost predicate Earns(p: Policy, q: real, improvement: real, e: Evidence, role: Role, reference: Role) {
    && role in e.metrics && reference in e.metrics
    && Outperforms(p, q, improvement, e.metrics[role], e.metrics[reference], reference != Baseline)
  }

  /** The scores certify that the champion, scored as the candidate, may serve on. */
  ghost predicate Certified(p: Policy, q: real, e: Evidence) {
    && Candidate in e.metrics && Baseline in e.metrics && 0.0 < q < 1.0
    && Acceptable(p, q, e.metrics[Candidate]) && WellFormed(e.metrics[Baseline])
    && e.metrics[Baseline].windows == e.metrics[Candidate].windows
    && 10.0 * (e.metrics[Candidate].pinballLoss - TOLERANCE) <= 11.0 * e.metrics[Baseline].pinballLoss
  }

  lemma NoScores()
    ensures !WellFormed(NO_METRICS) && forall p, q :: !Acceptable(p, q, NO_METRICS)
  {
  }

  /** The report's evidence is complete, long enough, and no older than a horizon
      and three sampling intervals when the report was made. */
  ghost predicate Current(r: Report) {
    var e := r.evidence;
    && r.version == ArtifactComparisonV1 && r.contract.horizonSeconds >= 1 && r.contract.samplingSeconds >= 1
    && e.fingerprint != "" && e.start + r.policy.minDuration <= e.end <= r.at
    && r.at <= e.end + r.contract.horizonSeconds * SECOND + r.contract.samplingSeconds * (3 * SECOND)
  }

  /** A report is used up to ten minutes later, or a minute ahead of its clock. */
  ghost predicate Punctual(at: int, now: int) { at - MINUTE <= now <= at + 10 * MINUTE }

  lemma FreshExactly(r: Report, now: int)
    ensures Fresh(r, now) <==> Usable(r.policy) && Current(r) && Punctual(r.at, now)
  {
    hide ValidPolicy, Usable;
    UsableExactly(r.policy);
  }

  /** FreshEvaluationEvidence. */
  predicate Fresh(r: Report, now: int) {
    && ValidPolicy(r.policy) && r.version == ArtifactComparisonV1
    && r.contract.horizonSeconds > 0 && r.contract.samplingSeconds > 0
    && r.evidence.fingerprint != ""
    && r.evidence.end <= r.at && r.evidence.end - r.evidence.start >= r.policy.minDuration
    && r.at - r.evidence.end <= (r.contract.horizonSeconds + 3 * r.contract.samplingSeconds) * SECOND
    && now - 10 * MINUTE <= r.at <= now + MINUTE
  }

  // ----- what an evaluation reads

  datatype Versions = Versions(active: Option<Snapshot>, candidate: Option<Snapshot>, previous: Option<Snapshot>)

  function ContractFor(w: Workload, period: Duration): Contract {
    Contract(ArtifactComparisonV1, w.policyRevision, Quotient(w.horizon, SECOND), Quotient(w.sampling, SECOND),
             Quotient(period, SECOND), w.quantile, w.timezone)
  }

  /** Go's integer division truncates toward zero. */
  function Quotient(a: int, b: int): int
    requires b > 0
  {
    if a >= 0 then a / b else -((-a) / b)
  }

  predicate Comparable(a: Contract, b: Contract) {
    a.(policyRevision := 0) == b.(policyRevision := 0)
  }

  /** The candidate an evaluation considers: newer than the champion, and not
      evaluated more recently than it, so that both get their turn. */
  function ConsideredCandidate(v: Versions): Option<Snapshot> {
    if v.candidate.None? then None
    else if v.active.Some? && (v.candidate.value.createdAt <= v.active.value.createdAt ||
                               v.candidate.value.report.at > v.active.value.report.at) then None
    else v.candidate
  }

  function ExpectedActive(v: Versions): Option<Id> {
    if v.active.Some? then Some(v.active.value.id) else None
  }

  datatype Plan =
    | Nothing
    | Stop(target: Snapshot, reason: Reason)
    | Compare(target: Snapshot, champion: bool, rollback: bool, after: int)

  predicate LegacyActive(t: Snapshot, w: Workload) {
    t.status == ActiveModel && t.contract.version == Unversioned && t.engine == w.engine
  }

  /** The guards before any evidence is gathered, in the order they are tried. */
  function MakePlan(p: Policy, w: Workload, period: Duration, v: Versions, now: int, loads: Id -> bool): Plan {
    var candidate, contract := ConsideredCandidate(v), ContractFor(w, period);
    var chosen := if candidate.Some? then candidate else v.active;
    if chosen.None? then Nothing
    else
      var t := chosen.value;
      if t.contract != contract && !LegacyActive(t, w) then Stop(t, IncompatibleContract)
      else if t.trainedUntil == 0 || t.trainedUntil > now then Stop(t, InvalidTrainingBoundary)
      else if candidate.Some? && now - t.createdAt > Max(72 * HOUR, p.window + p.minDuration)
        then Stop(t, CandidateExpired)
      else if !loads(t.id) then Stop(t, InvalidArtifact)
      else
        var champion := candidate.Some? && v.active.Some? && PairsWith(v.active.value, t, contract)
          && loads(v.active.value.id);
        var rollback := RollbackEligible(p, v, contract);
        if rollback && !loads(v.previous.value.id) then Stop(t, InvalidRollbackArtifact)
        else
          var after := Max(AfterFits(t, v, champion, rollback), now - p.window);
          if w.sampling <= 0 then Stop(t, InvalidContractReason)
          else Compare(t, champion, rollback, after)
  }

  predicate PairsWith(active: Snapshot, t: Snapshot, contract: Contract) {
    active.engine == t.engine && (active.contract.version == Unversioned || Comparable(active.contract, contract))
  }

  predicate RollbackEligible(p: Policy, v: Versions, contract: Contract) {
    && ConsideredCandidate(v).None? && v.active.Some? && p.rollback && v.previous.Some?
    && v.active.value.report.previous == Some(v.previous.value.id)
    && v.previous.value.contract == contract
  }

  /** Evidence must postdate every fit it judges, and an activation it may undo. */
  function AfterFits(t: Snapshot, v: Versions, champion: bool, rollback: bool): int
    requires champion ==> v.active.Some?
    requires rollback ==> v.active.Some? && v.previous.Some?
  {
    var a := if champion then Max(t.trainedUntil, v.active.value.trainedUntil) else t.trainedUntil;
    if rollback then Max(Max(a, v.previous.value.trainedUntil), v.active.value.activatedAt) else a
  }

  function Roles(plan: Plan): set<Role>
    requires plan.Compare?
  {
    {Baseline, Candidate} + (if plan.champion then {Champion} else {}) + (if plan.rollback then {Previous} else {})
  }

  /** How gathering the evidence ended. */
  datatype Outcome = Stale | BadTimezone | Unscored | Scored(evidence: Evidence)

  datatype Submission = Submission(target: Snapshot, report: Report)

  function BaseReport(p: Policy, w: Workload, period: Duration, v: Versions, now: int): Report {
    Report(ArtifactComparisonV1, now, Withheld, NoReason, ExpectedActive(v), None, ContractFor(w, period), p,
           NO_EVIDENCE, Decision(false, NoReason))
  }

  function RollbackPolicy(p: Policy): Policy {
    p.(minimumImprovement := MaxReal(0.1, p.minimumImprovement))
  }

  function ActiveDecision(passed: bool): Decision {
    Decision(false, if passed then ActiveRevalidationPassed else ActiveRevalidationFailed)
  }

  /** The report on a considered candidate. */
  function JudgeCandidate(p: Policy, base: Report, t: Snapshot, v: Versions): Submission {
    var e := base.evidence;
    var d := Gate(p, base.contract.quantile, MetricsOf(e, Candidate), ChampionOf(e), MetricsOf(e, Baseline));
    if !d.promote then Submission(t, base.(decision := d, action := Rejected, reason := d.reason))
    else Submission(t, base.(decision := d, action := if p.mode == Shadow then ShadowPromote else Promote,
                             previous := ExpectedActive(v), reason := d.reason))
  }

  /** The report on the champion: revalidation, degradation or rollback. */
  function JudgeActive(p: Policy, base: Report, v: Versions, rollback: bool): Submission
    requires v.active.Some? && (rollback ==> v.previous.Some?)
  {
    var e, active := base.evidence, v.active.value;
    var current := MetricsOf(e, Candidate);
    if CanRevalidate(p, base.contract.quantile, current, MetricsOf(e, Baseline)) then
      Submission(active, base.(action := Revalidated, previous := active.report.previous,
                               decision := ActiveDecision(true), reason := ActiveRevalidationPassed))
    else
      var d := Gate(RollbackPolicy(p), base.contract.quantile, MetricsOf(e, Previous), Some(current),
                    MetricsOf(e, Baseline));
      if !rollback then
        Submission(active, base.(action := Degraded, previous := active.report.previous,
                                 decision := ActiveDecision(false), reason := ActiveRevalidationFailed))
      else if !d.promote then
        Submission(active, base.(action := Degraded, previous := active.report.previous, decision := d,
                                 reason := d.reason))
      else
        Submission(v.previous.value, base.(action := if p.mode == Shadow then ShadowRollback else Rollback,
                                           previous := Some(active.id), decision := d, reason := d.reason))
  }

  /** What Evaluate hands to storage; None when there is nothing to evaluate. */
  function Judge(p: Policy, w: Workload, period: Duration, v: Versions, now: int, loads: Id -> bool,
                 outcome: Outcome): Option<Submission> {
    var plan, base := MakePlan(p, w, period, v, now, loads), BaseReport(p, w, period, v, now);
    match plan
    case Nothing => None
    case Stop(t, reason) => Some(Submission(t, base.(reason := reason)))
    case Compare(t, champion, rollback, after) =>
      match outcome
      case Stale => Some(Submission(t, base.(reason := StaleSource)))
      case BadTimezone => Some(Submission(t, base.(reason := InvalidContractReason)))
      case Unscored => Some(Submission(t, base.(reason := InsufficientEvidence)))
      case Scored(e) =>
        var scored := base.(evidence := e);
        if !Fresh(scored, now) then Some(Submission(t, scored.(reason := EvaluationNotCurrent)))
        else if ConsideredCandidate(v).Some? then Some(JudgeCandidate(p, scored, t, v))
        else Some(JudgeActive(p, scored, v, rollback))
  }

  // ----- what the scores decide

  /** The action of a report on the versions and the model it is stored on, by the
      scores in its evidence. */
  ghost predicate DecidedByScores(s: Submission, v: Versions, t: Snapshot, rollback: bool) {
    var r := s.report;
    var p, q, e := r.policy, r.contract.quantile, r.evidence;
    if !Current(r) then r.action == Withheld && r.reason == EvaluationNotCurrent && s.target == t
    else if ConsideredCandidate(v).Some? then
      var reference := if Champion in e.metrics then Champion else Baseline;
      && s.target == t
      && if 0.0 < q < 1.0 && Earns(p, q, p.minimumImprovement, e, Candidate, reference)
         then r.action == (if p.mode == Shadow then ShadowPromote else Promote) && r.previous == ExpectedActive(v)
         else r.action == Rejected && r.previous == None
    else if Certified(p, q, e) then r.action == Revalidated && Some(s.target) == v.active
    else if rollback && 0.0 < q < 1.0 && Earns(p, q, MaxReal(0.1, p.minimumImprovement), e, Previous, Candidate) then
      && r.action == (if p.mode == Shadow then ShadowRollback else Rollback) && r.previous == ExpectedActive(v)
      && Some(s.target) == v.previous
    else r.action == Degraded && Some(s.target) == v.active
  }

  lemma CandidateByScores(base: Report, t: Snapshot, v: Versions, rollback: bool)
    requires Usable(base.policy) && Current(base) && ConsideredCandidate(v).Some?
    requires base.previous.None? && base.expectedActive == ExpectedActive(v)
    ensures DecidedByScores(JudgeCandidate(base.policy, base, t, v), v, t, rollback)
    ensures JudgeCandidate(base.policy, base, t, v).report.evidence == base.evidence
  {
    hide Gate, Outperforms, WellFormed, Acceptable, Usable;
    var p, e := base.policy, base.evidence;
    NoScores();
    NoneOutperforms(p, base.contract.quantile, p.minimumImprovement);
    GatePromotesExactly(p, base.contract.quantile, MetricsOf(e, Candidate), ChampionOf(e), MetricsOf(e, Baseline));
  }

  lemma NoneOutperforms(p: Policy, q: real, improvement: real)
    ensures forall m, champion :: !Outperforms(p, q, improvement, m, NO_METRICS, champion)
    ensures forall m, champion :: !Outperforms(p, q, improvement, NO_METRICS, m, champion)
  {
  }

  lemma ActiveByScores(base: Report, t: Snapshot, v: Versions, rollback: bool)
    requires Usable(base.policy) && Current(base) && ConsideredCandidate(v).None?
    requires v.active.Some? && (rollback ==> v.previous.Some?)
    requires base.previous.None? && base.expectedActive == ExpectedActive(v)
    ensures DecidedByScores(JudgeActive(base.policy, base, v, rollback), v, t, rollback)
    ensures JudgeActive(base.policy, base, v, rollback).report.evidence == base.evidence
  {
    hide Gate, CanRevalidate, Outperforms, WellFormed, Acceptable, Usable;
    var p, q, e := base.policy, base.contract.quantile, base.evidence;
    NoScores();
    NoneOutperforms(p, q, MaxReal(0.1, p.minimumImprovement));
    RevalidatesExactly(p, q, MetricsOf(e, Candidate), MetricsOf(e, Baseline));
    RollbackByScores(p, q, MetricsOf(e, Previous), MetricsOf(e, Candidate), MetricsOf(e, Baseline));
  }

  lemma RollbackByScores(p: Policy, q: real, previous: Metrics, current: Metrics, baseline: Metrics)
    requires Usable(p)
    ensures Gate(RollbackPolicy(p), q, previous, Some(current), baseline).promote <==>
            0.0 < q < 1.0 && Outperforms(p, q, MaxReal(0.1, p.minimumImprovement), previous, current, true)
  {
    hide Gate;
    GatePromotesExactly(RollbackPolicy(p), q, previous, Some(current), baseline);
  }

  /** Once evidence was gathered, the report's action follows from its scores. */
  lemma ScoresDecide(p: Policy, w: Workload, period: Duration, v: Versions, now: int, loads: Id -> bool, e: Evidence)
    requires ValidPolicy(p) && MakePlan(p, w, period, v, now, loads).Compare?
    ensures var s := Judge(p, w, period, v, now, loads, Scored(e));
            && s.Some? && s.value.report.evidence == e
            && var plan := MakePlan(p, w, period, v, now, loads);
               DecidedByScores(s.value, v, plan.target, plan.rollback)
  {
    hide JudgeCandidate, JudgeActive, Fresh, DecidedByScores, ContractFor, ValidPolicy, Usable, Current, MakePlan;
    var plan, scored := MakePlan(p, w, period, v, now, loads), BaseReport(p, w, period, v, now).(evidence := e);
    FreshExactly(scored, now);
    UsableExactly(p);
    PlannedVersions(p, w, period, v, now, loads);
    if !Current(scored) {
      NotCurrent(scored.(reason := EvaluationNotCurrent), v, plan.target, plan.rollback);
    } else if ConsideredCandidate(v).Some? {
      CandidateByScores(scored, plan.target, v, plan.rollback);
    } else {
      ActiveByScores(scored, plan.target, v, plan.rollback);
    }
  }

  lemma NotCurrent(r: Report, v: Versions, t: Snapshot, rollback: bool)
    requires !Current(r.(reason := NoReason)) && r.action == Withheld && r.reason == EvaluationNotCurrent
    ensures DecidedByScores(Submission(t, r), v, t, rollback)
  {
  }

  lemma PlannedVersions(p: Policy, w: Workload, period: Duration, v: Versions, now: int, loads: Id -> bool)
    requires MakePlan(p, w, period, v, now, loads).Compare?
    ensures ConsideredCandidate(v).None? ==> v.active.Some?
    ensures MakePlan(p, w, period, v, now, loads).rollback ==> v.previous.Some?
  {
  }
}
