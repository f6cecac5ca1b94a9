/** EvaluationService.Evaluate of internal/training/evaluation.go, step by step:
    it selects the versions, loads artifacts, gathers evidence with
    CompareArtifacts and hands its report to the repository. */
module EvaluationService {
  import opened RealArithmetic
  import opened Wrappers
  import opened Observations
  import opened Scoring
  import opened Comparison
  import opened Promotion
  import opened PromotionStore
  import opened PromotionAgreement

  /** The last version of each status, as the switch over the rows keeps them. */
  function VersionsOf(rows: seq<Snapshot>): Versions {
    if rows == [] then Versions(None, None, None)
    else
      var v, row := VersionsOf(rows[..|rows| - 1]), rows[|rows| - 1];
      match row.status
      case ActiveModel => v.(active := Some(row))
      case CandidateModel => v.(candidate := Some(row))
      case RetiredModel => v.(previous := Some(row))
  }

  /** What the service reads from outside: decoded artifacts (None when the
      checksum, the format or the quantile is wrong), the samples since a start
      time (None when the source fails), the timezone database, the digest. */
  datatype World = World(artifact: Id -> Option<Model>, baseline: Model, samples: int -> Option<seq<Sample>>,
                         timezoneKnown: bool, digest: seq<Sample> -> string)

  function Loads(world: World): Id -> bool { (id: Id) => world.artifact(id).Some? }

  function ArtifactOf(world: World, s: Option<Snapshot>): Model {
    if s.Some? && world.artifact(s.value.id).Some? then world.artifact(s.value.id).value else NilModel
  }

  /** The artifact that plays each role of a plan. */
  function PlannedModels(world: World, v: Versions, plan: Plan): (models: map<Role, Model>)
    requires plan.Compare?
    ensures models.Keys == Roles(plan)
  {
    map role | role in Roles(plan) ::
      match role
      case Baseline => world.baseline
      case Candidate => ArtifactOf(world, Some(plan.target))
      case Champion => ArtifactOf(world, v.active)
      case Previous => ArtifactOf(world, v.previous)
  }

  function RequestOf(w: Workload, period: Duration, contract: Contract): Request {
    Request(contract.horizonSeconds * SECOND, w.sampling, period, contract.quantile)
  }

  function OptionsOf(p: Policy, w: Workload, after: int): Options {
    Options(after, p.minDuration, p.minWindows, p.maxWindows, w.threshold, w.trainingWindow)
  }

  /** What the samples say about a plan; None when they cannot be read. The
      comparison may fail in any way but by dividing by zero. */
  ghost predicate IsGathered(p: Policy, w: Workload, period: Duration, world: World, models: map<Role, Model>,
                             after: int, now: int,
                             contract: Contract, outcome: Option<Outcome>) {
    var read := world.samples(after - Max(w.trainingWindow, 2 * period));
    if read.None? then outcome == None
    else if read.value == [] || now - read.value[|read.value| - 1].at > 3 * w.sampling
      || read.value[|read.value| - 1].at > now then outcome == Some(Stale)
    else if !world.timezoneKnown then outcome == Some(BadTimezone)
    else
      var r, o := RequestOf(w, period, contract), OptionsOf(p, w, after);
      outcome.Some? && match outcome.value
        case Unscored => exists f :: f != DivisionByZero && IsJustified(models, read.value, r, o, f)
        case Scored(e) => Compared(models, read.value, r, o, e)
        case _ => false
  }

  /** A valid policy asks for at least two windows. */
  lemma PolicyNeverDivides(p: Policy, w: Workload, after: int, models: map<Role, Model>, observed: seq<Sample>,
                           r: Request)
    requires ValidPolicy(p)
    ensures !IsJustified(models, observed, r, OptionsOf(p, w, after), DivisionByZero)
  {
    hide IsLongest, LargestBelow, BriefScan, Dedup;
  }

  ghost predicate Compared(models: map<Role, Model>, observed: seq<Sample>, r: Request, o: Options, e: Evidence) {
    exists history, cuts, cutoff :: IsComparison(models, observed, r, o, history, cuts, cutoff, e)
  }

  datatype Evaluated =
    | ConfigurationError | NotAcquired | NothingToEvaluate | SourceError
    | Submitted(submission: Submission, outcome: Outcome, refusal: Option<Refusal>)

  class Service {
    const store: ModelRepository
    const policy: Policy
    const period: Duration

    constructor (store: ModelRepository, policy: Policy, period: Duration)
      ensures this.store == store && this.policy == policy && this.period == period
    {
      this.store, this.policy, this.period := store, policy, period;
    }

    /** Gathers the evidence for a plan's models and cutoff. */
    method Gather(w: Workload, world: World, models: map<Role, Model>, after: int, now: int, contract: Contract,
                  ghost plan: Plan)
      returns (outcome: Option<Outcome>)
      requires ValidPolicy(policy) && plan.Compare? && plan.after == after && models.Keys == Roles(plan)
      ensures outcome.Some? && outcome.value.Scored? ==> Answers(outcome.value.evidence, plan, policy)
      ensures IsGathered(policy, w, period, world, models, after, now, contract, outcome)
      ensures outcome.None? <==> world.samples(after - Max(w.trainingWindow, 2 * period)).None?
    {
      hide Roles, IsComparison, IsJustified, Answers;
      var lookback := Max(w.trainingWindow, 2 * period);
      var read := world.samples(after - lookback);
      if read.None? { return None; }
      var observed := read.value;
      if observed == [] || now - observed[|observed| - 1].at > 3 * w.sampling || observed[|observed| - 1].at > now {
        return Some(Stale);
      }
      if !world.timezoneKnown { return Some(BadTimezone); }
      var request := Request(contract.horizonSeconds * SECOND, w.sampling, period, contract.quantile);
      var options := Options(after, policy.minDuration, policy.minWindows, policy.maxWindows, w.threshold,
                             w.trainingWindow);
      assert request == RequestOf(w, period, contract) && options == OptionsOf(policy, w, after);
      var compared := CompareArtifacts(models, observed, request, options, world.digest);
      PolicyNeverDivides(policy, w, after, models, observed, request);
      if compared.Err? { return Some(Unscored); }
      ghost var history, cuts, cutoff :| IsComparison(models, observed, request, options, history, cuts, cutoff,
                                                      compared.value);
      ComparisonAnswers(plan, policy, models, observed, request, options, history, cuts, cutoff, compared.value);
      outcome := Some(Scored(compared.value));
    }

    method Finish(w: Workload, target: Snapshot, report: Report, reason: Reason, outcome: Outcome, c: Clocks)
      returns (e: Evaluated)
      requires OneActive(store.Tables())
      modifies store
      ensures e.Submitted? && e.submission == Submission(target, report.(reason := reason)) && e.outcome == outcome
      ensures var result := Complete(old(store.Tables()), w, target, report.(reason := reason), c);
              e.refusal == (if result.Ok? then None else Some(result.error)) &&
              store.Tables() == (if result.Ok? then result.value else old(store.Tables()))
    {
      var refusal := store.CompleteEvaluation(w, target, report.(reason := reason), c);
      e := Submitted(Submission(target, report.(reason := reason)), outcome, refusal);
    }

    /** The decision from current evidence. */
    method Conclude(base: Report, chosen: Snapshot, v: Versions, rollbackEligible: bool) returns (s: Submission)
      requires base.policy == policy && base.expectedActive == ExpectedActive(v) && base.action == Withheld
               && base.previous.None?
      requires ConsideredCandidate(v).None? ==> v.active == Some(chosen)
      requires rollbackEligible ==> ConsideredCandidate(v).None? && v.previous.Some?
      ensures s == if ConsideredCandidate(v).Some? then JudgeCandidate(policy, base, chosen, v)
              else JudgeActive(policy, base, v, rollbackEligible)
    {
      hide Gate, CanRevalidate;
      var report, target, evidence, q := base, chosen, base.evidence, base.contract.quantile;
      if ConsideredCandidate(v).Some? {
        var champion := if Champion in evidence.metrics then Some(evidence.metrics[Champion]) else None;
        report := report.(decision := Gate(policy, q, MetricsOf(evidence, Candidate), champion,
                                           MetricsOf(evidence, Baseline)));
        if report.decision.promote {
          report := report.(action := Promote, previous := report.expectedActive);
          if policy.mode == Shadow { report := report.(action := ShadowPromote); }
        } else {
          report := report.(action := Rejected);
        }
      } else {
        report := report.(previous := chosen.report.previous);
        if CanRevalidate(policy, q, MetricsOf(evidence, Candidate), MetricsOf(evidence, Baseline)) {
          report := report.(action := Revalidated, decision := Decision(false, ActiveRevalidationPassed));
        } else {
          report := report.(action := Degraded, decision := Decision(false, ActiveRevalidationFailed));
        }
        if rollbackEligible && report.action == Degraded {
          var rollbackPolicy := policy.(minimumImprovement := MaxReal(0.1, policy.minimumImprovement));
          report := report.(decision := Gate(rollbackPolicy, q, MetricsOf(evidence, Previous),
                                             Some(MetricsOf(evidence, Candidate)),
                                             MetricsOf(evidence, Baseline)));
          if report.decision.promote {
            report := report.(action := Rollback, previous := Some(chosen.id));
            target := v.previous.value;
            if policy.mode == Shadow { report := report.(action := ShadowRollback); }
          }
        }
      }
      s := Submission(target, report.(reason := report.decision.reason));
    }

    /** A candidate that is not newer than the champion, or was evaluated more
        recently, is not considered. */
    method Consider(v: Versions) returns (candidate: Option<Snapshot>)
      ensures candidate == ConsideredCandidate(v)
    {
      var active := v.active;
      candidate := v.candidate;
      if active.Some? && candidate.Some? && candidate.value.createdAt <= active.value.createdAt { candidate := None; }
      if active.Some? && candidate.Some? && candidate.value.report.at > active.value.report.at { candidate := None; }
    }

    /** The guards before evidence is gathered, the artifacts to compare and the
        cutoff the evidence must respect. */
    method Prepare(w: Workload, world: World, v: Versions, now: int) returns (plan: Plan, models: map<Role, Model>)
      ensures plan == MakePlan(policy, w, period, v, now, Loads(world))
      ensures plan.Compare? ==> models == PlannedModels(world, v, plan)
    {
      hide ContractFor, ConsideredCandidate;
      models := map[];
      var active, previous := v.active, v.previous;
      var candidate := Consider(v);
      var target := if candidate.Some? then candidate else active;
      if target.None? { return Nothing, models; }
      var t, contract := target.value, ContractFor(w, period);
      var legacyActive := t.status == ActiveModel && t.contract.version == Unversioned && t.engine == w.engine;
      if t.contract != contract && !legacyActive { return Stop(t, IncompatibleContract), models; }
      if t.trainedUntil == 0 || t.trainedUntil > now { return Stop(t, InvalidTrainingBoundary), models; }
      if candidate.Some? && now - t.createdAt > Max(72 * HOUR, policy.window + policy.minDuration) {
        return Stop(t, CandidateExpired), models;
      }
      models := models[Baseline := world.baseline];
      if world.artifact(t.id).None? { return Stop(t, InvalidArtifact), models; }
      models := models[Candidate := world.artifact(t.id).value];
      var after := t.trainedUntil;
      var paired := false;
      if candidate.Some? && active.Some? && active.value.engine == t.engine
        && (active.value.contract.version == Unversioned
            || active.value.contract.(policyRevision := contract.policyRevision) == contract)
        && world.artifact(active.value.id).Some?
      {
        paired := true;
        models := models[Champion := world.artifact(active.value.id).value];
        if active.value.trainedUntil > after { after := active.value.trainedUntil; }
      }
      var rollbackEligible := candidate.None? && active.Some? && policy.rollback && previous.Some? &&
        active.value.report.previous == Some(previous.value.id) && previous.value.contract == contract;
      if rollbackEligible {
        if world.artifact(previous.value.id).None? { return Stop(t, InvalidRollbackArtifact), models; }
        models := models[Previous := world.artifact(previous.value.id).value];
        if previous.value.trainedUntil > after { after := previous.value.trainedUntil; }
        if active.value.activatedAt > after { after := active.value.activatedAt; }
      }
      if now - policy.window > after { after := now - policy.window; }
      if w.sampling <= 0 { return Stop(t, InvalidContractReason), models; }
      plan := Compare(t, paired, rollbackEligible, after);
      assert models == PlannedModels(world, v, plan);
    }

    /** The versions the rows amount to. */
    method Select(rows: seq<Snapshot>) returns (v: Versions)
      ensures v == VersionsOf(rows)
    {
      var active, candidate, previous: Option<Snapshot> := None, None, None;
      for i := 0 to |rows|
        invariant Versions(active, candidate, previous) == VersionsOf(rows[..i])
      {
        assert rows[..i + 1][..i] == rows[..i];
        match rows[i].status
        case ActiveModel => active := Some(rows[i]);
        case CandidateModel => candidate := Some(rows[i]);
        case RetiredModel => previous := Some(rows[i]);
      }
      assert rows[..|rows|] == rows;
      v := Versions(active, candidate, previous);
    }

    /** Evaluate. `acquired` says whether the per-workload lock was free. */
    method Evaluate(w: Workload, world: World, acquired: bool, rows: seq<Snapshot>, now: int, c: Clocks)
      returns (e: Evaluated)
      requires OneActive(store.Tables())
      modifies store
      ensures e == ConfigurationError <==> !ValidPolicy(policy) || period <= 0
      ensures ValidPolicy(policy) && period > 0 ==> (e == NotAcquired <==> !acquired)
      ensures ValidPolicy(policy) && period > 0 && acquired ==>
        (e == NothingToEvaluate <==> MakePlan(policy, w, period, VersionsOf(rows), now, Loads(world)) == Nothing)
      ensures e == SourceError <==>
        && ValidPolicy(policy) && period > 0 && acquired
        && var plan := MakePlan(policy, w, period, VersionsOf(rows), now, Loads(world));
           plan.Compare? && world.samples(plan.after - Max(w.trainingWindow, 2 * period)).None?
      ensures !e.Submitted? ==> store.Tables() == old(store.Tables())
      ensures e.Submitted? ==>
        var v := VersionsOf(rows); var plan := MakePlan(policy, w, period, v, now, Loads(world));
        && Judge(policy, w, period, v, now, Loads(world), e.outcome) == Some(e.submission)
        && (plan.Compare? ==> IsGathered(policy, w, period, world, PlannedModels(world, v, plan), plan.after, now,
                                         ContractFor(w, period), Some(e.outcome)))
        && (plan.Compare? && e.outcome.Scored? ==> Answers(e.outcome.evidence, plan, policy))
        && (plan.Compare? && e.outcome.Scored? ==>
              DecidedByScores(e.submission, v, plan.target, plan.rollback))
        && e.submission.report.reason != IncomparableReference
      ensures e.Submitted? ==>
        var result := Complete(old(store.Tables()), w, e.submission.target, e.submission.report, c);
        && e.refusal == (if result.Ok? then None else Some(result.error))
        && store.Tables() == (if result.Ok? then result.value else old(store.Tables()))
    {
      hide Fresh, Complete, Answers, OneActive, MakePlan, JudgeActive, JudgeCandidate, Roles, IsGathered, PlannedModels,
        DecidedByScores, ContractFor;
      if !ValidPolicy(policy) || period <= 0 { return ConfigurationError; }
      if !acquired { return NotAcquired; }
      var v := Select(rows);
      var plan, models := Prepare(w, world, v, now);
      var expected := if v.active.Some? then Some(v.active.value.id) else None;
      var report := Report(ArtifactComparisonV1, now, Withheld, NoReason, expected, None, ContractFor(w, period),
                           policy,
                           NO_EVIDENCE, Decision(false, NoReason));
      match plan
      case Nothing => e := NothingToEvaluate;
      case Stop(t, reason) =>
        e := Finish(w, t, report, reason, Stale, c);
        EvaluatedNeverIncomparable(policy, w, period, world, v, now, e.outcome);
      case Compare(t, champion, rollback, after) =>
        PlanTarget(policy, w, period, v, now, Loads(world));
        var gathered := Gather(w, world, models, after, now, report.contract, plan);
        if gathered.None? { return SourceError; }
        var outcome := gathered.value;
        match outcome {
          case Stale => e := Finish(w, t, report, StaleSource, outcome, c);
          case BadTimezone => e := Finish(w, t, report, InvalidContractReason, outcome, c);
          case Unscored => e := Finish(w, t, report, InsufficientEvidence, outcome, c);
          case Scored(evidence) =>
            report := report.(evidence := evidence);
            ScoresDecide(policy, w, period, v, now, Loads(world), evidence);
            if !Fresh(report, now) {
              e := Finish(w, t, report, EvaluationNotCurrent, outcome, c);
            } else {
              var s := Conclude(report, t, v, rollback);
              e := Finish(w, s.target, s.report, s.report.reason, outcome, c);
            }
        }
        EvaluatedNeverIncomparable(policy, w, period, world, v, now, e.outcome);
    }
  }

  /** The metrics of every compared role obey the score laws on one scale and
      over the same windows. */
  ghost predicate SameScale(e: Evidence, roles: set<Role>) {
    exists c, windows :: OnScale(e, roles, c, windows)
  }

  ghost predicate OnScale(e: Evidence, roles: set<Role>, c: Scale, windows: nat) {
    forall role :: role in roles ==> ScoreLaws(c, MetricsOf(e, role), windows)
  }

  lemma ComparedOnOneScale(models: map<Role, Model>, observed: seq<Sample>, r: Request, o: Options, e: Evidence)
    requires Compared(models, observed, r, o, e)
    ensures e.metrics.Keys == models.Keys && SameScale(e, models.Keys)
  {
    hide ScoreLaws, SelectsWindows, PairsOf, Score, Spans, PeakCutoff, Maxima;
    var history, cuts, cutoff :| IsComparison(models, observed, r, o, history, cuts, cutoff, e);
    forall role | role in models.Keys ensures ScoreLaws(ScaleOf(r, o, cutoff), MetricsOf(e, role), |cuts|) {
      assert e.metrics[role] == MetricsOf(e, role);
    }
    assert OnScale(e, models.Keys, ScaleOf(r, o, cutoff), |cuts|);
  }

  lemma GateOnOneScale(p: Policy, q: real, e: Evidence, roles: set<Role>, candidate: Role, champion: Option<Role>)
    requires SameScale(e, roles) && candidate in roles && Baseline in roles
             && (champion.Some? ==> champion.value in roles)
    ensures var reference := if champion.Some? then Some(MetricsOf(e, champion.value)) else None;
            Gate(p, q, MetricsOf(e, candidate), reference, MetricsOf(e, Baseline)).reason != IncomparableReference
  {
    hide ScoreLaws, Gate, MetricsOf;
    var c, windows :| OnScale(e, roles, c, windows);
    var reference := if champion.Some? then Some(MetricsOf(e, champion.value)) else None;
    ComparedScoresAreComparable(p, q, c, windows, MetricsOf(e, candidate), reference, MetricsOf(e, Baseline));
  }

  /** On evidence from one comparison of the plan's models, no decision reports
      an incomparable reference: that branch of the gate is unreachable. */
  lemma NeverIncomparable(p: Policy, w: Workload, period: Duration, v: Versions, now: int, loads: Id -> bool,
                          outcome: Outcome)
    requires var plan := MakePlan(p, w, period, v, now, loads);
             plan.Compare? && outcome.Scored? ==>
               outcome.evidence.metrics.Keys == Roles(plan)
               && SameScale(outcome.evidence, Roles(plan))
    ensures var s := Judge(p, w, period, v, now, loads, outcome); s.Some? ==>
            s.value.report.reason != IncomparableReference
  {
    hide Gate, CanRevalidate, Fresh, SameScale;
    var plan := MakePlan(p, w, period, v, now, loads);
    if plan.Compare? && outcome.Scored? {
      var e, q := outcome.evidence, ContractFor(w, period).quantile;
      GateOnOneScale(p, q, e, Roles(plan), Candidate, if Champion in e.metrics then Some(Champion) else None);
      if plan.rollback { GateOnOneScale(RollbackPolicy(p), q, e, Roles(plan), Previous, Some(Candidate)); }
    }
  }

  lemma EvaluatedNeverIncomparable(p: Policy, w: Workload, period: Duration, world: World, v: Versions, now: int,
                                   outcome: Outcome)
    requires var plan := MakePlan(p, w, period, v, now, Loads(world));
             plan.Compare? ==> IsGathered(p, w, period, world, PlannedModels(world, v, plan), plan.after, now,
                                          ContractFor(w, period), Some(outcome))
    ensures var s := Judge(p, w, period, v, now, Loads(world), outcome); s.Some? ==>
            s.value.report.reason != IncomparableReference
  {
    hide MakePlan, Judge, Compared, SameScale, IsJustified, Roles;
    var plan := MakePlan(p, w, period, v, now, Loads(world));
    if plan.Compare? && outcome.Scored? {
      var models := PlannedModels(world, v, plan);
      ComparedOnOneScale(models, world.samples(plan.after - Max(w.trainingWindow, 2 * period)).value,
                         RequestOf(w, period, ContractFor(w, period)), OptionsOf(p, w, plan.after), outcome.evidence);
    }
    NeverIncomparable(p, w, period, v, now, Loads(world), outcome);
  }

  /** Without a considered candidate the plan targets the active model; a
      rollback needs a previous one. */
  lemma PlanTarget(p: Policy, w: Workload, period: Duration, v: Versions, now: int, loads: Id -> bool)
    requires MakePlan(p, w, period, v, now, loads).Compare?
    ensures var plan := MakePlan(p, w, period, v, now, loads);
            && (ConsideredCandidate(v).None? ==> v.active == Some(plan.target))
            && (plan.rollback ==> ConsideredCandidate(v).None? && v.previous.Some?)
  {
  }

  // ----- the contract an evaluation is made under

  /** n is the whole part of the seconds of a duration. */
  ghost predicate CountsSeconds(n: int, d: Duration) {
    if d >= 0 then n * SECOND <= d < (n + 1) * SECOND else (n - 1) * SECOND < d <= n * SECOND
  }

  lemma ContractCountsSeconds(w: Workload, period: Duration)
    ensures var c := ContractFor(w, period);
            && c.version == ArtifactComparisonV1 && c.policyRevision == w.policyRevision
            && c.quantile == w.quantile && c.timezone == w.timezone
            && CountsSeconds(c.horizonSeconds, w.horizon) && CountsSeconds(c.samplingSeconds, w.sampling)
            && CountsSeconds(c.seasonalSeconds, period)
  {
    WholeSeconds(w.horizon);
    WholeSeconds(w.sampling);
    WholeSeconds(period);
  }

  lemma WholeSeconds(d: Duration)
    ensures CountsSeconds(Quotient(d, SECOND), d)
  {
    if d >= 0 { DivBounds(d, SECOND); } else { DivBounds(-d, SECOND); }
  }

  /** The models are compared on the workload's own horizon exactly when that is a
      whole number of seconds; the sampling interval and the season are its own. */
  lemma ComparedHorizonExactly(w: Workload, period: Duration)
    ensures var r := RequestOf(w, period, ContractFor(w, period));
            && (r.horizon == w.horizon <==> w.horizon % SECOND == 0)
            && r.sampling == w.sampling && r.seasonal == period && r.quantile == w.quantile
  {
    WholeSeconds(w.horizon);
    var n := Quotient(w.horizon, SECOND);
    MultipleMod(n, SECOND);
    if w.horizon % SECOND == 0 { DivBounds(w.horizon, SECOND); }
  }
}
