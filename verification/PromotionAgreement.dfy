/** The two layers agree: what the evaluation service decides on the versions it
    read, the storage transaction accepts, provided nothing it fences changed. */
module PromotionAgreement {
  import opened Wrappers
  import opened Observations
  import opened Scoring
  import opened Comparison
  import opened Promotion
  import opened PromotionStore

  /** What CompareArtifacts guarantees about evidence gathered for a plan. */
  ghost predicate Answers(e: Evidence, plan: Plan, p: Policy)
    requires plan.Compare?
  {
    && plan.after <= e.start && e.start + p.minDuration <= e.end
    && e.metrics.Keys == Roles(plan)
  }

  /** CompareArtifacts on the plan's models and cutoff answers the plan. */
  lemma ComparisonAnswers(plan: Plan, p: Policy, models: map<Role, Model>, observed: seq<Sample>, r: Request,
                          o: Options,
                          history: nat, cuts: seq<int>, cutoff: real, e: Evidence)
    requires plan.Compare? && models.Keys == Roles(plan) && o.after == plan.after && o.minDuration == p.minDuration
    requires IsComparison(models, observed, r, o, history, cuts, cutoff, e)
    ensures Answers(e, plan, p)
  {
    hide IsComparison, Roles;
    EvidenceIsSound(models, observed, r, o, history, cuts, cutoff, e);
  }

  ghost predicate SameModel(row: Row, s: Snapshot, l: Lineage) {
    && row.lineage == l && row.engine == s.engine && row.status == s.status && row.contract == s.contract
    && row.trainedUntil == s.trainedUntil && row.activatedAt == s.activatedAt
    && row.report.previous == s.report.previous
  }

  /** Between reading the versions and committing, the workload's policy, the
      active model and the target's row did not change. */
  ghost predicate Unchanged(db: Db, w: Workload, v: Versions, target: Snapshot) {
    && w.id in db.workloads
    && db.workloads[w.id] == WorkloadRow(w.policyRevision, w.fingerprint, w.engine, true)
    && ActiveId(db, LineageOf(w)) == ExpectedActive(v)
    && (v.active.Some? ==> SameModel(db.models[v.active.value.id], v.active.value, LineageOf(w)))
    && target.id in db.models && SameModel(db.models[target.id], target, LineageOf(w))
  }

  /** The versions carry the statuses they were selected by. */
  predicate WellRead(v: Versions) {
    && (v.active.Some? ==> v.active.value.status == ActiveModel)
    && (v.candidate.Some? ==> v.candidate.value.status == CandidateModel)
    && (v.previous.Some? ==> v.previous.value.status == RetiredModel)
  }

  /** Less than ten minutes passed since the evaluation's clock reading. */
  predicate Prompt(now: int, c: Clocks) {
    && now - MINUTE <= c.first <= now + 10 * MINUTE && c.lower <= now + 10 * MINUTE && now - MINUTE <= c.upper
  }

  lemma FreshLater(r: Report, now: int, c: Clocks)
    requires Fresh(r, now) && r.at == now && Prompt(now, c)
    ensures Fresh(r, c.first) && c.lower - 10 * MINUTE <= r.at <= c.upper + MINUTE
  {
  }

  /** The report fields every submission shares with the evaluation. */
  lemma SubmissionShape(p: Policy, w: Workload, period: Duration, v: Versions, now: int, loads: Id -> bool,
                        outcome: Outcome)
    requires Judge(p, w, period, v, now, loads, outcome).Some?
    requires Binding(Judge(p, w, period, v, now, loads, outcome).value.report.action)
    ensures var r, plan := Judge(p, w, period, v, now, loads, outcome).value.report,
            MakePlan(p, w, period, v, now, loads);
            && r.at == now && r.policy == p && r.contract == ContractFor(w, period)
              && r.expectedActive == ExpectedActive(v)
            && plan.Compare? && outcome.Scored? && r.evidence == outcome.evidence && Fresh(r, now)
  {
    hide Gate, CanRevalidate, MetricsOf, ChampionOf;
  }

  lemma PromotionAccepted(db: Db, p: Policy, w: Workload, period: Duration, v: Versions, now: int, loads: Id -> bool,
                          e: Evidence, c: Clocks)
    requires ValidPolicy(p) && WellRead(v) && Prompt(now, c)
    requires Judge(p, w, period, v, now, loads, Scored(e)).Some?
    requires var s := Judge(p, w, period, v, now, loads, Scored(e)).value;
             s.report.action == Promote && Unchanged(db, w, v, s.target) && s.target.engine == w.engine
    requires var plan := MakePlan(p, w, period, v, now, loads); plan.Compare? ==> Answers(e, plan, p)
    ensures var s := Judge(p, w, period, v, now, loads, Scored(e)).value;
            Guard(db, w, s.target, s.report, ActiveId(db, LineageOf(w)), c) == None
  {
    hide Fresh, Gate, CanRevalidate, MetricsOf;
    SubmissionShape(p, w, period, v, now, loads, Scored(e));
    var s := Judge(p, w, period, v, now, loads, Scored(e)).value;
    FreshLater(s.report, now, c);
    assert s.report.evidence.fingerprint != "" && s.report.evidence.end <= s.report.at by {
      FreshEvidence(s.report, now);
    }
  }

  lemma FreshEvidence(r: Report, now: int)
    requires Fresh(r, now)
    ensures r.evidence.fingerprint != "" && r.evidence.end <= r.at
    ensures r.evidence.end - r.evidence.start >= r.policy.minDuration
  {
  }

  lemma RollbackAccepted(db: Db, p: Policy, w: Workload, period: Duration, v: Versions, now: int, loads: Id -> bool,
                         e: Evidence, c: Clocks)
    requires ValidPolicy(p) && WellRead(v) && Prompt(now, c)
    requires Judge(p, w, period, v, now, loads, Scored(e)).Some?
    requires var s := Judge(p, w, period, v, now, loads, Scored(e)).value;
             s.report.action == Rollback && Unchanged(db, w, v, s.target) && s.target.engine == w.engine
    requires var plan := MakePlan(p, w, period, v, now, loads); plan.Compare? ==> Answers(e, plan, p)
    ensures var s := Judge(p, w, period, v, now, loads, Scored(e)).value;
            Guard(db, w, s.target, s.report, ActiveId(db, LineageOf(w)), c) == None
  {
    hide Fresh, Gate, CanRevalidate, MetricsOf, RollbackPolicy;
    SubmissionShape(p, w, period, v, now, loads, Scored(e));
    var s := Judge(p, w, period, v, now, loads, Scored(e)).value;
    FreshLater(s.report, now, c);
    FreshEvidence(s.report, now);
  }

  lemma RenewalAccepted(db: Db, p: Policy, w: Workload, period: Duration, v: Versions, now: int, loads: Id -> bool,
                        e: Evidence, c: Clocks)
    requires ValidPolicy(p) && WellRead(v) && Prompt(now, c)
    requires Judge(p, w, period, v, now, loads, Scored(e)).Some?
    requires var s := Judge(p, w, period, v, now, loads, Scored(e)).value;
             s.report.action == Revalidated && Unchanged(db, w, v, s.target) && s.target.engine == w.engine
    requires var plan := MakePlan(p, w, period, v, now, loads); plan.Compare? ==> Answers(e, plan, p)
    ensures var s := Judge(p, w, period, v, now, loads, Scored(e)).value;
            Guard(db, w, s.target, s.report, ActiveId(db, LineageOf(w)), c) == None
  {
    hide Fresh, Gate, CanRevalidate, MetricsOf;
    SubmissionShape(p, w, period, v, now, loads, Scored(e));
    var s := Judge(p, w, period, v, now, loads, Scored(e)).value;
    FreshLater(s.report, now, c);
    FreshEvidence(s.report, now);
  }

  lemma OtherEngineRefused(db: Db, w: Workload, v: Versions, target: Snapshot, r: Report, c: Clocks)
    requires Unchanged(db, w, v, target) && r.expectedActive == ExpectedActive(v) && target.engine != w.engine
    ensures Complete(db, w, target, r, c) == Err(TargetMissing)
  {
    hide Fresh, Gate, CanRevalidate, Activatable, Renewable;
  }

  /** When nothing the transaction fences changed and the clock moved less than
      ten minutes, a promote, rollback or revalidated report that the service
      builds is accepted exactly when the target has the workload's engine. The
      service compares contracts, which do not name the engine; the transaction
      asks for the engine as well. */
  lemma LayersAgree(db: Db, p: Policy, w: Workload, period: Duration, v: Versions, now: int, loads: Id -> bool,
                    e: Evidence, c: Clocks)
    requires ValidPolicy(p) && WellRead(v) && Prompt(now, c)
    requires Judge(p, w, period, v, now, loads, Scored(e)).Some?
    requires var s := Judge(p, w, period, v, now, loads, Scored(e)).value;
             Binding(s.report.action) && Unchanged(db, w, v, s.target)
    requires var plan := MakePlan(p, w, period, v, now, loads); plan.Compare? ==> Answers(e, plan, p)
    ensures var s := Judge(p, w, period, v, now, loads, Scored(e)).value;
            && (Complete(db, w, s.target, s.report, c).Ok? <==> s.target.engine == w.engine)
            && (s.target.engine != w.engine ==> Complete(db, w, s.target, s.report, c) == Err(TargetMissing))
  {
    hide Judge, Guard, Unchanged, MakePlan, Answers, Write;
    var s := Judge(p, w, period, v, now, loads, Scored(e)).value;
    if s.target.engine != w.engine {
      SubmissionShape(p, w, period, v, now, loads, Scored(e));
      OtherEngineRefused(db, w, v, s.target, s.report, c);
    } else {
      match s.report.action
      case Promote => PromotionAccepted(db, p, w, period, v, now, loads, e, c);
      case Rollback => RollbackAccepted(db, p, w, period, v, now, loads, e, c);
      case Revalidated => RenewalAccepted(db, p, w, period, v, now, loads, e, c);
    }
  }

  /** The policy revision is a hash over the engine too. An artifact made by the
      engine of the revision in its own contract therefore always has the
      workload's engine when the service builds a binding report on it. */
  lemma RevisionFixesEngine(p: Policy, w: Workload, period: Duration, v: Versions, now: int, loads: Id -> bool,
                            outcome: Outcome,
                            engineOf: Id -> Id)
    requires WellRead(v) && Judge(p, w, period, v, now, loads, outcome).Some?
    requires var s := Judge(p, w, period, v, now, loads, outcome).value;
             Binding(s.report.action) && (s.target.contract.version != Unversioned ==>
                                          s.target.engine == engineOf(s.target.contract.policyRevision))
    requires w.engine == engineOf(w.policyRevision)
    ensures Judge(p, w, period, v, now, loads, outcome).value.target.engine == w.engine
  {
    hide Gate, CanRevalidate, MetricsOf, ChampionOf, Fresh;
  }

  // ----- an artifact of another engine under the same contract

  const PERFECT := Metrics(2, 1.0, 0.0, 0.0, 0.0, 0.0, 0.0, 0.0, 0.0)
  const SERVED := Workload(1, 7, 3, 2, MINUTE, MINUTE, DAY, 0.5, 0, 1.0)
  const RULES := Policy(Automatic, 2 * HOUR, HOUR, 2, 2, 0.1, 0.0, 1.0, false)
  const STRANGER := Snapshot(5, 1, CandidateModel, 90 * HOUR, 99 * HOUR, EPOCH, ContractFor(SERVED, DAY), NO_REPORT)
  const EVIDENCE := Evidence(98 * HOUR, 100 * HOUR, "f", 2, map[Baseline := PERFECT, Candidate := PERFECT])
  const STRANGERS_ROW :=
    Row(Lineage(1, 3), 1, CandidateModel, STRANGER.contract, 90 * HOUR, 99 * HOUR, EPOCH, NO_REPORT, [], None)
  const TABLES := Db(map[1 := WorkloadRow(7, 3, 2, true)], map[5 := STRANGERS_ROW])

  /** A candidate of engine 1 under the contract of a workload with engine 2: the
      service decides to promote it, and the transaction refuses. */
  lemma OtherEngineIsRefused(loads: Id -> bool, c: Clocks)
    requires loads(STRANGER.id) && Prompt(100 * HOUR, c)
    ensures var v, now := Versions(None, Some(STRANGER), None), 100 * HOUR;
            var sub := Judge(RULES, SERVED, DAY, v, now, loads, Scored(EVIDENCE));
            && ValidPolicy(RULES) && WellRead(v)
            && sub.Some? && sub.value.report.action == Promote && Unchanged(TABLES, SERVED, v, sub.value.target)
            && Answers(EVIDENCE, MakePlan(RULES, SERVED, DAY, v, now, loads), RULES)
            && Complete(TABLES, SERVED, sub.value.target, sub.value.report, c) == Err(TargetMissing)
  {
    hide Complete, Guard;
    var v, now := Versions(None, Some(STRANGER), None), 100 * HOUR;
    var plan := MakePlan(RULES, SERVED, DAY, v, now, loads);
    assert plan == Compare(STRANGER, false, false, 98 * HOUR);
    assert Gate(RULES, 0.5, PERFECT, None, PERFECT) == Decision(true, SafeBaselineEquivalent);
    assert forall id :: !ActiveIn(TABLES, LineageOf(SERVED), id);
    var sub := Judge(RULES, SERVED, DAY, v, now, loads, Scored(EVIDENCE));
    OtherEngineRefused(TABLES, SERVED, v, STRANGER, sub.value.report, c);
  }
}
