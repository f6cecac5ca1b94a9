/** internal/postgres/model_evaluation.go: the transaction that re-checks a
    report against the stored state and switches the active model. Tables are
    maps; a workload id stands for the pair of cluster and workload. */
module PromotionStore {
  import opened RealArithmetic
  import opened Wrappers
  import opened Observations
  import opened Comparison
  import opened Promotion

  datatype Lineage = Lineage(workload: Id, fingerprint: Id)

  /** One models row. The promotion report and its audit list live in
      validation_metrics. activatedAt is EPOCH while it is NULL. */
  datatype Row = Row(lineage: Lineage, engine: Id, status: Status, contract: Contract, trainedUntil: int,
                     createdAt: int, activatedAt: int, report: Report, history: seq<Report>, validatedAt: Option<int>)

  datatype WorkloadRow = WorkloadRow(policyRevision: Id, fingerprint: Id, engine: Id, active: bool)

  datatype Db = Db(workloads: map<Id, WorkloadRow>, models: map<Id, Row>)

  const EPOCH: int := 62_135_596_800 * SECOND

  const NO_CONTRACT := Contract(Unversioned, 0, 0, 0, 0, 0.0, 0)
  const NO_POLICY := Policy(UnknownMode, 0, 0, 0, 0, 0.0, 0.0, 0.0, false)
  const NO_REPORT := Report(Unversioned, 0, NoAction, NoReason, None, None, NO_CONTRACT, NO_POLICY, NO_EVIDENCE,
                            Decision(false, NoReason))

  /** The clock readings of one transaction: the freshness check, the two sides
      of the age check, and the database's now(). */
  datatype Clocks = Clocks(first: int, lower: int, upper: int, db: int)

  datatype Refusal =
    | WorkloadMissing | PolicyChanged | ActiveChanged | TargetMissing | EvidenceNotCurrent | RenewalRefused
    | ActivationRefused | PolicyNotSatisfied | UnexpectedState | NotThePreviousChampion

  function LineageOf(w: Workload): Lineage { Lineage(w.id, w.fingerprint) }

  ghost predicate ActiveIn(db: Db, l: Lineage, id: Id) {
    id in db.models && db.models[id].lineage == l && db.models[id].status == ActiveModel
  }

  /** The row the `status='active'` query of a lineage returns. */
  ghost function ActiveId(db: Db, l: Lineage): (r: Option<Id>)
    ensures r.Some? ==> ActiveIn(db, l, r.value)
    ensures r.None? ==> forall id :: !ActiveIn(db, l, id)
  {
    if exists id :: ActiveIn(db, l, id) then var id :| ActiveIn(db, l, id); Some(id) else None
  }

  /** models_one_active_per_workload. */
  ghost predicate OneActive(db: Db) {
    forall l, a, b :: ActiveIn(db, l, a) && ActiveIn(db, l, b) ==> a == b
  }

  predicate Activates(a: Action) { a == Promote || a == Rollback }

  predicate Binding(a: Action) { Activates(a) || a == Revalidated }

  predicate Renewable(r: Report, row: Row, policy: Id, c: Clocks) {
    && row.status == ActiveModel && r.contract.policyRevision == policy && r.evidence.fingerprint != ""
    && r.evidence.start >= row.trainedUntil && r.evidence.end <= r.at
    && r.evidence.end - r.evidence.start >= r.policy.minDuration
    && c.lower - 10 * MINUTE <= r.at <= c.upper + MINUTE
    && CanRevalidate(r.policy, r.contract.quantile, MetricsOf(r.evidence, Candidate), MetricsOf(r.evidence, Baseline))
  }

  /** The activation guard; `active` is the row of the current champion. */
  predicate Activatable(r: Report, row: Row, active: Option<Row>, policy: Id, c: Clocks) {
    var activeFitted := if active.Some? then active.value.trainedUntil else 0;
    var activeAt := if active.Some? then active.value.activatedAt else 0;
    && row.contract == r.contract && r.contract.policyRevision == policy && r.decision.promote
    && r.policy.mode == Automatic && r.evidence.fingerprint != ""
    && r.evidence.start >= row.trainedUntil
    && (Champion in r.evidence.metrics ==> r.evidence.start >= activeFitted)
    && (r.action == Rollback ==> r.evidence.start >= activeAt && r.evidence.start >= activeFitted)
    && r.evidence.end <= r.at && c.lower - 10 * MINUTE <= r.at <= c.upper + MINUTE
  }

  /** The promotion decision, taken again from the stored evidence. */
  function Redecide(r: Report): Decision {
    var e := r.evidence;
    if r.action == Rollback
    then Gate(RollbackPolicy(r.policy), r.contract.quantile, MetricsOf(e, Previous), Some(MetricsOf(e, Candidate)),
              MetricsOf(e, Baseline))
    else Gate(r.policy, r.contract.quantile, MetricsOf(e, Candidate), ChampionOf(e), MetricsOf(e, Baseline))
  }

  predicate ExpectedState(r: Report, row: Row) {
    && (r.action == Promote ==> row.status == CandidateModel)
    && (r.action == Rollback ==> row.status == RetiredModel && r.policy.rollback)
  }

  /** Why the transaction refuses, in the order its guards are tried. */
  function Guard(db: Db, w: Workload, target: Snapshot, r: Report, active: Option<Id>, c: Clocks): Option<Refusal>
    requires active.Some? ==> active.value in db.models
  {
    if w.id !in db.workloads || !db.workloads[w.id].active then Some(WorkloadMissing)
    else
      var work := db.workloads[w.id];
      if work.policyRevision != w.policyRevision || work.fingerprint != w.fingerprint || work.engine != w.engine
      then Some(PolicyChanged)
      else if active != r.expectedActive then Some(ActiveChanged)
      else if target.id !in db.models || db.models[target.id].lineage != LineageOf(w)
        || db.models[target.id].engine != work.engine
      then Some(TargetMissing)
      else
        var row := db.models[target.id];
        var champion := if active.Some? then Some(db.models[active.value]) else None;
        if (Activates(r.action) || r.action == Revalidated) && !Fresh(r, c.first) then Some(EvidenceNotCurrent)
        else if r.action == Revalidated && !Renewable(r, row, work.policyRevision, c) then Some(RenewalRefused)
        else if !Activates(r.action) then None
        else if !Activatable(r, row, champion, work.policyRevision, c) then Some(ActivationRefused)
        else if !Redecide(r).promote || r.evidence.end - r.evidence.start < r.policy.minDuration
          then Some(PolicyNotSatisfied)
        else if !ExpectedState(r, row) then Some(UnexpectedState)
        else if r.action == Rollback
          && (if champion.Some? then champion.value.report.previous else None) != Some(target.id)
        then Some(NotThePreviousChampion)
        else None
  }

  /** Do not overwrite the previous-model link on a withheld evaluation. */
  function KeepLink(r: Report, target: Snapshot): Report {
    if r.previous.None? && target.report.previous.Some? then r.(previous := target.report.previous) else r
  }

  function LastN<T>(s: seq<T>, n: nat): (r: seq<T>)
    ensures |r| <= n && |r| <= |s|
  {
    if |s| <= n then s else s[|s| - n..]
  }

  /** The audit update: keep the elements whose ordinal exceeds the old length
      minus 19. */
  function Audit(history: seq<Report>, r: Report): seq<Report> {
    var all := history + [r];
    if |history| <= 19 then all else all[|history| - 19..]
  }

  function Retire(m: map<Id, Row>, active: Option<Id>): map<Id, Row> {
    if active.Some? && active.value in m then m[active.value := m[active.value].(status := RetiredModel)] else m
  }

  /** The row updates of an accepted report. */
  function Write(m: map<Id, Row>, target: Snapshot, r: Report, active: Option<Id>, now: int): map<Id, Row>
    requires target.id in m
  {
    var switched := if Activates(r.action)
                    then var retired := Retire(m, active);
                         retired[target.id := retired[target.id].(status := ActiveModel, activatedAt := now)]
                    else m;
    var kept := KeepLink(r, target);
    var row := switched[target.id];
    var audited := row.(report := kept, history := Audit(row.history, kept));
    var renews := r.action == Revalidated || Activates(r.action);
    var validated := if renews then audited.(validatedAt := Some(r.at)) else audited;
    switched[target.id := validated]
  }

  /** One CompleteEvaluation transaction. */
  ghost function Complete(db: Db, w: Workload, target: Snapshot, r: Report, c: Clocks): Result<Db, Refusal> {
    var active := ActiveId(db, LineageOf(w));
    var refusal := Guard(db, w, target, r, active, c);
    if refusal.Some? then Err(refusal.value) else Ok(db.(models := Write(db.models, target, r, active, c.db)))
  }

  lemma TargetStored(db: Db, w: Workload, target: Snapshot, r: Report, active: Option<Id>, c: Clocks)
    requires (active.Some? ==> active.value in db.models) && Guard(db, w, target, r, active, c).None?
    ensures target.id in db.models
  {
  }

  class ModelRepository {
    var workloads: map<Id, WorkloadRow>
    var models: map<Id, Row>

    ghost function Tables(): Db
      reads this
    {
      Db(workloads, models)
    }

    constructor (workloads: map<Id, WorkloadRow>, models: map<Id, Row>)
      ensures Tables() == Db(workloads, models)
    {
      this.workloads, this.models := workloads, models;
    }

    /** SELECT ... WHERE status='active' of one lineage. */
    method SelectActive(l: Lineage) returns (r: Option<Id>)
      requires OneActive(Tables())
      ensures r == ActiveId(Tables(), l)
    {
      var pending := models.Keys;
      while pending != {}
        invariant pending <= models.Keys
        invariant forall id :: ActiveIn(Tables(), l, id) ==> id in pending
        decreases |pending|
      {
        ghost var some := Member(pending);
        var id :| id in pending;
        pending := pending - {id};
        if models[id].lineage == l && models[id].status == ActiveModel {
          assert ActiveIn(Tables(), l, id);
          return Some(id);
        }
      }
      r := None;
    }

    /** The guards of the transaction, one statement after the other. */
    method Check(w: Workload, target: Snapshot, r: Report, active: Option<Id>, c: Clocks)
      returns (refusal: Option<Refusal>)
      requires active.Some? ==> active.value in models
      ensures refusal == Guard(Tables(), w, target, r, active, c)
    {
      hide Fresh, Gate, CanRevalidate;
      if w.id !in workloads || !workloads[w.id].active { return Some(WorkloadMissing); }
      var policy, fingerprint := workloads[w.id].policyRevision, workloads[w.id].fingerprint;
      var engine := workloads[w.id].engine;
      if policy != w.policyRevision || fingerprint != w.fingerprint || engine != w.engine {
        return Some(PolicyChanged);
      }
      var activeFitted, activeAt := 0, 0;
      if active.Some? { activeFitted, activeAt := models[active.value].trainedUntil, models[active.value].activatedAt; }
      if active != r.expectedActive { return Some(ActiveChanged); }
      if target.id !in models || models[target.id].lineage != Lineage(w.id, fingerprint)
        || models[target.id].engine != engine
      {
        return Some(TargetMissing);
      }
      var row, e := models[target.id], r.evidence;
      var activate := r.action == Promote || r.action == Rollback;
      if (activate || r.action == Revalidated) && !Fresh(r, c.first) { return Some(EvidenceNotCurrent); }
      if r.action == Revalidated {
        if row.status != ActiveModel || r.contract.policyRevision != policy || e.fingerprint == ""
          || e.start < row.trainedUntil || e.end > r.at || e.end - e.start < r.policy.minDuration
          || r.at < c.lower - 10 * MINUTE || r.at > c.upper + MINUTE
          || !CanRevalidate(r.policy, r.contract.quantile, MetricsOf(e, Candidate), MetricsOf(e, Baseline))
        {
          return Some(RenewalRefused);
        }
      }
      if activate {
        if row.contract != r.contract || r.contract.policyRevision != policy || !r.decision.promote
          || r.policy.mode != Automatic || e.fingerprint == "" || e.start < row.trainedUntil
          || (Champion in e.metrics && e.start < activeFitted)
          || (r.action == Rollback && (e.start < activeAt || e.start < activeFitted)) || e.end > r.at
          || r.at < c.lower - 10 * MINUTE || r.at > c.upper + MINUTE
        {
          return Some(ActivationRefused);
        }
        var reference := ChampionOf(e);
        var candidate, policyCheck := MetricsOf(e, Candidate), r.policy;
        if r.action == Rollback {
          reference := Some(candidate);
          candidate := MetricsOf(e, Previous);
          policyCheck := policyCheck.(minimumImprovement := MaxReal(0.1, policyCheck.minimumImprovement));
        }
        var decision := Gate(policyCheck, r.contract.quantile, candidate, reference, MetricsOf(e, Baseline));
        if !decision.promote || e.end - e.start < r.policy.minDuration { return Some(PolicyNotSatisfied); }
        if (r.action == Promote && row.status != CandidateModel)
          || (r.action == Rollback && (row.status != RetiredModel || !r.policy.rollback))
        {
          return Some(UnexpectedState);
        }
        if r.action == Rollback {
          var previous: Option<Id> := if active.Some? then models[active.value].report.previous else None;
          if previous != Some(target.id) { return Some(NotThePreviousChampion); }
        }
      }
      refusal := None;
    }

    /** CompleteEvaluation: the guards, then the row updates one statement at a
        time. A refusal leaves every row as it was. */
    method CompleteEvaluation(w: Workload, target: Snapshot, r: Report, c: Clocks) returns (result: Option<Refusal>)
      requires OneActive(Tables())
      modifies this
      ensures result.None? <==> Complete(old(Tables()), w, target, r, c).Ok?
      ensures result.None? ==> Tables() == Complete(old(Tables()), w, target, r, c).value
      ensures result.Some? ==> Tables() == old(Tables()) && Complete(Tables(), w, target, r, c) == Err(result.value)
    {
      hide Guard, Audit;
      var active := SelectActive(Lineage(w.id, w.fingerprint));
      result := Check(w, target, r, active, c);
      if result.Some? { return; }
      TargetStored(Tables(), w, target, r, active, c);
      if Activates(r.action) {
        if active.Some? {
          models := models[active.value := models[active.value].(status := RetiredModel)];
        }
        models := models[target.id := models[target.id].(status := ActiveModel, activatedAt := c.db)];
      }
      var stored := r;
      if r.previous.None? && target.report.previous.Some? {
        stored := r.(previous := target.report.previous);
      }
      var row := models[target.id];
      models := models[target.id := row.(report := stored, history := Audit(row.history, stored))];
      if r.action == Revalidated || Activates(r.action) {
        models := models[target.id := models[target.id].(validatedAt := Some(r.at))];
      }
    }

    /** CreateCandidate. */
    method CreateCandidate(id: Id, l: Lineage, engine: Id, contract: Contract, trainedUntil: int, createdAt: int)
      requires id !in models
      modifies this
      ensures workloads == old(workloads)
      ensures models == old(models)[id := NewRow(l, engine, contract, trainedUntil, createdAt)]
    {
      models := models[id := Row(l, engine, CandidateModel, contract, trainedUntil, createdAt, EPOCH, NO_REPORT, [],
                                 None)];
    }
  }

  function NewRow(l: Lineage, engine: Id, contract: Contract, trainedUntil: int, createdAt: int): Row {
    Row(l, engine, CandidateModel, contract, trainedUntil, createdAt, EPOCH, NO_REPORT, [], None)
  }

  // ----- what one transaction does to the rows

  /** The audit list of a model is always the last twenty of its reports. */
  lemma AuditKeepsLastTwenty(log: seq<Report>, history: seq<Report>, r: Report)
    requires history == LastN(log, 20)
    ensures Audit(history, r) == LastN(log + [r], 20)
    ensures |Audit(history, r)| == Min(|log| + 1, 20)
  {
  }
}
