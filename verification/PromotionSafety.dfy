/** Safety of model promotion over every interleaving: transactions may carry
    arbitrary, stale or forged reports, and candidates, policy changes and model
    clearing may come in between. */
module PromotionSafety {
  import opened RealArithmetic
  import opened Wrappers
  import opened Observations
  import opened Comparison
  import opened Promotion
  import opened PromotionStore

  datatype Step =
    | Submit(w: Workload, target: Snapshot, report: Report, clocks: Clocks)
    | NewCandidate(id: Id, row: Row)
    | ClearModels(workload: Id)
    | ChangeWorkload(workload: Id, value: WorkloadRow)

  ghost function Apply(db: Db, s: Step): Db {
    match s
    case Submit(w, target, r, c) =>
      var result := Complete(db, w, target, r, c);
      if result.Ok? then result.value else db
    case NewCandidate(id, row) =>
      if id in db.models || row.status != CandidateModel then db else db.(models := db.models[id := row])
    case ClearModels(workload) => db.(models := Cleared(db.models, workload))
    case ChangeWorkload(workload, value) => db.(workloads := db.workloads[workload := value])
  }

  function Cleared(m: map<Id, Row>, workload: Id): map<Id, Row> {
    map id | id in m && m[id].lineage.workload != workload :: m[id]
  }

  /** The state after the first n steps. */
  ghost function After(db: Db, run: seq<Step>, n: nat): Db
    requires n <= |run|
  {
    if n == 0 then db else Apply(After(db, run, n - 1), run[n - 1])
  }

  /** The step is a report that the transaction accepts and that switches models. */
  ghost predicate Switches(db: Db, s: Step) {
    s.Submit? && Activates(s.report.action) && Complete(db, s.w, s.target, s.report, s.clocks).Ok?
  }

  // ----- one step

  /** What an accepted switch does: the expected champion retires, the target
      becomes active, no other status changes. */
  lemma SwitchEffect(db: Db, s: Step)
    requires OneActive(db) && Switches(db, s)
    ensures var l, id, next := LineageOf(s.w), s.target.id, Apply(db, s);
            && next.models.Keys == db.models.Keys
            && ActiveId(db, l) == s.report.expectedActive
            && (s.report.expectedActive.Some? ==> ActiveIn(db, l, s.report.expectedActive.value))
            && id in db.models && db.models[id].lineage == l && next.models[id].status == ActiveModel
            && db.models[id].status == (if s.report.action == Promote then CandidateModel else RetiredModel)
            && (s.report.expectedActive.Some? ==>
                  (s.report.expectedActive.value != id && next.models[s.report.expectedActive.value].status ==
                   RetiredModel))
            && (forall other :: other in db.models && other != id && Some(other) != s.report.expectedActive ==>
                  next.models[other].status == db.models[other].status)
            && (forall any :: any in db.models ==> next.models[any].lineage == db.models[any].lineage)
  {
    hide Fresh, Gate, CanRevalidate, Activatable, Renewable, OneActive;
  }

  /** A report that does not switch changes no status. */
  lemma ReportEffect(db: Db, s: Step)
    requires s.Submit? && !Switches(db, s)
    ensures var next := Apply(db, s);
            && next.models.Keys == db.models.Keys
            && forall id :: id in db.models ==>
                 next.models[id].status == db.models[id].status && next.models[id].lineage == db.models[id].lineage
  {
    hide Fresh, Gate, CanRevalidate, Activatable, Renewable;
  }

  /** A refused report changes nothing at all. */
  lemma RefusalChangesNothing(db: Db, w: Workload, target: Snapshot, r: Report, c: Clocks)
    requires w.id in db.workloads ==>
               (db.workloads[w.id].policyRevision != w.policyRevision || ActiveId(db, LineageOf(w)) != r.expectedActive)
    ensures Complete(db, w, target, r, c).Err? && Apply(db, Submit(w, target, r, c)) == db
  {
  }

  lemma ApplyKeepsOneActive(db: Db, s: Step)
    requires OneActive(db)
    ensures OneActive(Apply(db, s))
  {
    var next := Apply(db, s);
    if s.Submit? {
      if Switches(db, s) {
        SwitchKeepsOneActive(db, s);
      } else {
        ReportEffect(db, s);
        SameActives(db, next);
      }
    } else {
      FewerActives(db, s);
    }
  }

  lemma SwitchKeepsOneActive(db: Db, s: Step)
    requires OneActive(db) && Switches(db, s)
    ensures OneActive(Apply(db, s))
  {
    hide Complete, Apply;
    SwitchEffect(db, s);
    var l, id, next := LineageOf(s.w), s.target.id, Apply(db, s);
    forall k, a, b | ActiveIn(next, k, a) && ActiveIn(next, k, b) ensures a == b {
      if k == l {
        OnlyTheTarget(db, s, a);
        OnlyTheTarget(db, s, b);
      } else {
        assert ActiveIn(db, k, a) && ActiveIn(db, k, b);
      }
    }
  }

  /** After a switch the target is the only active model of its lineage. */
  lemma OnlyTheTarget(db: Db, s: Step, a: Id)
    requires OneActive(db) && Switches(db, s) && ActiveIn(Apply(db, s), LineageOf(s.w), a)
    ensures a == s.target.id
  {
    hide Complete, Apply;
    SwitchEffect(db, s);
    assert a != s.target.id && Some(a) != s.report.expectedActive ==> ActiveIn(db, LineageOf(s.w), a);
  }

  lemma SameActives(db: Db, next: Db)
    requires OneActive(db) && next.models.Keys == db.models.Keys
    requires forall id :: id in db.models ==>
               next.models[id].status == db.models[id].status && next.models[id].lineage == db.models[id].lineage
    ensures OneActive(next)
  {
    forall l, a | ActiveIn(next, l, a) ensures ActiveIn(db, l, a) { }
  }

  lemma FewerActives(db: Db, s: Step)
    requires OneActive(db) && !s.Submit?
    ensures OneActive(Apply(db, s))
  {
    forall l, a | ActiveIn(Apply(db, s), l, a) ensures ActiveIn(db, l, a) { }
  }

  /** Statuses move only from candidate to active to retired, and back from
      retired only by an accepted rollback that names the model. */
  lemma StatusMoves(db: Db, s: Step, id: Id)
    requires OneActive(db) && id in db.models && id in Apply(db, s).models
    ensures var before, after := db.models[id].status, Apply(db, s).models[id].status;
            before == after || (Switches(db, s) && (
              || (before == CandidateModel && after == ActiveModel && s.report.action == Promote && s.target.id == id)
              || (before == ActiveModel && after == RetiredModel && s.report.expectedActive == Some(id))
              || (before == RetiredModel && after == ActiveModel && s.report.action == Rollback && s.target.id == id)))
  {
    hide Complete;
    if Switches(db, s) {
      SwitchEffect(db, s);
    } else if s.Submit? {
      ReportEffect(db, s);
    }
  }

  /** The scores in the report earn the switch: the candidate outperforms the
      champion or else the baseline; the previous model outperforms the champion,
      which is scored as the candidate then, by a tenth of its loss at least. */
  ghost predicate ScoresEarn(r: Report) {
    var p, q, e := r.policy, r.contract.quantile, r.evidence;
    if r.action == Rollback then Earns(p, q, MaxReal(0.1, p.minimumImprovement), e, Previous, Candidate)
    else Earns(p, q, p.minimumImprovement, e, Candidate, if Champion in e.metrics then Champion else Baseline)
  }

  /** A report whose evidence justifies activating a model fitted up to a
      cutoff: held out from the fit, complete, current, decided automatically, and
      with scores that earn the switch. */
  ghost predicate Justifies(r: Report, trainedUntil: int) {
    && Activates(r.action) && (r.action == Rollback ==> r.policy.rollback)
    && r.policy.mode == Automatic && Usable(r.policy) && 0.0 < r.contract.quantile < 1.0
    && Current(r) && trainedUntil <= r.evidence.start && ScoresEarn(r)
  }

  /** Taken again from the report's own evidence, the decision is to promote
      exactly when the scores earn it. */
  lemma RedecidesExactly(r: Report)
    requires Usable(r.policy)
    ensures Redecide(r).promote <==> 0.0 < r.contract.quantile < 1.0 && ScoresEarn(r)
  {
    hide Gate, WellFormed, NoWorse, Improves, BothPerfect;
    var p, q, e := r.policy, r.contract.quantile, r.evidence;
    NoScores();
    GatePromotesExactly(p, q, MetricsOf(e, Candidate), ChampionOf(e), MetricsOf(e, Baseline));
    GatePromotesExactly(RollbackPolicy(p), q, MetricsOf(e, Previous), Some(MetricsOf(e, Candidate)),
                        MetricsOf(e, Baseline));
  }

  /** The workload, its active model and the target are what the report names. */
  ghost predicate Fenced(db: Db, w: Workload, target: Snapshot, r: Report) {
    && w.id in db.workloads
    && db.workloads[w.id] == WorkloadRow(w.policyRevision, w.fingerprint, w.engine, true)
    && ActiveId(db, Lineage(w.id, w.fingerprint)) == r.expectedActive
    && target.id in db.models && db.models[target.id].lineage == Lineage(w.id, w.fingerprint)
    && db.models[target.id].engine == w.engine
  }

  /** The report may activate the target: a candidate when it promotes, the retired
      model the champion links to when it rolls back. Evidence that involves the
      champion postdates its fit, and to undo an activation its activation. */
  ghost predicate Replaces(db: Db, target: Id, r: Report)
    requires target in db.models && (r.expectedActive.Some? ==> r.expectedActive.value in db.models)
  {
    var row, start := db.models[target], r.evidence.start;
    && Justifies(r, row.trainedUntil) && row.contract == r.contract && r.decision.promote
    && row.status == (if r.action == Promote then CandidateModel else RetiredModel)
    && (r.expectedActive.None? ==> r.action == Promote && (Champion in r.evidence.metrics ==> 0 <= start))
    && (r.expectedActive.Some? ==>
          var champion := db.models[r.expectedActive.value];
          && (Champion in r.evidence.metrics || r.action == Rollback ==> champion.trainedUntil <= start)
          && (r.action == Rollback ==> champion.activatedAt <= start && champion.report.previous == Some(target)))
  }

  /** The transaction accepts exactly the reports that the fences let through and
      that, when they bind, rest on current evidence that justifies them. */
  lemma AcceptedExactly(db: Db, w: Workload, target: Snapshot, r: Report, c: Clocks)
    ensures Complete(db, w, target, r, c).Ok? <==>
            && Fenced(db, w, target, r)
            && (Binding(r.action) ==>
                && Usable(r.policy) && Current(r) && Punctual(r.at, c.first)
                && r.at <= c.upper + MINUTE && c.lower <= r.at + 10 * MINUTE
                && r.contract.policyRevision == w.policyRevision
                && db.models[target.id].trainedUntil <= r.evidence.start)
            && (r.action == Revalidated ==>
                  db.models[target.id].status == ActiveModel
                  && Certified(r.policy, r.contract.quantile, r.evidence))
            && (Activates(r.action) ==> Replaces(db, target.id, r))
  {
    hide Fresh, Usable, Redecide, CanRevalidate, Acceptable, WellFormed, ScoresEarn, Write, ValidPolicy;
    FreshExactly(r, c.first);
    if Usable(r.policy) { RedecidesExactly(r); }
    NoScores();
    RevalidatesExactly(r.policy, r.contract.quantile, MetricsOf(r.evidence, Candidate),
                       MetricsOf(r.evidence, Baseline));
  }

  lemma SwitchIsJustified(db: Db, s: Step)
    requires Switches(db, s)
    ensures Fenced(db, s.w, s.target, s.report) && Replaces(db, s.target.id, s.report)
    ensures Justifies(s.report, db.models[s.target.id].trainedUntil)
    ensures s.report.contract.policyRevision == s.w.policyRevision && Punctual(s.report.at, s.clocks.first)
  {
    hide Complete, Justifies;
    AcceptedExactly(db, s.w, s.target, s.report, s.clocks);
  }

  /** No step changes what a stored model was fitted on. */
  lemma FitsStay(db: Db, s: Step, id: Id)
    requires id in db.models && id in Apply(db, s).models
    ensures Apply(db, s).models[id].trainedUntil == db.models[id].trainedUntil
  {
    hide Fresh, Gate, CanRevalidate, Activatable, Renewable;
  }

  /** A model's certificate is renewed exactly by an accepted report that binds and
      names it, as of the time of that report. */
  lemma ValidityMoves(db: Db, s: Step, id: Id)
    requires id in db.models && id in Apply(db, s).models
    ensures var renewed := s.Submit? && s.target.id == id && Binding(s.report.action)
                           && Complete(db, s.w, s.target, s.report, s.clocks).Ok?;
            Apply(db, s).models[id].validatedAt ==
            (if renewed then Some(s.report.at) else db.models[id].validatedAt)
  {
    hide Guard, Audit, KeepLink;
    if s.Submit? {
      var active := ActiveId(db, LineageOf(s.w));
      if Guard(db, s.w, s.target, s.report, active, s.clocks).None? {
        TargetStored(db, s.w, s.target, s.report, active, s.clocks);
      }
    }
  }

  // ----- whole runs

  lemma {:induction false} RunKeepsOneActive(db: Db, run: seq<Step>, n: nat)
    requires OneActive(db) && n <= |run|
    ensures OneActive(After(db, run, n))
  {
    hide OneActive, Apply;
    if n > 0 {
      RunKeepsOneActive(db, run, n - 1);
      ApplyKeepsOneActive(After(db, run, n - 1), run[n - 1]);
    }
  }

  /** Whatever reports are handed in and whatever happens in between: a model that
      is or was active got there by an accepted switch on evidence that its own
      fit could not have seen, and that the gate promotes. */
  lemma {:induction false} ActivationsWereJustified(db: Db, run: seq<Step>, n: nat, id: Id) returns (k: nat)
    requires OneActive(db) && n <= |run| && (forall i :: i in db.models ==> db.models[i].status == CandidateModel)
    requires id in After(db, run, n).models && After(db, run, n).models[id].status != CandidateModel
    ensures k < n && Switches(After(db, run, k), run[k]) && run[k].target.id == id
    ensures Justifies(run[k].report, After(db, run, n).models[id].trainedUntil)
  {
    hide Apply, OneActive, Complete, Justifies;
    var before, step := After(db, run, n - 1), run[n - 1];
    RunKeepsOneActive(db, run, n - 1);
    Existed(before, step, id);
    FitsStay(before, step, id);
    StatusMoves(before, step, id);
    if before.models[id].status == CandidateModel {
      k := n - 1;
      SwitchIsJustified(before, step);
    } else {
      k := ActivationsWereJustified(db, run, n - 1, id);
    }
  }

  lemma Existed(db: Db, s: Step, id: Id)
    requires id in Apply(db, s).models && Apply(db, s).models[id].status != CandidateModel
    ensures id in db.models
  {
    hide Fresh, Gate, CanRevalidate, Activatable, Renewable;
  }

  ghost predicate NoRollbackOrClearing(run: seq<Step>) {
    forall k :: 0 <= k < |run| ==> !run[k].ClearModels? && (run[k].Submit? ==> run[k].report.action != Rollback)
  }

  /** The expectation e of lineage l can no longer be met: the expected champion
      has retired, or a lineage expected to have none has one. */
  ghost predicate Spent(db: Db, l: Lineage, e: Option<Id>) {
    if e.Some? then e.value in db.models && db.models[e.value].status == RetiredModel
    else exists id :: ActiveIn(db, l, id)
  }

  lemma SpentIsNotActive(db: Db, l: Lineage, e: Option<Id>)
    requires Spent(db, l, e)
    ensures ActiveId(db, l) != e
  {
  }

  lemma SwitchSpends(db: Db, s: Step)
    requires OneActive(db) && Switches(db, s)
    ensures Spent(Apply(db, s), LineageOf(s.w), s.report.expectedActive)
  {
    hide Complete, Apply;
    SwitchEffect(db, s);
    assert ActiveIn(Apply(db, s), LineageOf(s.w), s.target.id);
  }

  lemma StaysSpent(db: Db, s: Step, l: Lineage, e: Option<Id>)
    requires OneActive(db) && Spent(db, l, e)
    requires !s.ClearModels? && (s.Submit? ==> s.report.action != Rollback)
    ensures Spent(Apply(db, s), l, e)
  {
    hide Complete;
    var next := Apply(db, s);
    assert db.models.Keys <= next.models.Keys by { KeysGrow(db, s); }
    if e.Some? {
      StatusMoves(db, s, e.value);
    } else {
      var id: Id :| ActiveIn(db, l, id);
      if Switches(db, s) {
        SwitchEffect(db, s);
        if LineageOf(s.w) == l {
          assert ActiveIn(next, l, s.target.id);
        } else {
          assert ActiveIn(next, l, id);
        }
      } else {
        if s.Submit? { ReportEffect(db, s); }
        assert ActiveIn(next, l, id);
      }
    }
  }

  lemma KeysGrow(db: Db, s: Step)
    requires !s.ClearModels?
    ensures db.models.Keys <= Apply(db, s).models.Keys
  {
  }

  lemma {:induction false} SpentForever(db: Db, run: seq<Step>, i: nat, j: nat, l: Lineage, e: Option<Id>)
    requires OneActive(db) && i <= j <= |run| && NoRollbackOrClearing(run)
    requires Spent(After(db, run, i), l, e)
    ensures Spent(After(db, run, j), l, e)
    decreases j - i
  {
    hide OneActive, Apply, Spent;
    if i < j {
      SpentForever(db, run, i, j - 1, l, e);
      RunKeepsOneActive(db, run, j - 1);
      StaysSpent(After(db, run, j - 1), run[j - 1], l, e);
    }
  }

  /** However reports are delayed, repeated or reordered, at most one of those
      naming the same expected champion of a lineage ever switches. */
  lemma AtMostOneSwitch(db: Db, run: seq<Step>, i: nat, j: nat)
    requires OneActive(db) && i < j < |run| && NoRollbackOrClearing(run)
    requires Switches(After(db, run, i), run[i]) && Switches(After(db, run, j), run[j])
    ensures LineageOf(run[i].w) != LineageOf(run[j].w) || run[i].report.expectedActive != run[j].report.expectedActive
  {
    hide OneActive, Apply, Spent, Complete;
    RunKeepsOneActive(db, run, i);
    RunKeepsOneActive(db, run, j);
    var l, e := LineageOf(run[i].w), run[i].report.expectedActive;
    SwitchSpends(After(db, run, i), run[i]);
    SpentForever(db, run, i + 1, j, l, e);
    SpentIsNotActive(After(db, run, j), l, e);
    SwitchEffect(After(db, run, j), run[j]);
  }
}
