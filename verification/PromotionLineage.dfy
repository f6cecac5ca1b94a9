/** Evaluations under the per-workload lock: between reading the model versions
    and committing the report, candidates may be created, policies change and
    models be cleared, but no other evaluation of the same workload runs. The
    rollback links and the audit lists stay consistent in every reachable state. */
module PromotionLineage {
  import opened Wrappers
  import opened Observations
  import opened Promotion
  import opened PromotionStore
  import opened PromotionSafety
  import opened PromotionAgreement

  // ----- EvaluationModels

  function SnapshotOf(id: Id, row: Row): Snapshot {
    Snapshot(id, row.engine, row.status, row.trainedUntil, row.createdAt, row.activatedAt, row.contract, row.report)
  }

  ghost predicate HasStatus(db: Db, l: Lineage, id: Id, status: Status) {
    id in db.models && db.models[id].lineage == l && db.models[id].status == status
  }

  /** A candidate that may still be promoted: newer than every active model of
      the lineage, and neither rejected nor unusable. */
  ghost predicate Promotable(db: Db, l: Lineage, id: Id) {
    && HasStatus(db, l, id, CandidateModel)
    && db.models[id].report.action != Rejected
    && db.models[id].report.reason !in {IncompatibleContract, CandidateExpired, InvalidArtifact,
                                        InvalidTrainingBoundary}
    && (forall a :: HasStatus(db, l, a, ActiveModel) ==> db.models[id].createdAt > db.models[a].createdAt)
    && (ActiveId(db, l).None? ==> db.models[id].createdAt > EPOCH)
  }

  /** The query result: the active model, the oldest promotable candidate and
      the newest retired model. Ties in created_at may go either way. */
  ghost predicate IsQueue(db: Db, l: Lineage, v: Versions) {
    && (ActiveId(db, l).None? ==> v.active == None)
    && (ActiveId(db, l).Some? ==> var id := ActiveId(db, l).value; v.active == Some(SnapshotOf(id, db.models[id])))
    && (v.candidate.None? ==> forall id :: !Promotable(db, l, id))
    && (v.candidate.Some? ==> var id := v.candidate.value.id;
          Promotable(db, l, id) && v.candidate.value == SnapshotOf(id, db.models[id]) &&
          forall other :: Promotable(db, l, other) ==> db.models[id].createdAt <= db.models[other].createdAt)
    && (v.previous.None? ==> forall id :: !HasStatus(db, l, id, RetiredModel))
    && (v.previous.Some? ==> var id := v.previous.value.id;
          HasStatus(db, l, id, RetiredModel) && v.previous.value == SnapshotOf(id, db.models[id]) &&
          forall other :: HasStatus(db, l, other, RetiredModel) ==>
            db.models[other].createdAt <= db.models[id].createdAt)
  }

  lemma QueueIsWellRead(db: Db, l: Lineage, v: Versions)
    requires IsQueue(db, l, v)
    ensures WellRead(v)
  {
  }

  lemma TargetIsRead(db: Db, l: Lineage, v: Versions, t: Snapshot)
    requires IsQueue(db, l, v)
    requires v.candidate == Some(t) || v.active == Some(t) || v.previous == Some(t)
    ensures t.id in db.models && db.models[t.id].lineage == l && t == SnapshotOf(t.id, db.models[t.id])
  {
  }

  // ----- the system

  /** An evaluation that holds the lock and has decided its report. */
  datatype Pending = Pending(w: Workload, target: Snapshot, report: Report)

  /** `used` are the ids ever handed out; `log` records every report stored on
      a model. */
  datatype System = System(db: Db, pending: map<Id, Pending>, used: set<Id>, log: map<Id, seq<Report>>)

  datatype Event =
    | Begin(w: Workload, p: Policy, period: Duration, now: int, loads: Id -> bool, outcome: Outcome, v: Versions)
    | Finish(workload: Id, clocks: Clocks)
    | Abandon(workload: Id)
    | Create(id: Id, lineage: Lineage, engine: Id, contract: Contract, trainedUntil: int, createdAt: int)
    | Clear(workload: Id)
    | Change(workload: Id, value: WorkloadRow)

  ghost predicate Enabled(s: System, e: Event) {
    match e
    case Begin(w, p, period, now, loads, outcome, v) =>
      && w.id !in s.pending && ValidPolicy(p) && IsQueue(s.db, LineageOf(w), v)
      && Judge(p, w, period, v, now, loads, outcome).Some?
    case Finish(id, _) => id in s.pending
    case Abandon(id) => id in s.pending
    case Create(id, _, _, _, _, _) => id !in s.used
    case Clear(_) => true
    case Change(_, _) => true
  }

  ghost function Next(s: System, e: Event): System
    requires Enabled(s, e)
  {
    match e
    case Begin(w, p, period, now, loads, outcome, v) =>
      var sub := Judge(p, w, period, v, now, loads, outcome).value;
      s.(pending := s.pending[w.id := Pending(w, sub.target, sub.report)])
    case Finish(id, c) =>
      var pd := s.pending[id];
      var result := Complete(s.db, pd.w, pd.target, pd.report, c);
      if result.Err? then s.(pending := s.pending - {id})
      else
        var before := if pd.target.id in s.log then s.log[pd.target.id] else [];
        s.(db := result.value, pending := s.pending - {id},
           log := s.log[pd.target.id := before + [KeepLink(pd.report, pd.target)]])
    case Abandon(id) => s.(pending := s.pending - {id})
    case Create(id, l, engine, contract, trainedUntil, createdAt) =>
      var row := NewRow(l, engine, contract, trainedUntil, createdAt);
      s.(db := s.db.(models := s.db.models[id := row]), used := s.used + {id}, log := s.log[id := []])
    case Clear(workload) => s.(db := s.db.(models := Cleared(s.db.models, workload)))
    case Change(workload, value) => s.(db := s.db.(workloads := s.db.workloads[workload := value]))
  }

  // ----- the invariant

  /** Model id's rollback link x names another model of its lineage that has
      been active; the active model's link names a retired one. */
  ghost predicate Linked(m: map<Id, Row>, id: Id, x: Id)
    requires id in m
  {
    && x in m && x != id && m[x].lineage == m[id].lineage && m[x].status != CandidateModel
    && (m[id].status == ActiveModel ==> m[x].status == RetiredModel)
  }

  ghost predicate LinkOk(m: map<Id, Row>, id: Id)
    requires id in m
  {
    m[id].report.previous.Some? ==> Linked(m, id, m[id].report.previous.value)
  }

  ghost predicate AuditOk(row: Row, log: seq<Report>) {
    && row.history == LastN(log, 20)
    && row.report == if log == [] then NO_REPORT else log[|log| - 1]
  }

  /** The decided report carries the expected champion, the target's own link,
      or no link. */
  ghost predicate LinkChoice(pd: Pending) {
    var r := pd.report;
    || (r.previous == r.expectedActive && r.expectedActive != Some(pd.target.id))
    || ((r.previous.None? || r.previous == pd.target.report.previous) && !Activates(r.action))
  }

  /** Every activation in the log was justified for a model with this fit, and a
      model that is or was active has one. */
  ghost predicate Justified(row: Row, log: seq<Report>) {
    && (forall k :: 0 <= k < |log| && Activates(log[k].action) ==> Justifies(log[k], row.trainedUntil))
    && (row.status != CandidateModel ==> exists k :: 0 <= k < |log| && Activates(log[k].action))
  }

  ghost predicate PendingOk(s: System, pd: Pending) {
    && pd.target.id in s.used && LinkChoice(pd)
    && (pd.target.id in s.db.models ==>
          s.db.models[pd.target.id].report.previous == pd.target.report.previous &&
          s.db.models[pd.target.id].lineage == LineageOf(pd.w))
  }

  ghost predicate Inv(s: System) {
    && OneActive(s.db)
    && s.db.models.Keys <= s.used
    && (forall id :: id in s.db.models ==> LinkOk(s.db.models, id))
    && (forall id :: id in s.db.models ==> id in s.log && AuditOk(s.db.models[id], s.log[id]))
    && (forall id :: id in s.db.models ==> Justified(s.db.models[id], s.log[id]))
    && (forall k :: k in s.pending ==> s.pending[k].w.id == k && PendingOk(s, s.pending[k]))
  }

  // ----- what a decided report carries

  lemma CandidateLink(p: Policy, base: Report, t: Snapshot, v: Versions)
    requires base.previous.None? && base.action == Withheld && base.expectedActive == ExpectedActive(v)
    requires v.active.Some? ==> v.active.value.id != t.id
    ensures var sub := JudgeCandidate(p, base, t, v); forall w :: LinkChoice(Pending(w, sub.target, sub.report))
    ensures JudgeCandidate(p, base, t, v).target == t
  {
    hide Gate;
  }

  lemma ActiveLink(p: Policy, base: Report, v: Versions, rollback: bool)
    requires base.previous.None? && base.action == Withheld && base.expectedActive == ExpectedActive(v)
    requires v.active.Some? && (rollback ==> v.previous.Some? && v.previous.value.id != v.active.value.id)
    ensures var sub := JudgeActive(p, base, v, rollback); forall w :: LinkChoice(Pending(w, sub.target, sub.report))
    ensures var sub := JudgeActive(p, base, v, rollback);
            sub.target == v.active.value
            || (rollback && sub.target == v.previous.value)
  {
    hide Gate, CanRevalidate;
  }

  /** Whatever an evaluation decides, its link choice is sound and its target is
      one of the versions it read. */
  lemma JudgedLink(p: Policy, w: Workload, period: Duration, v: Versions, now: int, loads: Id -> bool, outcome: Outcome)
    requires Judge(p, w, period, v, now, loads, outcome).Some?
    requires v.active.Some? && v.candidate.Some? ==> v.active.value.id != v.candidate.value.id
    requires v.active.Some? && v.previous.Some? ==> v.active.value.id != v.previous.value.id
    ensures var sub := Judge(p, w, period, v, now, loads, outcome).value;
            && LinkChoice(Pending(w, sub.target, sub.report))
            && (v.candidate == Some(sub.target) || v.active == Some(sub.target) || v.previous == Some(sub.target))
  {
    hide Fresh, JudgeCandidate, JudgeActive;
    var plan, base := MakePlan(p, w, period, v, now, loads), BaseReport(p, w, period, v, now);
    if plan.Compare? && outcome.Scored? {
      var scored := base.(evidence := outcome.evidence);
      if ConsideredCandidate(v).Some? { CandidateLink(p, scored, plan.target, v); }
      else { ActiveLink(p, scored, v, plan.rollback); }
    }
  }

  // ----- preservation

  lemma BeginKeeps(s: System, e: Event)
    requires Inv(s) && e.Begin? && Enabled(s, e)
    ensures Inv(Next(s, e))
  {
    hide Judge, LinkChoice, LinkOk, AuditOk, OneActive;
    var l, v := LineageOf(e.w), e.v;
    JudgedLink(e.p, e.w, e.period, v, e.now, e.loads, e.outcome);
    var sub := Judge(e.p, e.w, e.period, v, e.now, e.loads, e.outcome).value;
    TargetIsRead(s.db, l, v, sub.target);
    assert PendingOk(s, Pending(e.w, sub.target, sub.report));
    var t := Next(s, e);
    forall k | k in t.pending ensures t.pending[k].w.id == k && PendingOk(t, t.pending[k]) {
      if k != e.w.id { assert PendingOk(s, s.pending[k]); }
    }
  }

  /** What a row has from its creation on. */
  predicate SameBirth(a: Row, b: Row) {
    a.lineage == b.lineage && a.engine == b.engine && a.contract == b.contract
    && a.trainedUntil == b.trainedUntil && a.createdAt == b.createdAt
  }

  /** What an accepted report leaves of the rows, besides the switch. */
  lemma StoredRows(db: Db, pd: Pending, c: Clocks)
    requires Complete(db, pd.w, pd.target, pd.report, c).Ok?
    ensures var m', t := Complete(db, pd.w, pd.target, pd.report, c).value.models, pd.target.id;
            && m'.Keys == db.models.Keys && t in m' && db.models[t].lineage == LineageOf(pd.w)
            && ActiveId(db, LineageOf(pd.w)) == pd.report.expectedActive
            && m'[t].report == KeepLink(pd.report, pd.target)
            && m'[t].history == Audit(db.models[t].history, KeepLink(pd.report, pd.target))
            && (forall id :: id in m' ==> SameBirth(m'[id], db.models[id]))
            && (forall id :: id in m' && id != t ==>
                  m'[id].report == db.models[id].report && m'[id].history == db.models[id].history)
            && (!Activates(pd.report.action) ==> forall id :: id in m' ==> m'[id].status == db.models[id].status)
  {
    hide Fresh, Gate, CanRevalidate, Activatable, Renewable;
  }

  /** The link an accepted report leaves on its target: the expected champion,
      or the link the row had. */
  lemma StoredLink(s: System, pd: Pending, c: Clocks)
    requires Inv(s) && PendingOk(s, pd) && Complete(s.db, pd.w, pd.target, pd.report, c).Ok?
    ensures var m', t := Complete(s.db, pd.w, pd.target, pd.report, c).value.models, pd.target.id;
            && t in m' && t in s.db.models
            && (m'[t].report.previous == s.db.models[t].report.previous
                || (m'[t].report.previous == pd.report.expectedActive && pd.report.expectedActive.Some?
                    && pd.report.expectedActive != Some(t)))
            && (Activates(pd.report.action) && pd.report.expectedActive.Some? ==>
                  m'[t].report.previous == pd.report.expectedActive && pd.report.expectedActive != Some(t))
  {
    hide Complete, LinkOk, AuditOk, OneActive;
    StoredRows(s.db, pd, c);
  }

  /** The links after an accepted report that does not switch. */
  lemma StoredLinks(s: System, pd: Pending, c: Clocks)
    requires Inv(s) && PendingOk(s, pd) && Complete(s.db, pd.w, pd.target, pd.report, c).Ok?
             && !Activates(pd.report.action)
    ensures var m := Complete(s.db, pd.w, pd.target, pd.report, c).value.models; forall id :: id in m ==> LinkOk(m, id)
  {
    hide Complete, AuditOk, PendingOk;
    var m, m', t := s.db.models, Complete(s.db, pd.w, pd.target, pd.report, c).value.models, pd.target.id;
    StoredRows(s.db, pd, c);
    StoredLink(s, pd, c);
    forall id | id in m' ensures LinkOk(m', id) {
      assert LinkOk(m, id);
      if id == t && m'[t].report.previous != m[t].report.previous {
        var a := pd.report.expectedActive.value;
        assert ActiveIn(s.db, LineageOf(pd.w), a);
        assert m[t].status == ActiveModel ==> ActiveIn(s.db, LineageOf(pd.w), t);
      }
    }
  }

  /** The statuses an accepted switch leaves. */
  lemma SwitchedStatuses(db: Db, pd: Pending, c: Clocks)
    requires OneActive(db) && Complete(db, pd.w, pd.target, pd.report, c).Ok? && Activates(pd.report.action)
    ensures var m, m', t := db.models, Complete(db, pd.w, pd.target, pd.report, c).value.models, pd.target.id;
            && m'.Keys == m.Keys && t in m && m[t].status != ActiveModel && m'[t].status == ActiveModel
            && pd.report.expectedActive != Some(t)
            && (forall id :: id in m && id != t ==>
                  m'[id].status == if Some(id) == pd.report.expectedActive then RetiredModel else m[id].status)
  {
    hide Complete, OneActive;
    SwitchEffect(db, Submit(pd.w, pd.target, pd.report, c));
  }

  /** After a switch the target's link names the champion it replaced, or is what
      it was when it replaced none. */
  lemma TargetLink(s: System, pd: Pending, c: Clocks)
    requires Inv(s) && PendingOk(s, pd) && Complete(s.db, pd.w, pd.target, pd.report, c).Ok?
             && Activates(pd.report.action)
    ensures var m := Complete(s.db, pd.w, pd.target, pd.report, c).value.models;
            pd.target.id in m
            && LinkOk(m, pd.target.id)
  {
    hide Complete, AuditOk, PendingOk, OneActive, Justified, Apply;
    var m, t := s.db.models, pd.target.id;
    SwitchedStatuses(s.db, pd, c);
    StoredRows(s.db, pd, c);
    StoredLink(s, pd, c);
    assert LinkOk(m, t);
    if pd.report.expectedActive.None? && m[t].report.previous.Some? {
      assert !ActiveIn(s.db, LineageOf(pd.w), m[t].report.previous.value);
    }
  }

  lemma OtherLink(s: System, pd: Pending, c: Clocks, id: Id)
    requires Inv(s) && PendingOk(s, pd) && Complete(s.db, pd.w, pd.target, pd.report, c).Ok?
             && Activates(pd.report.action)
    requires id in s.db.models && id != pd.target.id
    ensures var m := Complete(s.db, pd.w, pd.target, pd.report, c).value.models; id in m && LinkOk(m, id)
  {
    hide Complete, AuditOk, PendingOk, OneActive, Justified, Apply;
    var m, m' := s.db.models, Complete(s.db, pd.w, pd.target, pd.report, c).value.models;
    SwitchedStatuses(s.db, pd, c);
    StoredRows(s.db, pd, c);
    assert LinkOk(m, id);
    if m'[id].status == ActiveModel {
      assert ActiveIn(s.db, m[id].lineage, id);
      OtherLineage(s.db, pd, id);
    }
  }

  /** The links after a switch. */
  lemma SwitchedLinks(s: System, pd: Pending, c: Clocks)
    requires Inv(s) && PendingOk(s, pd) && Complete(s.db, pd.w, pd.target, pd.report, c).Ok?
             && Activates(pd.report.action)
    ensures var m := Complete(s.db, pd.w, pd.target, pd.report, c).value.models; forall id :: id in m ==> LinkOk(m, id)
  {
    hide Complete, Inv, PendingOk, LinkOk;
    var m' := Complete(s.db, pd.w, pd.target, pd.report, c).value.models;
    StoredRows(s.db, pd, c);
    forall id | id in m' ensures LinkOk(m', id) {
      if id == pd.target.id { TargetLink(s, pd, c); } else { OtherLink(s, pd, c, id); }
    }
  }

  /** A model that stays active through another model's switch belongs to
      another lineage. */
  lemma OtherLineage(db: Db, pd: Pending, id: Id)
    requires OneActive(db) && id in db.models && db.models[id].status == ActiveModel
    requires ActiveId(db, LineageOf(pd.w)) == pd.report.expectedActive && pd.report.expectedActive != Some(id)
    ensures db.models[id].lineage != LineageOf(pd.w)
  {
    assert db.models[id].lineage == LineageOf(pd.w) ==> ActiveIn(db, LineageOf(pd.w), id);
  }

  lemma FinishKeepsAudit(s: System, pd: Pending, c: Clocks)
    requires Inv(s) && Complete(s.db, pd.w, pd.target, pd.report, c).Ok?
    ensures var m, id := Complete(s.db, pd.w, pd.target, pd.report, c).value.models, pd.target.id;
            && m.Keys == s.db.models.Keys && id in m && id in s.log
            && AuditOk(m[id], s.log[id] + [KeepLink(pd.report, pd.target)])
            && forall other :: other in m && other != id ==> AuditOk(m[other], s.log[other])
  {
    hide Complete, KeepLink, Audit, LastN, LinkOk, OneActive, PendingOk, Justified;
    StoredRows(s.db, pd, c);
    var id := pd.target.id;
    assert AuditOk(s.db.models[id], s.log[id]);
    AuditKeepsLastTwenty(s.log[id], s.db.models[id].history, KeepLink(pd.report, pd.target));
    var m := Complete(s.db, pd.w, pd.target, pd.report, c).value.models;
    forall other | other in m && other != id ensures AuditOk(m[other], s.log[other]) {
      assert AuditOk(s.db.models[other], s.log[other]);
    }
  }

  lemma LogGrows(row: Row, after: Row, log: seq<Report>, r: Report)
    requires Justified(row, log) && after.trainedUntil == row.trainedUntil
    requires Activates(r.action) ==> Justifies(r, row.trainedUntil)
    requires Activates(r.action) || after.status == row.status
    ensures Justified(after, log + [r])
  {
    hide Justifies;
    var longer := log + [r];
    if Activates(r.action) {
      assert Activates(longer[|log|].action);
    } else if row.status != CandidateModel {
      var k :| 0 <= k < |log| && Activates(log[k].action);
      assert longer[k] == log[k];
    }
  }

  /** A report that is stored on its target justifies the switch it makes; the
      champion that retires was justified before. */
  lemma FinishKeepsJustified(s: System, pd: Pending, c: Clocks)
    requires Inv(s) && Complete(s.db, pd.w, pd.target, pd.report, c).Ok?
    ensures var m, id := Complete(s.db, pd.w, pd.target, pd.report, c).value.models, pd.target.id;
            && m.Keys == s.db.models.Keys && id in m && id in s.log
            && Justified(m[id], s.log[id] + [KeepLink(pd.report, pd.target)])
            && forall other :: other in m && other != id ==> Justified(m[other], s.log[other])
  {
    hide Complete, LinkOk, AuditOk, PendingOk, Justifies, Apply;
    var step, id := Submit(pd.w, pd.target, pd.report, c), pd.target.id;
    var m := Complete(s.db, pd.w, pd.target, pd.report, c).value.models;
    StoredRows(s.db, pd, c);
    KeptLinkJustifies(pd.report, pd.target, s.db.models[id].trainedUntil);
    if Activates(pd.report.action) { SwitchIsJustified(s.db, step); }
    forall other | other in m
      ensures m[other].trainedUntil == s.db.models[other].trainedUntil
      ensures other != id && m[other].status != s.db.models[other].status ==> s.db.models[other].status == ActiveModel
    {
      StoredFits(s.db, pd, c, other);
    }
    assert Justified(s.db.models[id], s.log[id]);
    LogGrows(s.db.models[id], m[id], s.log[id], KeepLink(pd.report, pd.target));
    forall other | other in m && other != id ensures Justified(m[other], s.log[other]) {
      assert Justified(s.db.models[other], s.log[other]);
    }
  }

  lemma KeptLinkJustifies(r: Report, target: Snapshot, trainedUntil: int)
    ensures KeepLink(r, target).action == r.action
    ensures Justifies(KeepLink(r, target), trainedUntil) <==> Justifies(r, trainedUntil)
  {
    hide Gate;
  }

  lemma StoredFits(db: Db, pd: Pending, c: Clocks, other: Id)
    requires OneActive(db) && Complete(db, pd.w, pd.target, pd.report, c).Ok? && other in db.models
    ensures var m := Complete(db, pd.w, pd.target, pd.report, c).value.models;
            && other in m && m[other].trainedUntil == db.models[other].trainedUntil
            && (other != pd.target.id && m[other].status != db.models[other].status ==>
                db.models[other].status == ActiveModel)
  {
    hide Complete;
    var step := Submit(pd.w, pd.target, pd.report, c);
    assert Apply(db, step) == Complete(db, pd.w, pd.target, pd.report, c).value;
    StoredRows(db, pd, c);
    FitsStay(db, step, other);
    StatusMoves(db, step, other);
  }

  lemma FinishKeepsOthersPending(s: System, id: Id, c: Clocks, k: Id)
    requires Inv(s) && id in s.pending && k in s.pending && k != id
    ensures PendingOk(Next(s, Finish(id, c)), s.pending[k])
  {
    hide Fresh, Gate, CanRevalidate, Activatable, Renewable, LinkOk, AuditOk, OneActive, LinkChoice;
    var pd, other := s.pending[id], s.pending[k];
    assert PendingOk(s, other) && PendingOk(s, pd);
    assert LineageOf(pd.w) != LineageOf(other.w);
  }

  lemma FinishKeeps(s: System, e: Event)
    requires Inv(s) && e.Finish? && Enabled(s, e)
    ensures Inv(Next(s, e))
  {
    hide Complete, LinkOk, AuditOk, OneActive, PendingOk, Justified;
    var pd, t := s.pending[e.workload], Next(s, e);
    forall k | k in t.pending ensures t.pending[k].w.id == k && PendingOk(t, t.pending[k]) {
      FinishKeepsOthersPending(s, e.workload, e.clocks, k);
    }
    if Complete(s.db, pd.w, pd.target, pd.report, e.clocks).Ok? {
      ApplyKeepsOneActive(s.db, Submit(pd.w, pd.target, pd.report, e.clocks));
      FinishKeepsAudit(s, pd, e.clocks);
      FinishKeepsJustified(s, pd, e.clocks);
      if Activates(pd.report.action) { SwitchedLinks(s, pd, e.clocks); } else { StoredLinks(s, pd, e.clocks); }
    }
  }

  lemma ClearKeepsLinks(s: System, workload: Id)
    requires Inv(s)
    ensures var m := Cleared(s.db.models, workload); forall id :: id in m ==> LinkOk(m, id)
  {
    hide AuditOk, OneActive, PendingOk;
    var m := Cleared(s.db.models, workload);
    forall id | id in m ensures LinkOk(m, id) {
      assert LinkOk(s.db.models, id);
    }
  }

  /** What is pending stays in order while the rows it is about stay or go. */
  lemma PendingKeeps(s: System, t: System)
    requires Inv(s) && s.used <= t.used && t.pending.Keys <= s.pending.Keys
    requires forall k :: k in t.pending ==> t.pending[k] == s.pending[k]
    requires forall id :: id in t.db.models && id in s.used ==>
               id in s.db.models && t.db.models[id].report == s.db.models[id].report
               && t.db.models[id].lineage == s.db.models[id].lineage
    ensures forall k :: k in t.pending ==> t.pending[k].w.id == k && PendingOk(t, t.pending[k])
  {
    hide LinkOk, AuditOk, OneActive, Justified, LinkChoice;
    forall k | k in t.pending ensures t.pending[k].w.id == k && PendingOk(t, t.pending[k]) {
      assert PendingOk(s, s.pending[k]);
    }
  }

  lemma AbandonKeeps(s: System, e: Event)
    requires Inv(s) && Enabled(s, e) && e.Abandon?
    ensures Inv(Next(s, e))
  {
    hide LinkOk, AuditOk, OneActive, Justified, PendingOk;
    PendingKeeps(s, Next(s, e));
  }

  lemma CreateKeeps(s: System, e: Event)
    requires Inv(s) && Enabled(s, e) && e.Create?
    ensures Inv(Next(s, e))
  {
    hide AuditOk, OneActive, Justified, PendingOk, LinkOk;
    var t, row := Next(s, e), NewRow(e.lineage, e.engine, e.contract, e.trainedUntil, e.createdAt);
    FewerActives(s.db, NewCandidate(e.id, row));
    assert Apply(s.db, NewCandidate(e.id, row)) == t.db;
    NothingAudited(row);
    PendingKeeps(s, t);
    NewRowKeepsLinks(s.db.models, e.id, row);
  }

  lemma NewRowKeepsLinks(m: map<Id, Row>, id: Id, row: Row)
    requires id !in m && row.report.previous.None? && forall i :: i in m ==> LinkOk(m, i)
    ensures var m' := m[id := row]; forall i :: i in m' ==> LinkOk(m', i)
  {
    var m' := m[id := row];
    forall i | i in m' ensures LinkOk(m', i) {
      if i != id { assert LinkOk(m, i); }
    }
  }

  lemma ClearKeeps(s: System, e: Event)
    requires Inv(s) && Enabled(s, e) && e.Clear?
    ensures Inv(Next(s, e))
  {
    hide LinkOk, AuditOk, OneActive, Justified, PendingOk;
    FewerActives(s.db, ClearModels(e.workload));
    ClearKeepsLinks(s, e.workload);
    PendingKeeps(s, Next(s, e));
  }

  lemma ChangeKeeps(s: System, e: Event)
    requires Inv(s) && Enabled(s, e) && e.Change?
    ensures Inv(Next(s, e))
  {
    hide LinkOk, AuditOk, OneActive, Justified, PendingOk;
    FewerActives(s.db, ChangeWorkload(e.workload, e.value));
    PendingKeeps(s, Next(s, e));
  }

  lemma NothingAudited(row: Row)
    requires row.report == NO_REPORT && row.history == [] && row.status == CandidateModel
    ensures AuditOk(row, []) && Justified(row, [])
  {
  }

  lemma NextKeeps(s: System, e: Event)
    requires Inv(s) && Enabled(s, e)
    ensures Inv(Next(s, e))
  {
    hide Inv, Next, Enabled;
    match e
    case Begin(_, _, _, _, _, _, _) => BeginKeeps(s, e);
    case Finish(_, _) => FinishKeeps(s, e);
    case Abandon(_) => AbandonKeeps(s, e);
    case Create(_, _, _, _, _, _) => CreateKeeps(s, e);
    case Clear(_) => ClearKeeps(s, e);
    case Change(_, _) => ChangeKeeps(s, e);
  }

  ghost predicate IsRun(states: seq<System>, events: seq<Event>) {
    && |states| == |events| + 1
    && states[0].db.models == map[] && states[0].pending == map[]
    && forall i :: 0 <= i < |events| ==> Enabled(states[i], events[i]) && states[i + 1] == Next(states[i], events[i])
  }

  /** In every reachable state each active model's link is empty or names a
      retired model of its lineage, each audit list is the last twenty of the
      model's reports, and every activation was justified. */
  lemma {:induction false} RunsKeepInvariant(states: seq<System>, events: seq<Event>, i: nat)
    requires IsRun(states, events) && i < |states|
    ensures Inv(states[i])
  {
    hide Inv, Next, Enabled;
    if i == 0 {
      EmptySystem(states[0]);
    } else {
      RunsKeepInvariant(states, events, i - 1);
      assert Enabled(states[i - 1], events[i - 1]);
      NextKeeps(states[i - 1], events[i - 1]);
    }
  }

  lemma EmptySystem(s: System)
    requires s.db.models == map[] && s.pending == map[]
    ensures Inv(s)
  {
  }

  /** In every reachable state, a model that is or was active has in its log a
      report that activated it on evidence from after its fit, which the gate
      promotes; and so does every other activation in the log. */
  lemma ActiveModelsWereJustified(states: seq<System>, events: seq<Event>, i: nat, id: Id) returns (k: nat)
    requires IsRun(states, events) && i < |states|
    requires id in states[i].db.models && states[i].db.models[id].status != CandidateModel
    ensures id in states[i].log && k < |states[i].log[id]|
    ensures Justifies(states[i].log[id][k], states[i].db.models[id].trainedUntil)
  {
    hide LinkOk, AuditOk, PendingOk, OneActive, Justifies, Enabled, Next;
    RunsKeepInvariant(states, events, i);
    var s := states[i];
    assert Justified(s.db.models[id], s.log[id]);
    k :| 0 <= k < |s.log[id]| && Activates(s.log[id][k].action);
  }

  lemma ActiveLinkIsRetired(s: System, id: Id)
    requires Inv(s) && id in s.db.models && s.db.models[id].status == ActiveModel
    ensures var link := s.db.models[id].report.previous;
            link.Some? ==> link.value in s.db.models && s.db.models[link.value].status == RetiredModel
                           && s.db.models[link.value].lineage == s.db.models[id].lineage
  {
    assert LinkOk(s.db.models, id);
  }

  /** An accepted rollback makes exactly the model its champion's link names
      active, retires the champion, and points the link back at it. */
  lemma RollbackFollowsLink(s: System, id: Id, c: Clocks)
    requires Inv(s) && id in s.pending && s.pending[id].report.action == Rollback
    requires var pd := s.pending[id]; Complete(s.db, pd.w, pd.target, pd.report, c).Ok?
    ensures var pd := s.pending[id];
            var champion, m := ActiveId(s.db, LineageOf(pd.w)), Next(s, Finish(id, c)).db.models;
            && champion.Some? && s.db.models[champion.value].report.previous == Some(pd.target.id)
            && m.Keys == s.db.models.Keys && pd.target.id in m
            && m[pd.target.id].status == ActiveModel && m[champion.value].status == RetiredModel
            && m[pd.target.id].report.previous == champion
  {
    hide Complete, Justifies, Justified, LinkOk, AuditOk, OneActive;
    var pd := s.pending[id];
    var step := Submit(pd.w, pd.target, pd.report, c);
    assert PendingOk(s, pd);
    StoredRows(s.db, pd, c);
    SwitchEffect(s.db, step);
    SwitchIsJustified(s.db, step);
  }

  lemma QueueIsApart(db: Db, l: Lineage, v: Versions)
    requires IsQueue(db, l, v)
    ensures v.active.Some? && v.candidate.Some? ==> v.active.value.id != v.candidate.value.id
    ensures v.active.Some? && v.previous.Some? ==> v.active.value.id != v.previous.value.id
  {
  }

  lemma ReadIsUnchanged(db: Db, w: Workload, v: Versions, target: Snapshot)
    requires IsQueue(db, LineageOf(w), v)
    requires w.id in db.workloads && db.workloads[w.id] == WorkloadRow(w.policyRevision, w.fingerprint, w.engine, true)
    requires v.candidate == Some(target) || v.active == Some(target) || v.previous == Some(target)
    ensures Unchanged(db, w, v, target)
  {
    hide Promotable;
    TargetIsRead(db, LineageOf(w), v, target);
    if v.active.Some? { TargetIsRead(db, LineageOf(w), v, v.active.value); }
  }

  /** An evaluation that commits on the very state it read, within ten minutes:
      its binding report is stored exactly when the target has the workload's
      engine. */
  lemma UninterruptedEvaluationCommits(s: System, e: Event, c: Clocks)
    requires Inv(s) && e.Begin? && Enabled(s, e) && e.outcome.Scored? && Prompt(e.now, c)
    requires var plan := MakePlan(e.p, e.w, e.period, e.v, e.now, e.loads); plan.Compare? ==>
             Answers(e.outcome.evidence, plan, e.p)
    requires e.w.id in s.db.workloads && s.db.workloads[e.w.id] ==
             WorkloadRow(e.w.policyRevision, e.w.fingerprint, e.w.engine, true)
    requires var sub := Judge(e.p, e.w, e.period, e.v, e.now, e.loads, e.outcome).value;
             Binding(sub.report.action)
    ensures var pd := Next(s, e).pending[e.w.id];
            Complete(Next(s, e).db, pd.w, pd.target, pd.report, c).Ok? <==> pd.target.engine == e.w.engine
  {
    hide Inv, Judge, MakePlan, Complete, IsQueue, Answers, Unchanged;
    QueueIsWellRead(s.db, LineageOf(e.w), e.v);
    QueueIsApart(s.db, LineageOf(e.w), e.v);
    JudgedLink(e.p, e.w, e.period, e.v, e.now, e.loads, e.outcome);
    var sub := Judge(e.p, e.w, e.period, e.v, e.now, e.loads, e.outcome).value;
    ReadIsUnchanged(s.db, e.w, e.v, sub.target);
    LayersAgree(s.db, e.p, e.w, e.period, e.v, e.now, e.loads, e.outcome.evidence, c);
  }
}
