/** Whose turn it is: a champion and a pending candidate share the evaluations of
    their workload, one at a time. When the turn passes from one to the other,
    over whole runs of the system of module PromotionLineage. */
module PromotionTurns {
  import opened Wrappers
  import opened Observations
  import opened Scoring
  import opened Comparison
  import opened Promotion
  import opened PromotionStore
  import opened PromotionAgreement
  import opened PromotionLineage

  predicate CandidatesTurn(v: Versions) { ConsideredCandidate(v).Some? }

  /** Champion a and the newer candidate c both wait for evaluations. */
  predicate Facing(v: Versions, a: Id, c: Id) {
    && v.active.Some? && v.active.value.id == a
    && v.candidate.Some? && v.candidate.value.id == c
    && v.candidate.value.createdAt > v.active.value.createdAt
  }

  /** The report is stored on the previous model. */
  predicate GoesToPrevious(r: Report) { r.action == Rollback || r.action == ShadowRollback }

  lemma DecidedTarget(p: Policy, w: Workload, period: Duration, v: Versions, now: int, loads: Id -> bool,
                      outcome: Outcome)
    requires Judge(p, w, period, v, now, loads, outcome).Some?
    ensures var sub := Judge(p, w, period, v, now, loads, outcome).value;
            && sub.report.at == now
            && (CandidatesTurn(v) ==> v.candidate == Some(sub.target) && !GoesToPrevious(sub.report))
            && (!CandidatesTurn(v) ==>
                (if GoesToPrevious(sub.report) then v.previous else v.active) == Some(sub.target))
  {
    hide Fresh, Gate, CanRevalidate;
  }

  // ----- between two evaluations

  /** A report of this workload is stored. */
  ghost predicate Stores(s: System, e: Event, id: Id) {
    && e.Finish? && e.workload == id && id in s.pending
    && Complete(s.db, s.pending[id].w, s.pending[id].target, s.pending[id].report, e.clocks).Ok?
  }

  ghost predicate Quiet(states: seq<System>, events: seq<Event>, id: Id, i: nat, j: nat)
    requires |states| == |events| + 1 && j <= |events|
  {
    forall k :: i <= k < j ==> !Stores(states[k], events[k], id)
  }

  /** The rows of a workload stay as they are or go. */
  lemma RowStaysNext(s: System, e: Event, id: Id, x: Id)
    requires Inv(s) && Enabled(s, e) && !Stores(s, e, id)
    requires x in s.db.models && s.db.models[x].lineage.workload == id && x in Next(s, e).db.models
    ensures var row, after := s.db.models[x], Next(s, e).db.models[x];
            after.report == row.report && after.status == row.status && SameBirth(after, row)
  {
    hide Complete, LinkOk, AuditOk, PendingOk, Justified, OneActive;
    if e.Finish? && Stores(s, e, e.workload) {
      var pd := s.pending[e.workload];
      StoredRows(s.db, pd, e.clocks);
      if Activates(pd.report.action) {
        SwitchedStatuses(s.db, pd, e.clocks);
      }
    }
  }

  lemma UsedNext(s: System, e: Event, x: Id)
    requires Inv(s) && Enabled(s, e)
    ensures s.used <= Next(s, e).used
    ensures x in Next(s, e).db.models && x in s.used ==> x in s.db.models
  {
    hide Complete, LinkOk, AuditOk, PendingOk, Justified, OneActive;
    if e.Finish? && Stores(s, e, e.workload) { StoredRows(s.db, s.pending[e.workload], e.clocks); }
  }

  lemma {:induction false} UsedGrows(states: seq<System>, events: seq<Event>, i: nat, j: nat)
    requires IsRun(states, events) && i <= j < |states|
    ensures states[i].used <= states[j].used
    decreases j
  {
    hide Inv, Enabled, Next;
    if i < j {
      UsedGrows(states, events, i, j - 1);
      RunsKeepInvariant(states, events, j - 1);
      UsedNext(states[j - 1], events[j - 1], 0);
    }
  }

  /** An id is never given out twice, so a row that is there at both ends was
      there all along, and without a stored report it was the same. */
  lemma {:induction false} RowStays(states: seq<System>, events: seq<Event>, id: Id, i: nat, k: nat, j: nat, x: Id)
    requires IsRun(states, events) && i <= k <= j < |states|
    requires x in states[i].db.models && x in states[j].db.models
    ensures x in states[k].db.models
    ensures Quiet(states, events, id, i, k) && states[i].db.models[x].lineage.workload == id ==>
              var row, after := states[i].db.models[x], states[k].db.models[x];
              after.report == row.report && after.status == row.status && SameBirth(after, row)
    decreases j + k
  {
    hide Inv, Enabled, Next, Stores;
    if k < j {
      StillThere(states, events, i, k, j, x);
      if i < k { RowStays(states, events, id, i, k, k, x); }
    } else if i < k {
      StillThere(states, events, i, k - 1, k, x);
      RowStays(states, events, id, i, k - 1, k - 1, x);
      RunsKeepInvariant(states, events, k - 1);
      assert Enabled(states[k - 1], events[k - 1]);
      if Quiet(states, events, id, i, k) && states[i].db.models[x].lineage.workload == id {
        RowStaysNext(states[k - 1], events[k - 1], id, x);
      }
    }
  }

  lemma {:induction false} StillThere(states: seq<System>, events: seq<Event>, i: nat, k: nat, j: nat, x: Id)
    requires IsRun(states, events) && i <= k <= j < |states|
    requires x in states[i].db.models && x in states[j].db.models
    ensures x in states[k].db.models
    decreases j
  {
    hide Enabled, Next, LinkOk, AuditOk, PendingOk, Justified, OneActive;
    if k < j {
      RunsKeepInvariant(states, events, i);
      RunsKeepInvariant(states, events, j - 1);
      UsedGrows(states, events, i, j - 1);
      assert Enabled(states[j - 1], events[j - 1]);
      UsedNext(states[j - 1], events[j - 1], x);
      StillThere(states, events, i, k, j - 1, x);
    }
  }

  // ----- one evaluation

  /** An evaluation that begins at one event and whose report is stored at a later
      one. */
  datatype Round = Round(begin: nat, finish: nat)

  predicate Interrupts(e: Event, id: Id) { (e.Finish? || e.Abandon?) && e.workload == id }

  ghost predicate IsRound(states: seq<System>, events: seq<Event>, id: Id, r: Round)
    requires |states| == |events| + 1
  {
    && r.begin < r.finish < |events|
    && events[r.begin].Begin? && events[r.begin].w.id == id
    && Stores(states[r.finish], events[r.finish], id)
    && forall k :: r.begin < k < r.finish ==> !Interrupts(events[k], id)
  }

  /** What the evaluation of a round read, and what it stored. */
  function Read(events: seq<Event>, r: Round): Versions
    requires r.begin < |events| && events[r.begin].Begin?
  {
    events[r.begin].v
  }

  ghost function Stored(states: seq<System>, events: seq<Event>, id: Id, r: Round): Pending
    requires |states| == |events| + 1 && IsRound(states, events, id, r)
  {
    states[r.finish].pending[id]
  }

  lemma {:induction false} PendingStays(states: seq<System>, events: seq<Event>, id: Id, i: nat, k: nat)
    requires IsRun(states, events) && i < k < |states| && events[i].Begin? && events[i].w.id == id
    requires forall m :: i < m < k ==> !Interrupts(events[m], id)
    ensures var e := events[i];
            && Judge(e.p, e.w, e.period, e.v, e.now, e.loads, e.outcome).Some?
            && id in states[k].pending
            && var sub := Judge(e.p, e.w, e.period, e.v, e.now, e.loads, e.outcome).value;
               states[k].pending[id] == Pending(e.w, sub.target, sub.report)
  {
    hide Judge, Complete, Inv, IsQueue;
    assert Enabled(states[k - 1], events[k - 1]);
    if i < k - 1 { PendingStays(states, events, id, i, k - 1); }
  }

  /** The snapshots an evaluation reads are those of the rows. */
  lemma ReadRows(states: seq<System>, events: seq<Event>, i: nat, a: Id, c: Id)
    requires IsRun(states, events) && i < |events| && events[i].Begin? && Facing(events[i].v, a, c)
    ensures var m, v, l := states[i].db.models, events[i].v, LineageOf(events[i].w);
            && a in m && v.active == Some(SnapshotOf(a, m[a])) && m[a].lineage == l && m[a].status == ActiveModel
            && c in m && v.candidate == Some(SnapshotOf(c, m[c])) && m[c].lineage == l
            && (v.previous.Some? ==> v.previous.value.id != a && v.previous.value.id != c)
  {
    hide Judge;
    assert Enabled(states[i], events[i]);
  }

  /** What a stored report changes of the times of the last reports. */
  lemma StoredTimes(s: System, id: Id, c: Clocks, x: Id)
    requires Inv(s) && id in s.pending && x in s.db.models
    requires Complete(s.db, s.pending[id].w, s.pending[id].target, s.pending[id].report, c).Ok?
    ensures var m, pd := Next(s, Finish(id, c)).db.models, s.pending[id];
            && x in m && SameBirth(m[x], s.db.models[x])
            && m[x].report.at == (if x == pd.target.id then pd.report.at else s.db.models[x].report.at)
            && (pd.report.action == Rollback && Some(x) == pd.report.expectedActive ==> m[x].status == RetiredModel)
  {
    hide Complete, LinkOk, AuditOk, PendingOk, Justified, OneActive;
    var pd := s.pending[id];
    StoredRows(s.db, pd, c);
    if Activates(pd.report.action) { SwitchedStatuses(s.db, pd, c); }
  }

  /** The row of a model that is there before a round and at the next one, in
      between. */
  lemma RowAfterRound(states: seq<System>, events: seq<Event>, id: Id, r: Round, next: nat, x: Id)
    requires IsRun(states, events) && IsRound(states, events, id, r) && r.finish < next <= |events|
    requires Quiet(states, events, id, r.finish + 1, next)
    requires x in states[r.begin].db.models && states[r.begin].db.models[x].lineage.workload == id
    requires x in states[next].db.models
    ensures var before, row, pd := states[r.begin].db.models[x], states[next].db.models[x],
            Stored(states, events, id, r);
            && SameBirth(row, before)
            && row.report.at == (if x == pd.target.id then pd.report.at else before.report.at)
            && (pd.report.action == Rollback && Some(x) == pd.report.expectedActive ==> row.status == RetiredModel)
  {
    hide Inv, Enabled, Next, Complete;
    RowStays(states, events, id, r.begin, r.finish, next, x);
    RowStays(states, events, id, r.begin, r.finish + 1, next, x);
    RunsKeepInvariant(states, events, r.finish);
    StoredTimes(states[r.finish], id, events[r.finish].clocks, x);
    RowStays(states, events, id, r.finish + 1, next, next, x);
  }

  /** The next evaluation of the same pair is the other one's turn exactly when
      the stored report is newer than the other's last one, and was not stored on
      the previous model. */
  lemma TurnPassesExactly(states: seq<System>, events: seq<Event>, id: Id, r: Round, next: nat, a: Id, c: Id)
    requires IsRun(states, events) && IsRound(states, events, id, r)
    requires r.finish < next < |events| && events[next].Begin? && events[next].w.id == id
    requires Quiet(states, events, id, r.finish + 1, next)
    requires Facing(Read(events, r), a, c) && Facing(events[next].v, a, c)
    ensures Stored(states, events, id, r).report.action != Rollback
    ensures var v, now, report := Read(events, r), events[r.begin].now, Stored(states, events, id, r).report;
            CandidatesTurn(events[next].v) != CandidatesTurn(v) <==>
              if CandidatesTurn(v) then now > v.active.value.report.at
              else report.action != ShadowRollback && v.candidate.value.report.at <= now
  {
    hide Inv, Enabled, Next, Judge, Quiet;
    var e := events[r.begin];
    PendingStays(states, events, id, r.begin, r.finish);
    DecidedTarget(e.p, e.w, e.period, e.v, e.now, e.loads, e.outcome);
    ExpectsChampion(e.p, e.w, e.period, e.v, e.now, e.loads, e.outcome);
    ReadRows(states, events, r.begin, a, c);
    ReadRows(states, events, next, a, c);
    RowAfterRound(states, events, id, r, next, a);
    RowAfterRound(states, events, id, r, next, c);
  }

  lemma ExpectsChampion(p: Policy, w: Workload, period: Duration, v: Versions, now: int, loads: Id -> bool,
                        outcome: Outcome)
    requires Judge(p, w, period, v, now, loads, outcome).Some?
    ensures Judge(p, w, period, v, now, loads, outcome).value.report.expectedActive == ExpectedActive(v)
  {
    hide Fresh, Gate, CanRevalidate;
  }

  // ----- runs of evaluations

  /** Consecutive stored evaluations of one workload, all of the same pair. */
  ghost predicate AreRounds(states: seq<System>, events: seq<Event>, id: Id, rs: seq<Round>, a: Id, c: Id)
    requires |states| == |events| + 1
  {
    && (forall k :: 0 <= k < |rs| ==> IsRound(states, events, id, rs[k]) && Facing(Read(events, rs[k]), a, c))
    && (forall k :: 0 < k < |rs| ==>
          rs[k - 1].finish < rs[k].begin && Quiet(states, events, id, rs[k - 1].finish + 1, rs[k].begin))
  }

  /** The clock of an evaluation is past the reports it reads. */
  predicate ReadsThePast(events: seq<Event>, r: Round)
    requires r.begin < |events| && events[r.begin].Begin?
  {
    var v := Read(events, r);
    && (v.active.Some? ==> v.active.value.report.at < events[r.begin].now)
    && (v.candidate.Some? ==> v.candidate.value.report.at < events[r.begin].now)
  }

  lemma RoundHolds(states: seq<System>, events: seq<Event>, id: Id, rs: seq<Round>, a: Id, c: Id, k: nat)
    requires |states| == |events| + 1 && AreRounds(states, events, id, rs, a, c) && 0 < k < |rs|
    ensures IsRound(states, events, id, rs[k - 1]) && IsRound(states, events, id, rs[k])
    ensures Facing(Read(events, rs[k - 1]), a, c) && Facing(Read(events, rs[k]), a, c)
    ensures rs[k - 1].finish < rs[k].begin && Quiet(states, events, id, rs[k - 1].finish + 1, rs[k].begin)
  {
    hide IsRound, Facing, Quiet;
  }

  ghost predicate Passes(events: seq<Event>, rs: seq<Round>, k: nat)
    requires 0 < k < |rs| && forall j :: 0 <= j < |rs| ==> rs[j].begin < |events| && events[rs[j].begin].Begin?
  {
    CandidatesTurn(Read(events, rs[k])) != CandidatesTurn(Read(events, rs[k - 1]))
  }

  /** The round before round k ended in a shadow rollback. */
  ghost predicate AfterShadowRollback(states: seq<System>, events: seq<Event>, id: Id, rs: seq<Round>, k: nat)
    requires |states| == |events| + 1 && 0 < k < |rs| && IsRound(states, events, id, rs[k - 1])
  {
    Stored(states, events, id, rs[k - 1]).report.action == ShadowRollback
  }

  /** Champion and candidate take turns, strictly, exactly as long as no shadow
      rollback is reported in between. */
  lemma TurnsAlternateExactly(states: seq<System>, events: seq<Event>, id: Id, rs: seq<Round>, a: Id, c: Id)
    requires IsRun(states, events) && AreRounds(states, events, id, rs, a, c)
    requires forall k :: 0 <= k < |rs| ==> ReadsThePast(events, rs[k])
    ensures (forall k :: 0 < k < |rs| ==> Passes(events, rs, k)) <==>
              forall k :: 0 < k < |rs| ==> !AfterShadowRollback(states, events, id, rs, k)
  {
    hide Enabled, Next, Stores, Quiet, Facing, AfterShadowRollback, Passes;
    forall k | 0 < k < |rs|
      ensures Passes(events, rs, k) <==> !AfterShadowRollback(states, events, id, rs, k)
    {
      PassesExactly(states, events, id, rs, a, c, k);
    }
  }

  lemma PassesExactly(states: seq<System>, events: seq<Event>, id: Id, rs: seq<Round>, a: Id, c: Id, k: nat)
    requires IsRun(states, events) && AreRounds(states, events, id, rs, a, c) && 0 < k < |rs|
    requires ReadsThePast(events, rs[k - 1])
    ensures Passes(events, rs, k) <==> !AfterShadowRollback(states, events, id, rs, k)
  {
    hide Enabled, Next, Judge, Quiet, Stores;
    RoundHolds(states, events, id, rs, a, c, k);
    TurnPassesExactly(states, events, id, rs[k - 1], rs[k].begin, a, c);
    var e := events[rs[k - 1].begin];
    if CandidatesTurn(e.v) {
      PendingStays(states, events, id, rs[k - 1].begin, rs[k - 1].finish);
      DecidedTarget(e.p, e.w, e.period, e.v, e.now, e.loads, e.outcome);
    }
  }

  /** A champion whose evaluations keep ending in a shadow rollback keeps its turn:
      the candidate is never considered. */
  lemma {:induction false} ShadowRollbacksStarve(states: seq<System>, events: seq<Event>, id: Id, rs: seq<Round>, a: Id,
                                                 c: Id, k: nat)
    requires IsRun(states, events) && AreRounds(states, events, id, rs, a, c) && k < |rs|
    requires !CandidatesTurn(Read(events, rs[0]))
    requires forall j :: 0 < j <= k ==> AfterShadowRollback(states, events, id, rs, j)
    ensures !CandidatesTurn(Read(events, rs[k]))
  {
    hide Enabled, Next, Stores, Quiet, Facing, CandidatesTurn;
    if k > 0 {
      ShadowRollbacksStarve(states, events, id, rs, a, c, k - 1);
      RoundHolds(states, events, id, rs, a, c, k);
      assert AfterShadowRollback(states, events, id, rs, k);
      TurnPassesExactly(states, events, id, rs[k - 1], rs[k].begin, a, c);
    }
  }

  // ----- such a shadow rollback

  const POOR := Metrics(2, 0.0, 1.0, 1.0, 1.0, 1.0, 1.0, 1.0, 0.0)
  const SHADOW_RULES := RULES.(mode := Shadow, rollback := true)
  const CHAMPION_ROW :=
    Row(Lineage(1, 3), 2, ActiveModel, ContractFor(SERVED, DAY), 90 * HOUR, 91 * HOUR, 92 * HOUR,
        NO_REPORT.(previous := Some(3)), [], None)
  const CANDIDATE_ROW :=
    Row(Lineage(1, 3), 2, CandidateModel, ContractFor(SERVED, DAY), 94 * HOUR, 95 * HOUR, EPOCH,
        NO_REPORT.(at := 98 * HOUR), [], None)
  const PREVIOUS_ROW :=
    Row(Lineage(1, 3), 2, RetiredModel, ContractFor(SERVED, DAY), 79 * HOUR, 80 * HOUR, 81 * HOUR, NO_REPORT, [], None)
  const MODELS := Db(map[1 := WorkloadRow(7, 3, 2, true)],
                     map[1 := CHAMPION_ROW, 2 := CANDIDATE_ROW, 3 := PREVIOUS_ROW])
  const READ := Versions(Some(SnapshotOf(1, CHAMPION_ROW)), Some(SnapshotOf(2, CANDIDATE_ROW)),
                         Some(SnapshotOf(3, PREVIOUS_ROW)))
  const DEGRADED := Evidence(98 * HOUR, 100 * HOUR, "f", 2,
                             map[Baseline := PERFECT, Candidate := POOR, Previous := PERFECT])

  /** The champion has degraded and its predecessor would do better, in shadow
      mode: the report goes to the predecessor, so the champion's last report
      stays older than the candidate's, and the next turn is the champion's
      again. */
  lemma ShadowRollbackKeepsTheTurn(loads: Id -> bool, c: Clocks)
    requires loads(1) && loads(2) && loads(3)
    ensures IsQueue(MODELS, LineageOf(SERVED), READ) && Facing(READ, 1, 2) && !CandidatesTurn(READ)
    ensures var sub := Judge(SHADOW_RULES, SERVED, DAY, READ, 100 * HOUR, loads, Scored(DEGRADED));
            && ValidPolicy(SHADOW_RULES)
              && Answers(DEGRADED, MakePlan(SHADOW_RULES, SERVED, DAY, READ, 100 * HOUR, loads), SHADOW_RULES)
            && sub.Some? && sub.value.report.action == ShadowRollback
            && var result := Complete(MODELS, SERVED, sub.value.target, sub.value.report, c);
               result.Ok? && forall next :: IsQueue(result.value, LineageOf(SERVED), next) ==> !CandidatesTurn(next)
  {
    QueueRead();
    DecidesShadowRollback(loads);
    var sub := Judge(SHADOW_RULES, SERVED, DAY, READ, 100 * HOUR, loads, Scored(DEGRADED)).value;
    StoredOnPrevious(sub.report, c);
    var result := Complete(MODELS, SERVED, sub.target, sub.report, c);
    forall next | IsQueue(result.value, LineageOf(SERVED), next) ensures !CandidatesTurn(next) {
      ChampionNext(result.value, next);
    }
  }

  lemma OnlyChampion(db: Db)
    requires db.models.Keys == {1, 2, 3} && db.models[1].status == ActiveModel
             && db.models[1].lineage == LineageOf(SERVED)
    requires db.models[2].status != ActiveModel && db.models[3].status != ActiveModel
    ensures ActiveId(db, LineageOf(SERVED)) == Some(1)
  {
    assert ActiveIn(db, LineageOf(SERVED), 1);
  }

  lemma QueueRead()
    ensures IsQueue(MODELS, LineageOf(SERVED), READ)
  {
    hide ContractFor;
    OnlyChampion(MODELS);
    assert HasStatus(MODELS, LineageOf(SERVED), 1, ActiveModel);
  }

  lemma DecidesShadowRollback(loads: Id -> bool)
    requires loads(1) && loads(2) && loads(3)
    ensures var plan := MakePlan(SHADOW_RULES, SERVED, DAY, READ, 100 * HOUR, loads);
            ValidPolicy(SHADOW_RULES) && plan.Compare? && Answers(DEGRADED, plan, SHADOW_RULES)
    ensures var sub := Judge(SHADOW_RULES, SERVED, DAY, READ, 100 * HOUR, loads, Scored(DEGRADED));
            && sub.Some? && sub.value.target == SnapshotOf(3, PREVIOUS_ROW)
            && sub.value.report.action == ShadowRollback && sub.value.report.expectedActive == Some(1)
  {
    var plan := MakePlan(SHADOW_RULES, SERVED, DAY, READ, 100 * HOUR, loads);
    assert plan == Compare(SnapshotOf(1, CHAMPION_ROW), false, true, 98 * HOUR);
    assert !CanRevalidate(SHADOW_RULES, 0.5, POOR, PERFECT);
    assert Gate(RollbackPolicy(SHADOW_RULES), 0.5, PERFECT, Some(POOR), PERFECT).promote;
  }

  lemma StoredOnPrevious(r: Report, c: Clocks)
    requires r.action == ShadowRollback && r.expectedActive == Some(1)
    ensures var result := Complete(MODELS, SERVED, SnapshotOf(3, PREVIOUS_ROW), r, c);
            && result.Ok? && result.value.models.Keys == {1, 2, 3}
            && result.value.models[1] == CHAMPION_ROW && result.value.models[2] == CANDIDATE_ROW
            && result.value.models[3].status == RetiredModel
  {
    hide Fresh, Gate, CanRevalidate, Activatable, Renewable, ContractFor;
    OnlyChampion(MODELS);
  }

  lemma ChampionNext(db: Db, next: Versions)
    requires IsQueue(db, LineageOf(SERVED), next) && db.models.Keys == {1, 2, 3}
    requires db.models[1] == CHAMPION_ROW && db.models[2] == CANDIDATE_ROW && db.models[3].status == RetiredModel
    ensures !CandidatesTurn(next)
  {
    hide ContractFor;
    OnlyChampion(db);
  }
}
