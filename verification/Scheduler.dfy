/** Scheduler.RunOnce (internal/training/scheduler.go) over the statements of
    internal/postgres/training_repository.go, with arbitrary steps of other
    processes before every statement, any of which may fail. */
module Scheduler {
  import opened Observations
  import opened Wrappers
  import opened Claims

  datatype Workload = Workload(id: string, revision: string, immediate: bool)

  datatype Job = Job(run: int, workload: string, revision: string)

  /** The hashes of revisions and workload ids, and the outcome of creating a
      Kubernetes Job. */
  datatype Outside = Outside(digest: string -> nat, hash: string -> nat, creates: Job -> bool)

  /** A statement is answered, refused without effect, or takes effect while its
      answer is lost. */
  datatype Fate = Answered | Refused | Unanswered

  datatype Answer = Got(run: Option<int>) | NoAnswer

  /** How a pass ends: done, or at the first error. */
  datatype Outcome =
    | Done
    | NotListed
    | NotClaimed(workload: string)
    | NotCreated(job: Job, marked: bool)

  /** The delay of a workload within the schedule interval. */
  function Offset(hash: nat, interval: Duration): (d: int)
    requires interval > 0
    ensures 0 <= d < Max(interval, 1)
  {
    var seconds := interval / SECOND;
    if seconds <= 1 then 0 else
      DivBounds(interval, SECOND);
      BelowInterval(hash % seconds, seconds);
      hash % seconds * SECOND
  }

  /** Hashes are spread over the whole seconds of the interval: every second is the
      delay of some hash, and hashes share it exactly when they agree modulo their
      number. An interval of less than two seconds has no delay. */
  lemma OffsetsExactly(hash: nat, other: nat, interval: Duration)
    requires interval > 0
    ensures var seconds := interval / SECOND;
            && (seconds <= 1 ==> Offset(hash, interval) == 0)
            && (seconds > 1 ==>
                (Offset(hash, interval) == Offset(other, interval) <==> hash % seconds == other % seconds))
            && (seconds > 1 && hash < seconds ==> Offset(hash, interval) == hash * SECOND)
  {
    var seconds := interval / SECOND;
    if seconds > 1 && hash < seconds { assert hash % seconds == hash; }
  }

  lemma BelowInterval(r: int, seconds: int)
    requires 0 <= r < seconds
    ensures 0 <= r * SECOND < seconds * SECOND
  {
  }

  predicate IsDue(o: Outside, w: Workload, slot: int, now: int, interval: Duration)
    requires interval > 0
  {
    now >= slot + Offset(o.hash(w.id), interval)
  }

  class TrainingRepository {
    var runs: seq<Run>
    var clock: int
    /** What other processes do before each of our statements. */
    var others: seq<seq<Event>>
    /** How our next statements fare; later ones are answered. */
    var fates: seq<Fate>
    /** Everything that has happened to the table. */
    ghost var trace: seq<Event>
    /** The runs that claims were answered with. */
    ghost var handed: seq<int>

    function Value(): Table
      reads this
    {
      Table(runs, clock)
    }

    predicate OthersAllowed()
      reads this
    {
      forall n :: 0 <= n < |others| ==> AllAllowed(others[n])
    }

    ghost predicate Traced(start: Table)
      reads this
    {
      Value() == After(start, trace) && AllAllowed(trace) && OthersAllowed()
    }

    method Interleave(ghost start: Table)
      requires Traced(start)
      modifies this
      ensures Traced(start) && old(trace) <= trace && fates == old(fates) && handed == old(handed)
    {
      hide After, Allowed;
      if others == [] { return; }
      var foreign := others[0];
      others := others[1..];
      AfterConcat(start, trace, foreign);
      var t := After(Value(), foreign);
      runs, clock := t.runs, t.clock;
      trace := trace + foreign;
    }

    method NextFate(ghost start: Table) returns (fate: Fate)
      requires Traced(start)
      modifies this`fates
      ensures Traced(start)
      ensures AllAnswered(old(fates)) ==> fate == Answered && AllAnswered(fates)
    {
      if fates == [] { return Answered; }
      fate := fates[0];
      fates := fates[1..];
    }

    /** INSERT of a scheduled run, refused when the slot is taken or, for an
        exclusive claim, when the workload already has a run since then. */
    method Claim(ghost start: Table, workload: string, slot: int, since: int) returns (answer: Answer)
      requires Traced(start) && Allowed(Event.Claim(workload, slot, since))
      modifies this
      ensures Traced(start) && old(trace) <= trace
      ensures answer.Got? && answer.run.Some? ==>
                HoldsAt(Value(), workload, slot, answer.run.value)
                && trace != [] && answer.run.value == |After(start, trace[..|trace| - 1]).runs|
      ensures answer.Got? && answer.run.None? ==>
              && trace != [] && Value() == After(start, trace[..|trace| - 1])
              && (Holds(Value(), workload, slot) || (since != 0 && RecentRun(Value(), workload, since)))
      ensures handed == old(handed) + HandedBy(answer)
      ensures AllAnswered(old(fates)) ==> answer.Got? && AllAnswered(fates)
    {
      hide After, Allowed;
      Interleave(start);
      var fate := NextFate(start);
      if fate == Refused { return NoAnswer; }
      ghost var e := Event.Claim(workload, slot, since);
      AfterStep(start, trace, e);
      assert (trace + [e])[..|trace|] == trace;
      trace := trace + [e];
      var run: Option<int> := None;
      if !(since != 0 && RecentRun(Value(), workload, since)) && !Holds(Value(), workload, slot) {
        runs := runs + [Run(workload, slot, Claimed, clock)];
        run := Some(|runs| - 1);
      }
      answer := if fate == Unanswered then NoAnswer else Got(run);
      handed := handed + HandedBy(answer);
    }

    /** INSERT that reserves a slot; it answers whether it added the run. */
    method Reserve(ghost start: Table, workload: string, slot: int) returns (answer: Answer)
      requires Traced(start) && Allowed(Event.Reserve(workload, slot))
      modifies this
      ensures Traced(start) && old(trace) <= trace
      ensures answer.Got? ==> Holds(Value(), workload, slot)
      ensures answer.Got? && answer.run.Some? ==> HandsOut(Value(), workload, slot, answer.run)
      ensures answer.Got? && answer.run.None? ==> trace != [] && Value() == After(start, trace[..|trace| - 1])
      ensures handed == old(handed) && (AllAnswered(old(fates)) ==> answer.Got? && AllAnswered(fates))
    {
      hide After, Allowed;
      Interleave(start);
      var fate := NextFate(start);
      if fate == Refused { return NoAnswer; }
      ghost var e := Event.Reserve(workload, slot);
      AfterStep(start, trace, e);
      assert (trace + [e])[..|trace|] == trace;
      trace := trace + [e];
      var run: Option<int> := None;
      if !Holds(Value(), workload, slot) {
        runs := runs + [Run(workload, slot, Claimed, clock)];
        assert HoldsAt(Value(), workload, slot, |runs| - 1);
        run := Some(|runs| - 1);
      }
      answer := if fate == Unanswered then NoAnswer else Got(run);
    }

    /** Reserves the slot; if it was reserved before, finds the run as long as it
        is still waiting for its Job. */
    method ClaimImmediate(ghost start: Table, workload: string, slot: int) returns (answer: Answer)
      requires Traced(start) && Allowed(Event.Reserve(workload, slot))
      modifies this
      ensures Traced(start) && old(trace) <= trace
      ensures answer.Got? ==> HandsOut(Value(), workload, slot, answer.run) && Holds(Value(), workload, slot)
      ensures handed == old(handed) + HandedBy(answer)
      ensures AllAnswered(old(fates)) ==> answer.Got? && AllAnswered(fates)
    {
      hide After, Allowed;
      answer := Reserve(start, workload, slot);
      if answer.NoAnswer? || answer.run.Some? {
        handed := handed + HandedBy(answer);
        return;
      }
      ghost var reserved := trace;
      Interleave(start);
      StillHolds(start, reserved, trace, workload, slot);
      var fate := NextFate(start);
      if fate != Answered { return NoAnswer; }
      for i := 0 to |runs|
        invariant answer == Got(None) && handed == old(handed) && (AllAnswered(old(fates)) ==> AllAnswered(fates))
        invariant forall k :: 0 <= k < i ==> !(HoldsAt(Value(), workload, slot, k) && runs[k].status == Claimed)
      {
        if runs[i].workload == workload && runs[i].slot == slot && runs[i].status == Claimed {
          answer := Got(Some(i));
          handed := handed + HandedBy(answer);
          return;
        }
      }
    }

    method MarkFailed(ghost start: Table, run: int) returns (ok: bool)
      requires Traced(start) && 0 <= run < |runs|
      modifies this
      ensures Traced(start) && old(trace) <= trace
      ensures ok ==> IsStatus(Value(), run, Failed)
      ensures handed == old(handed) && (AllAnswered(old(fates)) ==> ok && AllAnswered(fates))
    {
      hide After;
      ghost var known := trace;
      Interleave(start);
      Persists(start, known, trace);
      var fate := NextFate(start);
      if fate == Refused { return false; }
      ghost var e := Event.MarkFailed(run);
      AfterStep(start, trace, e);
      trace := trace + [e];
      runs := runs[run := runs[run].(status := Failed)];
      ok := fate == Answered;
    }
  }

  predicate AllAnswered(fates: seq<Fate>) {
    forall n :: 0 <= n < |fates| ==> fates[n] == Answered
  }

  function HandedBy(answer: Answer): seq<int> {
    if answer.Got? && answer.run.Some? then [answer.run.value] else []
  }

  lemma Persists(start: Table, a: seq<Event>, b: seq<Event>)
    requires a <= b
    ensures var t, u := After(start, a), After(start, b);
            |t.runs| <= |u.runs| && forall i :: 0 <= i < |t.runs| ==>
              u.runs[i].(status := t.runs[i].status) == t.runs[i]
  {
    hide After;
    AfterConcat(start, a, b[|a|..]);
    assert a + b[|a|..] == b;
    RunsOnlyGrow(After(start, a), b[|a|..]);
  }

  lemma StillHolds(start: Table, a: seq<Event>, b: seq<Event>, workload: string, slot: int)
    requires a <= b
    ensures Holds(After(start, a), workload, slot) ==> Holds(After(start, b), workload, slot)
    ensures RecentRun(After(start, a), workload, slot) ==> RecentRun(After(start, b), workload, slot)
  {
    hide After;
    Persists(start, a, b);
  }

  lemma StillHoldsAt(start: Table, a: seq<Event>, b: seq<Event>, workload: string, slot: int, i: int)
    requires a <= b
    ensures HoldsAt(After(start, a), workload, slot, i) ==> HoldsAt(After(start, b), workload, slot, i)
  {
    hide After;
    Persists(start, a, b);
  }

  /** The workload's immediate run exists if it asks for one, and its turn in
      this interval, if it has come, is taken. */
  predicate Served(t: Table, o: Outside, w: Workload, slot: int, now: int, interval: Duration)
    requires interval > 0
  {
    && (w.immediate ==> Holds(t, w.id, ImmediateSlot(o.digest(w.revision))))
    && (IsDue(o, w, slot, now, interval) ==> Holds(t, w.id, slot) || RecentRun(t, w.id, slot))
  }

  /** A Job of a workload works on the run of its revision, if that asks for one at
      once, or when its turn has come on the run of the current interval. */
  predicate JobFits(t: Table, o: Outside, w: Workload, slot: int, now: int, interval: Duration, j: Job)
    requires interval > 0
  {
    && j.workload == w.id && j.revision == w.revision
    && ((w.immediate && HoldsAt(t, w.id, ImmediateSlot(o.digest(w.revision)), j.run))
        || (IsDue(o, w, slot, now, interval) && HoldsAt(t, w.id, slot, j.run)))
  }

  ghost predicate FitsSome(t: Table, o: Outside, ws: seq<Workload>, slot: int, now: int, interval: Duration, j: Job)
    requires interval > 0
  {
    exists n :: 0 <= n < |ws| && JobFits(t, o, ws[n], slot, now, interval, j)
  }

  ghost predicate AllServed(t: Table, o: Outside, ws: seq<Workload>, slot: int, now: int, interval: Duration)
    requires interval > 0
  {
    forall n :: 0 <= n < |ws| ==> Served(t, o, ws[n], slot, now, interval)
  }

  ghost predicate AllFit(t: Table, o: Outside, ws: seq<Workload>, slot: int, now: int, interval: Duration,
                         jobs: seq<Job>)
    requires interval > 0
  {
    forall n :: 0 <= n < |jobs| ==> FitsSome(t, o, ws, slot, now, interval, jobs[n])
  }

  function RunsOf(jobs: seq<Job>): (r: seq<int>)
    ensures |r| == |jobs|
  {
    seq(|jobs|, n requires 0 <= n < |jobs| => jobs[n].run)
  }

  lemma StillServed(start: Table, a: seq<Event>, b: seq<Event>, o: Outside, ws: seq<Workload>, slot: int, now: int,
                    interval: Duration)
    requires a <= b && interval > 0 && AllServed(After(start, a), o, ws, slot, now, interval)
    ensures AllServed(After(start, b), o, ws, slot, now, interval)
  {
    hide After, ImmediateSlot, Holds, RecentRun, IsDue;
    forall n | 0 <= n < |ws| ensures Served(After(start, b), o, ws[n], slot, now, interval) {
      StillHolds(start, a, b, ws[n].id, slot);
      StillHolds(start, a, b, ws[n].id, ImmediateSlot(o.digest(ws[n].revision)));
    }
  }

  lemma StillFit(start: Table, a: seq<Event>, b: seq<Event>, o: Outside, ws: seq<Workload>, slot: int, now: int,
                 interval: Duration, jobs: seq<Job>)
    requires a <= b && interval > 0 && AllFit(After(start, a), o, ws, slot, now, interval, jobs)
    ensures AllFit(After(start, b), o, ws, slot, now, interval, jobs)
  {
    hide After, ImmediateSlot, HoldsAt, IsDue;
    forall n | 0 <= n < |jobs| ensures FitsSome(After(start, b), o, ws, slot, now, interval, jobs[n]) {
      var k :| 0 <= k < |ws| && JobFits(After(start, a), o, ws[k], slot, now, interval, jobs[n]);
      StillHoldsAt(start, a, b, ws[k].id, slot, jobs[n].run);
      StillHoldsAt(start, a, b, ws[k].id, ImmediateSlot(o.digest(ws[k].revision)), jobs[n].run);
      assert JobFits(After(start, b), o, ws[k], slot, now, interval, jobs[n]);
    }
  }

  /** The Job of a claimed run exists, or the pass ends here with the run failed
      unless that statement failed too. */
  predicate Ends(t: Table, o: Outside, j: Job, outcome: Outcome) {
    if o.creates(j) then outcome == Done
    else outcome.NotCreated? && outcome.job == j && (outcome.marked ==> IsStatus(t, j.run, Failed))
  }

  /** Creates the Job of a claimed run, or marks the run failed. */
  method CreateJob(repository: TrainingRepository, ghost start: Table, o: Outside, job: Job) returns (outcome: Outcome)
    requires repository.Traced(start) && 0 <= job.run < |repository.runs|
    modifies repository
    ensures repository.Traced(start) && old(repository.trace) <= repository.trace
    ensures Ends(repository.Value(), o, job, outcome) && repository.handed == old(repository.handed)
    ensures AllAnswered(old(repository.fates)) ==>
              AllAnswered(repository.fates) && (outcome.NotCreated? ==> outcome.marked)
  {
    var created := o.creates(job);
    if created { return Done; }
    var marked := repository.MarkFailed(start, job.run);
    outcome := NotCreated(job, marked);
  }

  /** The end of one claim: without an answer no Job is asked for; otherwise at
      most one, on a run that fits. */
  predicate ClaimEnds(t: Table, o: Outside, w: Workload, slot: int, now: int, interval: Duration, job: Option<Job>,
                      outcome: Outcome)
    requires interval > 0
  {
    if outcome.NotClaimed? then outcome.workload == w.id && job.None?
    else if job.None? then outcome == Done
    else
      && job.value.workload == w.id && JobFits(t, o, w, slot, now, interval, job.value)
      && Ends(t, o, job.value, outcome)
  }

  /** Every run that was handed out has its Job. */
  twostate predicate Answers(repository: TrainingRepository, job: Option<Job>, outcome: Outcome)
    reads repository
  {
    && repository.handed == old(repository.handed) + (if job.Some? then [job.value.run] else [])
    && (AllAnswered(old(repository.fates)) ==>
        AllAnswered(repository.fates) && (outcome == Done || (outcome.NotCreated? && outcome.marked)))
  }

  method Immediate(repository: TrainingRepository, ghost start: Table, o: Outside, w: Workload, ghost slot: int,
                   ghost now: int, ghost interval: Duration)
    returns (job: Option<Job>, outcome: Outcome)
    requires repository.Traced(start) && interval > 0 && w.immediate
    modifies repository
    ensures repository.Traced(start) && old(repository.trace) <= repository.trace
    ensures ClaimEnds(repository.Value(), o, w, slot, now, interval, job, outcome)
    ensures Answers(repository, job, outcome)
    ensures !outcome.NotClaimed? ==> Holds(repository.Value(), w.id, ImmediateSlot(o.digest(w.revision)))
  {
    hide After, ImmediateSlot, Holds, Ends, IsDue;
    var reserved := ImmediateSlot(o.digest(w.revision));
    var answer := repository.ClaimImmediate(start, w.id, reserved);
    ghost var claimed := repository.trace;
    if answer.NoAnswer? { return None, NotClaimed(w.id); }
    if answer.run.None? { return None, Done; }
    job := Some(Job(answer.run.value, w.id, w.revision));
    outcome := CreateJob(repository, start, o, job.value);
    StillHolds(start, claimed, repository.trace, w.id, reserved);
    StillHoldsAt(start, claimed, repository.trace, w.id, reserved, answer.run.value);
    EndsInJob(repository.Value(), o, job.value, outcome);
  }

  method Scheduled(repository: TrainingRepository, ghost start: Table, o: Outside, w: Workload, slot: int,
                   ghost now: int, ghost interval: Duration)
    returns (job: Option<Job>, outcome: Outcome)
    requires repository.Traced(start) && 0 < slot < YEAR_2500 && interval > 0 && IsDue(o, w, slot, now, interval)
    modifies repository
    ensures repository.Traced(start) && old(repository.trace) <= repository.trace
    ensures ClaimEnds(repository.Value(), o, w, slot, now, interval, job, outcome)
    ensures Answers(repository, job, outcome)
    ensures !outcome.NotClaimed? ==> Holds(repository.Value(), w.id, slot) || RecentRun(repository.Value(), w.id, slot)
  {
    hide After, ImmediateSlot, Ends;
    var answer := repository.Claim(start, w.id, slot, slot);
    ghost var claimed := repository.trace;
    if answer.NoAnswer? { return None, NotClaimed(w.id); }
    if answer.run.None? { return None, Done; }
    job := Some(Job(answer.run.value, w.id, w.revision));
    outcome := CreateJob(repository, start, o, job.value);
    StillHoldsAt(start, claimed, repository.trace, w.id, slot, answer.run.value);
    EndsInJob(repository.Value(), o, job.value, outcome);
  }

  lemma EndsInJob(t: Table, o: Outside, j: Job, outcome: Outcome)
    requires Ends(t, o, j, outcome)
    ensures outcome == Done || outcome.NotCreated?
  {
  }

  predicate AllCreated(o: Outside, jobs: seq<Job>) {
    forall n :: 0 <= n < |jobs| ==> o.creates(jobs[n])
  }

  /** How a pass over the listed workloads ends. Without an error every workload
      is served and every Job exists. An error is about one workload, and all
      before it are served; every Job but the one it is about exists. */
  ghost predicate PassEnds(t: Table, o: Outside, ws: seq<Workload>, slot: int, now: int, interval: Duration,
                           jobs: seq<Job>, at: nat, outcome: Outcome)
    requires interval > 0
  {
    && at <= |ws| && AllServed(t, o, ws[..at], slot, now, interval)
    && match outcome
       case Done => at == |ws| && AllCreated(o, jobs)
       case NotListed => false
       case NotClaimed(w) => at < |ws| && w == ws[at].id && AllCreated(o, jobs)
       case NotCreated(j, marked) =>
         && at < |ws| && j.workload == ws[at].id
         && jobs != [] && jobs[|jobs| - 1] == j && !o.creates(j) && AllCreated(o, jobs[..|jobs| - 1])
         && (marked ==> IsStatus(t, j.run, Failed))
  }

  lemma StopsHere(t: Table, o: Outside, ws: seq<Workload>, n: nat, slot: int, now: int, interval: Duration,
                  jobs: seq<Job>,
                  job: Option<Job>, outcome: Outcome)
    requires interval > 0 && n < |ws| && AllServed(t, o, ws[..n], slot, now, interval) && AllCreated(o, jobs)
    requires ClaimEnds(t, o, ws[n], slot, now, interval, job, outcome)
    ensures var all := if job.Some? then jobs + [job.value] else jobs;
            if outcome == Done then AllCreated(o, all) else PassEnds(t, o, ws, slot, now, interval, all, n, outcome)
  {
    hide AllServed, JobFits;
    if job.Some? { assert (jobs + [job.value])[..|jobs|] == jobs; }
  }

  /** The turn of one listed workload: its immediate run, if it asks for one, and
      its run of the interval, if that is due. */
  method ServeNext(repository: TrainingRepository, ghost start: Table, o: Outside, workloads: seq<Workload>, n: nat,
                   slot: int, now: int, interval: Duration, jobs: seq<Job>)
    returns (all: seq<Job>, outcome: Outcome)
    requires repository.Traced(start) && interval > 0 && 0 < slot < YEAR_2500 && n < |workloads|
    requires AllServed(repository.Value(), o, workloads[..n], slot, now, interval)
    requires AllFit(repository.Value(), o, workloads, slot, now, interval, jobs) && AllCreated(o, jobs)
    modifies repository
    ensures repository.Traced(start) && old(repository.trace) <= repository.trace
    ensures AllFit(repository.Value(), o, workloads, slot, now, interval, all)
    ensures jobs <= all && repository.handed == old(repository.handed) + RunsOf(all[|jobs|..])
    ensures outcome == Done ==>
            AllServed(repository.Value(), o, workloads[..n + 1], slot, now, interval) && AllCreated(o, all)
    ensures outcome != Done ==> PassEnds(repository.Value(), o, workloads, slot, now, interval, all, n, outcome)
    ensures AllAnswered(old(repository.fates)) ==>
              AllAnswered(repository.fates) && (outcome == Done || (outcome.NotCreated? && outcome.marked))
  {
    hide After, ImmediateSlot, Holds, RecentRun, JobFits, IsDue, AllCreated, ClaimEnds, PassEnds, AllServed, AllFit,
      AllAnswered, Offset;
    var w := workloads[n];
    ghost var before := repository.trace;
    all := jobs;
    if w.immediate {
      var job;
      job, outcome := Immediate(repository, start, o, w, slot, now, interval);
      StillServed(start, before, repository.trace, o, workloads[..n], slot, now, interval);
      StillFit(start, before, repository.trace, o, workloads, slot, now, interval, jobs);
      StopsHere(repository.Value(), o, workloads, n, slot, now, interval, jobs, job, outcome);
      JobOf(repository.Value(), o, workloads, n, slot, now, interval, jobs, job, outcome);
      if job.Some? { all := all + [job.value]; }
      if outcome != Done { return; }
    }
    DueExactly(o, w, slot, now, interval);
    if now < slot + Offset(o.hash(w.id), interval) {
      NotDueServed(repository.Value(), o, workloads, n, slot, now, interval);
      outcome := Done;
      return;
    }
    before := repository.trace;
    ghost var first := all;
    var job;
    job, outcome := Scheduled(repository, start, o, w, slot, now, interval);
    StillServed(start, before, repository.trace, o, workloads[..n], slot, now, interval);
    StillFit(start, before, repository.trace, o, workloads, slot, now, interval, first);
    StillHolds(start, before, repository.trace, w.id, ImmediateSlot(o.digest(w.revision)));
    StopsHere(repository.Value(), o, workloads, n, slot, now, interval, first, job, outcome);
    JobOf(repository.Value(), o, workloads, n, slot, now, interval, first, job, outcome);
    if job.Some? { all := all + [job.value]; }
    if outcome != Done { return; }
    DueServed(repository.Value(), o, workloads, n, slot, now, interval);
  }

  lemma DueExactly(o: Outside, w: Workload, slot: int, now: int, interval: Duration)
    requires interval > 0
    ensures IsDue(o, w, slot, now, interval) <==> now >= slot + Offset(o.hash(w.id), interval)
  {
  }

  /** Whatever other schedulers, trainers and failures do in between, every Job
      asked for belongs to a run of the right workload and slot, every run handed
      out has its Job, and the pass ends as PassEnds says. */
  method RunOnce(repository: TrainingRepository, ghost start: Table, o: Outside, listing: Option<seq<Workload>>,
                 trainingInterval: Duration, now: int)
    returns (jobs: seq<Job>, outcome: Outcome, ghost at: nat)
    requires repository.Traced(start) && (if trainingInterval <= 0 then DAY else trainingInterval) <= now < YEAR_2500
    modifies repository
    ensures repository.Traced(start) && old(repository.trace) <= repository.trace
    ensures listing.None? ==> outcome == NotListed && jobs == [] && repository.trace == old(repository.trace)
    ensures var interval := if trainingInterval <= 0 then DAY else trainingInterval;
            var slot := Truncate(now, interval);
            listing.Some? ==>
              && AllFit(repository.Value(), o, listing.value, slot, now, interval, jobs)
              && PassEnds(repository.Value(), o, listing.value, slot, now, interval, jobs, at, outcome)
    // Every run that a claim of this pass was answered with has its Job.
    ensures repository.handed == old(repository.handed) + RunsOf(jobs)
    // Without a failing statement only a Job that cannot be created ends it early.
    ensures listing.Some? && AllAnswered(old(repository.fates)) ==>
              outcome == Done || (outcome.NotCreated? && outcome.marked)
  {
    hide After, Truncate, AllCreated, PassEnds, AllServed, AllFit, AllAnswered, Allowed;
    jobs, at := [], 0;
    var interval := trainingInterval;
    if interval <= 0 { interval := DAY; }
    if listing.None? { return [], NotListed, 0; }
    var workloads := listing.value;
    var slot := Truncate(now, interval);
    PositiveSlot(now, interval);
    NoJobs(repository.Value(), o, workloads, slot, now, interval);
    for n := 0 to |workloads|
      invariant repository.Traced(start) && old(repository.trace) <= repository.trace
      invariant AllServed(repository.Value(), o, workloads[..n], slot, now, interval)
      invariant AllFit(repository.Value(), o, workloads, slot, now, interval, jobs) && AllCreated(o, jobs)
      invariant repository.handed == old(repository.handed) + RunsOf(jobs)
      invariant AllAnswered(old(repository.fates)) ==> AllAnswered(repository.fates)
    {
      ghost var before := jobs;
      jobs, outcome := ServeNext(repository, start, o, workloads, n, slot, now, interval, jobs);
      assert RunsOf(before) + RunsOf(jobs[|before|..]) == RunsOf(jobs);
      at := n;
      if outcome != Done { return; }
    }
    assert workloads[..|workloads|] == workloads;
    outcome, at := Done, |workloads|;
    AllDone(repository.Value(), o, workloads, slot, now, interval, jobs);
  }

  lemma NoJobs(t: Table, o: Outside, ws: seq<Workload>, slot: int, now: int, interval: Duration)
    requires interval > 0
    ensures AllCreated(o, []) && AllFit(t, o, ws, slot, now, interval, [])
    ensures AllServed(t, o, ws[..0], slot, now, interval)
  {
  }

  lemma JobOf(t: Table, o: Outside, ws: seq<Workload>, n: nat, slot: int, now: int, interval: Duration, jobs: seq<Job>,
              job: Option<Job>, outcome: Outcome)
    requires interval > 0 && n < |ws| && ClaimEnds(t, o, ws[n], slot, now, interval, job, outcome)
    requires AllFit(t, o, ws, slot, now, interval, jobs)
    ensures job.Some? ==> AllFit(t, o, ws, slot, now, interval, jobs + [job.value])
  {
    hide JobFits;
    if job.Some? { assert FitsSome(t, o, ws, slot, now, interval, job.value); }
  }

  lemma AllDone(t: Table, o: Outside, ws: seq<Workload>, slot: int, now: int, interval: Duration, jobs: seq<Job>)
    requires interval > 0 && AllServed(t, o, ws, slot, now, interval) && AllCreated(o, jobs)
    ensures PassEnds(t, o, ws, slot, now, interval, jobs, |ws|, Done)
  {
    assert ws[..|ws|] == ws;
  }

  lemma PositiveSlot(now: int, interval: Duration)
    requires interval > 0 && interval <= now < YEAR_2500
    ensures 0 < Truncate(now, interval) < YEAR_2500
  {
    hide Truncate;
  }

  lemma NotDueServed(t: Table, o: Outside, ws: seq<Workload>, n: nat, slot: int, now: int, interval: Duration)
    requires interval > 0 && n < |ws| && AllServed(t, o, ws[..n], slot, now, interval)
    requires ws[n].immediate ==> Holds(t, ws[n].id, ImmediateSlot(o.digest(ws[n].revision)))
    requires !IsDue(o, ws[n], slot, now, interval)
    ensures AllServed(t, o, ws[..n + 1], slot, now, interval)
  {
    hide Holds, RecentRun, ImmediateSlot, IsDue;
  }

  lemma DueServed(t: Table, o: Outside, ws: seq<Workload>, n: nat, slot: int, now: int, interval: Duration)
    requires interval > 0 && n < |ws| && AllServed(t, o, ws[..n], slot, now, interval)
    requires ws[n].immediate ==> Holds(t, ws[n].id, ImmediateSlot(o.digest(ws[n].revision)))
    requires Holds(t, ws[n].id, slot) || RecentRun(t, ws[n].id, slot)
    ensures AllServed(t, o, ws[..n + 1], slot, now, interval)
  {
    hide Holds, RecentRun, ImmediateSlot, IsDue;
  }
}
