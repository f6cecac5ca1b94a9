/** Durable training claims: internal/training/scheduler.go and
    internal/postgres/training_repository.go. Every SQL statement is one atomic
    step; several schedulers, trainers of both languages and crashes interleave
    between them. */
module Claims {
  import opened Observations
  import opened Wrappers

  datatype Status = Claimed | Running | Succeeded | Failed

  /** A row of training_runs; its position is its id, in order of insertion. The
      workload stands for cluster and workload. */
  datatype Run = Run(workload: string, slot: int, status: Status, created: int)

  /** The runs and the database clock. */
  datatype Table = Table(runs: seq<Run>, clock: int)

  /** Midnight, 1 January 2500. */
  const YEAR_2500: int := 912_741 * DAY

  const CENTURY: int := 100 * 365 * DAY

  datatype Event =
    | Tick(elapsed: nat)
    | Claim(workload: string, slot: int, since: int)
    | Reserve(workload: string, slot: int)
    | MarkRunning(run: int)
    | MarkSucceeded(run: int)
    | MarkFailed(run: int)
    | TrainerCommits(run: int)

  predicate Holds(t: Table, workload: string, slot: int) {
    exists i :: 0 <= i < |t.runs| && t.runs[i].workload == workload && t.runs[i].slot == slot
  }

  predicate RecentRun(t: Table, workload: string, since: int) {
    exists i :: 0 <= i < |t.runs| && t.runs[i].workload == workload && t.runs[i].created >= since
  }

  function Insert(t: Table, workload: string, slot: int): Table {
    if Holds(t, workload, slot) then t else t.(runs := t.runs + [Run(workload, slot, Claimed, t.clock)])
  }

  function SetStatus(t: Table, run: int, status: Status): Table
    requires 0 <= run < |t.runs|
  {
    t.(runs := t.runs[run := t.runs[run].(status := status)])
  }

  predicate IsStatus(t: Table, run: int, status: Status) { 0 <= run < |t.runs| && t.runs[run].status == status }

  function Apply(t: Table, e: Event): Table {
    match e
    case Tick(d) => t.(clock := t.clock + d)
    case Claim(w, slot, since) => if since != 0 && RecentRun(t, w, since) then t else Insert(t, w, slot)
    case Reserve(w, slot) => Insert(t, w, slot)
    case MarkRunning(r) => if IsStatus(t, r, Claimed) then SetStatus(t, r, Running) else t
    case MarkSucceeded(r) => if IsStatus(t, r, Running) then SetStatus(t, r, Succeeded) else t
    case MarkFailed(r) => if 0 <= r < |t.runs| then SetStatus(t, r, Failed) else t
    // The Python trainer's one transaction (pytorch/gru_trainer.py). Its last
    // statement on the run has no status guard.
    case TrainerCommits(r) => if 0 <= r < |t.runs| then SetStatus(t, r, Succeeded) else t
  }

  function After(t: Table, es: seq<Event>): Table {
    if es == [] then t else Apply(After(t, es[..|es| - 1]), es[|es| - 1])
  }

  lemma AfterStep(t: Table, es: seq<Event>, e: Event)
    ensures After(t, es + [e]) == Apply(After(t, es), e)
  {
    assert (es + [e])[..|es|] == es;
  }

  lemma {:induction false} AfterConcat(t: Table, a: seq<Event>, b: seq<Event>)
    ensures After(t, a + b) == After(After(t, a), b)
  {
    if b == [] {
      assert a + b == a;
    } else {
      var n := |b| - 1;
      AfterConcat(t, a, b[..n]);
      assert a + b == (a + b[..n]) + [b[n]];
      AfterStep(t, a + b[..n], b[n]);
    }
  }

  // ----- slots

  /** The reserved slot of a policy revision whose digest starts with these
      eight bytes. */
  function ImmediateSlot(digest: nat): (s: int)
    ensures YEAR_2500 <= s < YEAR_2500 + CENTURY
  {
    Reserved(digest);
    YEAR_2500 + digest % (CENTURY / SECOND) * SECOND
  }

  lemma Reserved(digest: nat)
    ensures 0 <= digest % (CENTURY / SECOND) * SECOND < CENTURY
  {
    assert CENTURY / SECOND == 3_153_600_000;
    var r := digest % 3_153_600_000;
    assert 0 <= r < 3_153_600_000;
  }

  /** Digests have the same reserved slot exactly when they agree modulo the seconds
      of a century, and every second of it is the slot of some digest. */
  lemma ReservedSlotsExactly(digest: nat, other: nat)
    ensures ImmediateSlot(digest) == ImmediateSlot(other) <==> digest % 3_153_600_000 == other % 3_153_600_000
    ensures digest < 3_153_600_000 ==> ImmediateSlot(digest) == YEAR_2500 + digest * SECOND
  {
    assert CENTURY / SECOND == 3_153_600_000;
  }

  /** Schedule slots before the year 2500 never meet a reserved one. */
  lemma SlotsNeverMeet(now: int, interval: Duration, digest: nat)
    requires interval > 0 && now < YEAR_2500
    ensures Truncate(now, interval) < ImmediateSlot(digest)
  {
    hide Truncate, ImmediateSlot;
  }

  /** Claims as the scheduler makes them: exclusive since their own slot. */
  predicate Allowed(e: Event) {
    match e
    case Claim(_, slot, since) => since == slot && 0 < slot < YEAR_2500
    case Reserve(_, slot) => YEAR_2500 <= slot < YEAR_2500 + CENTURY
    case _ => true
  }

  predicate AllAllowed(es: seq<Event>) {
    forall n :: 0 <= n < |es| ==> Allowed(es[n])
  }

  // ----- invariants over every interleaving

  /** No two runs share workload and slot. */
  predicate OnePerSlot(t: Table) {
    forall i, j :: 0 <= i < j < |t.runs| ==>
      t.runs[i].workload != t.runs[j].workload || t.runs[i].slot != t.runs[j].slot
  }

  /** Runs are stamped in order of insertion, never later than now. */
  predicate Stamped(t: Table) {
    && (forall i, j :: 0 <= i < j < |t.runs| ==> t.runs[i].created <= t.runs[j].created)
    && (forall i :: 0 <= i < |t.runs| ==> t.runs[i].created <= t.clock)
  }

  /** When a scheduled run was added, every run its workload already had dated
      from before the run's own slot. */
  predicate Exclusive(t: Table) {
    forall i, j :: 0 <= i < j < |t.runs| && t.runs[i].workload == t.runs[j].workload && t.runs[j].slot < YEAR_2500 ==>
      t.runs[i].created < t.runs[j].slot
  }

  predicate Inv(t: Table) { OnePerSlot(t) && Stamped(t) && Exclusive(t) }

  lemma InsertKeeps(t: Table, workload: string, slot: int)
    requires Inv(t) && (slot < YEAR_2500 ==> !RecentRun(t, workload, slot))
    ensures Inv(Insert(t, workload, slot))
  {
  }

  lemma SetStatusKeeps(t: Table, run: int, status: Status)
    requires Inv(t) && 0 <= run < |t.runs|
    ensures Inv(SetStatus(t, run, status))
  {
  }

  lemma ApplyKeeps(t: Table, e: Event)
    requires Inv(t) && Allowed(e)
    ensures Inv(Apply(t, e))
  {
    hide Inv, Insert, SetStatus, RecentRun;
    match e
    case Tick(d) => Later(t, d);
    case Claim(w, slot, since) => if !RecentRun(t, w, since) { InsertKeeps(t, w, slot); }
    case Reserve(w, slot) => InsertKeeps(t, w, slot);
    case MarkRunning(r) => if IsStatus(t, r, Claimed) { SetStatusKeeps(t, r, Running); }
    case MarkSucceeded(r) => if IsStatus(t, r, Running) { SetStatusKeeps(t, r, Succeeded); }
    case MarkFailed(r) => if 0 <= r < |t.runs| { SetStatusKeeps(t, r, Failed); }
    case TrainerCommits(r) => if 0 <= r < |t.runs| { SetStatusKeeps(t, r, Succeeded); }
  }

  lemma Later(t: Table, elapsed: nat)
    requires Inv(t)
    ensures Inv(t.(clock := t.clock + elapsed))
  {
  }

  lemma {:induction false} RunsKeepInvariant(t: Table, es: seq<Event>)
    requires Inv(t) && AllAllowed(es)
    ensures Inv(After(t, es))
  {
    hide Inv, Apply, Allowed;
    if es != [] {
      var n := |es| - 1;
      assert forall m :: 0 <= m < n ==> es[..n][m] == es[m];
      RunsKeepInvariant(t, es[..n]);
      ApplyKeeps(After(t, es[..n]), es[n]);
    }
  }

  /** Once any run of a workload was created at or after the start of a schedule
      interval, no later step adds a scheduled run for that slot. */
  lemma NoScheduledRunAfterAny(t: Table, es: seq<Event>, i: nat, j: nat)
    requires Inv(t) && AllAllowed(es)
    requires i < j < |After(t, es).runs|
    requires After(t, es).runs[i].workload == After(t, es).runs[j].workload && After(t, es).runs[j].slot < YEAR_2500
    ensures After(t, es).runs[i].created < After(t, es).runs[j].slot
  {
    hide After, Allowed;
    RunsKeepInvariant(t, es);
  }

  // ----- status

  /** One statement moves one run at most, along claimed, running, succeeded, or
      from anywhere to failed, or from anywhere to succeeded by the commit of a
      Python trainer; identity and slot never change. */
  lemma StatusMoves(t: Table, e: Event, i: nat)
    requires i < |t.runs|
    ensures var u := Apply(t, e);
            && i < |u.runs|
            && u.runs[i].(status := t.runs[i].status) == t.runs[i]
            && (u.runs[i].status == t.runs[i].status
                || (t.runs[i].status == Claimed && u.runs[i].status == Running && e == MarkRunning(i))
                || (t.runs[i].status == Running && u.runs[i].status == Succeeded && e == MarkSucceeded(i))
                || (u.runs[i].status == Failed && e == MarkFailed(i))
                || (u.runs[i].status == Succeeded && e == TrainerCommits(i)))
            && (e == TrainerCommits(i) ==> u.runs[i].status == Succeeded)
  {
  }

  lemma NewRunsAreClaimed(t: Table, e: Event)
    ensures |t.runs| <= |Apply(t, e).runs| <= |t.runs| + 1
    ensures |Apply(t, e).runs| > |t.runs| ==> Apply(t, e).runs[|t.runs|].status == Claimed
  {
  }

  lemma {:induction false} RunsOnlyGrow(t: Table, es: seq<Event>)
    ensures |t.runs| <= |After(t, es).runs|
    ensures forall i :: 0 <= i < |t.runs| ==> After(t, es).runs[i].(status := t.runs[i].status) == t.runs[i]
  {
    hide Apply;
    if es != [] {
      var n := |es| - 1;
      RunsOnlyGrow(t, es[..n]);
      NewRunsAreClaimed(After(t, es[..n]), es[n]);
      forall i: nat | i < |t.runs| ensures After(t, es).runs[i].(status := t.runs[i].status) == t.runs[i] {
        StatusMoves(After(t, es[..n]), es[n], i);
      }
    }
  }

  /** Step n of a run of events is where i becomes succeeded. */
  ghost predicate Succeeds(t: Table, es: seq<Event>, i: nat, n: nat)
    requires n < |es|
  {
    IsStatus(After(t, es[..n + 1]), i, Succeeded) && !IsStatus(After(t, es[..n]), i, Succeeded)
  }

  /** Whenever i became succeeded, it was running before. */
  ghost predicate Earned(t: Table, es: seq<Event>, i: nat) {
    forall n :: 0 <= n < |es| && Succeeds(t, es, i, n) ==> IsStatus(After(t, es[..n]), i, Running)
  }

  /** A Python trainer never commits on a run that is only claimed or has
      failed. */
  ghost predicate CommitsOnRunning(t: Table, es: seq<Event>, i: nat) {
    forall n :: 0 <= n < |es| && es[n] == TrainerCommits(i) ==>
      !IsStatus(After(t, es[..n]), i, Claimed) && !IsStatus(After(t, es[..n]), i, Failed)
  }

  lemma StatusIs(t: Table, i: nat)
    requires i < |t.runs|
    ensures IsStatus(t, i, Claimed) || IsStatus(t, i, Running) || IsStatus(t, i, Succeeded) || IsStatus(t, i, Failed)
  {
  }

  lemma StepOf(t: Table, es: seq<Event>, i: nat, n: nat)
    requires n < |es|
    ensures After(t, es[..n + 1]) == Apply(After(t, es[..n]), es[n])
    ensures Succeeds(t, es, i, n) ==>
            i < |After(t, es[..n]).runs|
            && (es[n] == MarkSucceeded(i) || es[n] == TrainerCommits(i))
    ensures Succeeds(t, es, i, n) && es[n] == MarkSucceeded(i) ==> IsStatus(After(t, es[..n]), i, Running)
    ensures es[n] == TrainerCommits(i) && i < |After(t, es[..n]).runs| ==> IsStatus(After(t, es[..n + 1]), i, Succeeded)
  {
    hide Apply;
    assert es[..n + 1][..n] == es[..n];
    var before := After(t, es[..n]);
    NewRunsAreClaimed(before, es[n]);
    if i < |before.runs| { StatusMoves(before, es[n], i); }
  }

  /** Every success of a run was earned exactly when no Python trainer committed
      on it while it was claimed or failed. The guarded statement alone only
      ever finishes a running one. */
  lemma SuccessesAreEarnedExactly(t: Table, es: seq<Event>, i: nat)
    ensures Earned(t, es, i) <==> CommitsOnRunning(t, es, i)
  {
    hide After, Apply;
    forall n: nat | n < |es|
      ensures Succeeds(t, es, i, n) && !IsStatus(After(t, es[..n]), i, Running) <==>
              es[n] == TrainerCommits(i)
              && (IsStatus(After(t, es[..n]), i, Claimed) || IsStatus(After(t, es[..n]), i, Failed))
    {
      StepOf(t, es, i, n);
      if i < |After(t, es[..n]).runs| { StatusIs(After(t, es[..n]), i); }
    }
  }

  /** A run that is running was claimed before, whoever works on it. */
  lemma {:induction false} RunningWasClaimed(t: Table, es: seq<Event>, i: nat) returns (m: nat)
    requires t.runs == [] && IsStatus(After(t, es), i, Running)
    ensures m < |es| && es[m] == MarkRunning(i) && IsStatus(After(t, es[..m]), i, Claimed)
  {
    hide Apply;
    var n := |es| - 1;
    var before := After(t, es[..n]);
    NewRunsAreClaimed(before, es[n]);
    if i < |before.runs| { StatusMoves(before, es[n], i); }
    if IsStatus(before, i, Running) {
      m := RunningWasClaimed(t, es[..n], i);
      assert es[..n][..m] == es[..m];
    } else {
      m := n;
    }
  }

  /** A failed run stays failed, at every moment, exactly when no Python trainer
      commits on it. */
  lemma {:induction false} FailedStaysFailedExactly(t: Table, es: seq<Event>, i: nat)
    requires IsStatus(t, i, Failed)
    ensures (forall n :: 0 <= n <= |es| ==> IsStatus(After(t, es[..n]), i, Failed)) <==> TrainerCommits(i) !in es
  {
    hide Apply;
    if es == [] {
      assert es[..0] == es;
    } else {
      var n := |es| - 1;
      FailedStaysFailedExactly(t, es[..n], i);
      assert es == es[..n] + [es[n]] && es[..|es|] == es;
      forall m: nat | m <= n ensures es[..n][..m] == es[..m] {}
      if TrainerCommits(i) !in es[..n] { StatusMoves(After(t, es[..n]), es[n], i); }
    }
  }

  /** The first pod of a Job marks its run failed; the retry's guarded update to
      running finds nothing, its commit revives the run all the same. */
  lemma RetriedTrainerRevivesFailedRun(t: Table, run: int)
    requires IsStatus(t, run, Claimed)
    ensures IsStatus(After(t, [MarkFailed(run)]), run, Failed)
    ensures IsStatus(After(t, [MarkFailed(run), TrainerCommits(run)]), run, Succeeded)
    ensures !Earned(t, [MarkFailed(run), TrainerCommits(run)], run)
  {
    var es := [MarkFailed(run), TrainerCommits(run)];
    AfterStep(t, [], MarkFailed(run));
    AfterStep(t, [MarkFailed(run)], TrainerCommits(run));
    assert [] + [MarkFailed(run)] == [MarkFailed(run)] && [MarkFailed(run)] + [TrainerCommits(run)] == es;
    assert es[..1] == [MarkFailed(run)] && es[..2] == es;
    assert Succeeds(t, es, run, 1);
  }

  /** Nothing makes a run claimed again. */
  lemma {:induction false} TakenForGood(t: Table, es: seq<Event>, i: nat)
    requires i < |t.runs| && t.runs[i].status != Claimed
    ensures i < |After(t, es).runs| && After(t, es).runs[i].status != Claimed
  {
    hide Apply;
    if es != [] {
      var n := |es| - 1;
      TakenForGood(t, es[..n], i);
      StatusMoves(After(t, es[..n]), es[n], i);
    }
  }

  // ----- immediate claims

  /** The run that holds a slot. */
  predicate HoldsAt(t: Table, workload: string, slot: int, i: int) {
    0 <= i < |t.runs| && t.runs[i].workload == workload && t.runs[i].slot == slot
  }

  /** What ClaimImmediate hands out once its insert has run: the slot's run, as
      long as nobody has taken it up. */
  ghost predicate HandsOut(t: Table, workload: string, slot: int, run: Option<int>) {
    if run.Some? then HoldsAt(t, workload, slot, run.value) && t.runs[run.value].status == Claimed
    else forall i :: HoldsAt(t, workload, slot, i) ==> t.runs[i].status != Claimed
  }

  /** All immediate claims of one policy revision share one run: whatever is
      handed out later, at any point of any run, is the run handed out first. */
  lemma ImmediateClaimsShareOneRun(t: Table, es: seq<Event>, workload: string, digest: nat, first: int, later: int)
    requires Inv(t) && AllAllowed(es)
    requires HandsOut(t, workload, ImmediateSlot(digest), Some(first))
    requires HandsOut(After(t, es), workload, ImmediateSlot(digest), Some(later))
    ensures later == first
  {
    hide After, Allowed, ImmediateSlot;
    RunsKeepInvariant(t, es);
    RunsOnlyGrow(t, es);
  }

  /** Once a revision has its run, an immediate claim is handed that run exactly
      while it is still claimed, and none exactly when it is not. */
  lemma ImmediateRunIsHandedOutExactly(t: Table, es: seq<Event>, workload: string, digest: nat, i: nat,
                                       later: Option<int>)
    requires Inv(t) && AllAllowed(es)
    requires HoldsAt(t, workload, ImmediateSlot(digest), i)
    requires HandsOut(After(t, es), workload, ImmediateSlot(digest), later)
    ensures later == Some(i) <==> IsStatus(After(t, es), i, Claimed)
    ensures later == None <==> !IsStatus(After(t, es), i, Claimed)
  {
    hide After, Allowed, ImmediateSlot;
    RunsKeepInvariant(t, es);
    RunsOnlyGrow(t, es);
  }

  /** So a revision whose one run has failed, or was taken up in any other way, is
      never handed a run again. */
  lemma FailedRevisionIsNotRetried(t: Table, es: seq<Event>, workload: string, digest: nat, i: nat, later: Option<int>)
    requires Inv(t) && AllAllowed(es)
    requires HoldsAt(t, workload, ImmediateSlot(digest), i) && !IsStatus(t, i, Claimed)
    requires HandsOut(After(t, es), workload, ImmediateSlot(digest), later)
    ensures later == None
  {
    hide After, Inv, AllAllowed, ImmediateSlot;
    TakenForGood(t, es, i);
    ImmediateRunIsHandedOutExactly(t, es, workload, digest, i, later);
  }

  /** The same reservation, with the failure of its Job recorded and without: the
      recorded one is lost to its revision, the other is handed out again. */
  lemma RecordedFailureLosesTheRun(workload: string, digest: nat)
    ensures var s := ImmediateSlot(digest);
            var marked := After(Table([], 0), [Reserve(workload, s), MarkFailed(0)]);
            var unmarked := After(Table([], 0), [Reserve(workload, s)]);
            && AllAllowed([Reserve(workload, s), MarkFailed(0)])
            && HoldsAt(marked, workload, s, 0) && IsStatus(marked, 0, Failed) && HandsOut(marked, workload, s, None)
            && HoldsAt(unmarked, workload, s, 0) && HandsOut(unmarked, workload, s, Some(0))
  {
    hide ImmediateSlot;
    var s := ImmediateSlot(digest);
    AfterStep(Table([], 0), [], Reserve(workload, s));
    AfterStep(Table([], 0), [Reserve(workload, s)], MarkFailed(0));
    assert [] + [Reserve(workload, s)] == [Reserve(workload, s)];
    assert [Reserve(workload, s)] + [MarkFailed(0)] == [Reserve(workload, s), MarkFailed(0)];
  }
}
