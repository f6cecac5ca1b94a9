/** Training-history repair (internal/history/repair.go) against a sample table
    that other sessions write to as well (internal/postgres/sample_repair.go). */
module Repair {
  import opened Wrappers
  import opened Observations
  import opened RepairPlan
  import opened Slots

  type Id = nat

  datatype Point = Point(at: int, value: real)

  /** What another session commits between two of our transactions: it adds or
      rewrites points of its own, and may change the workload's policy. */
  datatype Interference = Interference(upserts: map<int, real>, policyRevision: Id, fingerprint: Id, active: bool)

  datatype Workload = Workload(policyRevision: Id, fingerprint: Id, sampling: Duration, trainingWindow: Duration,
                               hasSource: bool)

  datatype InsertRefusal = InvalidBatch | WorkloadMissing | PolicyChanged | InvalidIdentityOrValue

  /** Some row lies in [at, at+width). */
  predicate Occupied(rows: map<int, real>, at: int, width: int) {
    exists t :: t in rows && at <= t < at + width
  }

  /** The table together with its history: the keys others wrote, the rows the
      repair inserted, and whether anyone else will still write. */
  datatype State = State(rows: map<int, real>, touched: set<int>, inserted: map<int, real>, quiet: bool)

  /** Every row after is written by others, or was there before unchanged, or is
      one the repair inserted where no row was. */
  ghost predicate Evolves(a: State, b: State) {
    && a.rows.Keys <= b.rows.Keys && a.touched <= b.touched && a.inserted.Keys <= b.inserted.Keys
    && (forall t :: t in b.rows && t !in b.touched ==>
          (t in a.rows && b.rows[t] == a.rows[t]) ||
          (t !in a.rows && t in b.inserted && t !in a.inserted && b.rows[t] == b.inserted[t]))
    && (forall t :: t in b.inserted && t !in a.inserted ==> t !in a.rows && t in b.rows)
    && (forall t :: t in a.inserted ==> b.inserted[t] == a.inserted[t])
    && (a.quiet ==> b.quiet && b.touched == a.touched)
    && (a.touched <= a.rows.Keys ==> b.touched <= b.rows.Keys)
  }

  lemma EvolvesTransitively(a: State, b: State, c: State)
    requires Evolves(a, b) && Evolves(b, c)
    ensures Evolves(a, c)
  {
  }

  /** Others left the table alone. */
  lemma QuietKeepsRows(a: State, b: State)
    requires Evolves(a, b) && a.quiet && a.touched == {}
    ensures forall t :: t in a.rows ==> b.rows[t] == a.rows[t]
  {
  }

  function Select(rows: map<int, real>, start: int, end: int): (kept: map<int, real>)
    ensures forall t :: t in rows && start <= t <= end ==> t in kept
  {
    map t | t in rows && start <= t <= end :: rows[t]
  }

  /** The rows as a list, each exactly once. */
  method ListOf(rows: map<int, real>) returns (values: seq<Point>)
    ensures forall k :: 0 <= k < |values| ==> values[k].at in rows && values[k].value == rows[values[k].at]
    ensures forall t :: t in rows ==> exists k :: 0 <= k < |values| && values[k].at == t
  {
    values := [];
    var pending := rows.Keys;
    while pending != {}
      invariant pending <= rows.Keys
      invariant forall k :: 0 <= k < |values| ==> values[k].at in rows && values[k].value == rows[values[k].at]
      invariant forall t :: t in rows && t !in pending ==> exists k :: 0 <= k < |values| && values[k].at == t
      decreases |pending|
    {
      ghost var some := Member(pending);
      var t: int :| t in pending;
      pending := pending - {t};
      ghost var before := values;
      values := values + [Point(t, rows[t])];
      forall u | u in rows && u !in pending ensures exists k :: 0 <= k < |values| && values[k].at == u {
        if u == t {
          assert values[|before|].at == u;
        } else {
          var k :| 0 <= k < |before| && before[k].at == u;
          assert values[k].at == u;
        }
      }
    }
  }

  class SampleTable {
    var rows: map<int, real>
    var policyRevision: Id
    var fingerprint: Id
    var active: bool
    /** The commits of other sessions that are still to come. */
    var others: seq<Interference>
    ghost var touched: set<int>
    ghost var inserted: map<int, real>

    constructor (rows: map<int, real>, policyRevision: Id, fingerprint: Id, active: bool, others: seq<Interference>)
      ensures Now() == State(rows, {}, map[], others == [])
    {
      this.rows, this.policyRevision, this.fingerprint, this.active, this.others := rows, policyRevision, fingerprint,
        active, others;
      touched, inserted := {}, map[];
    }

    ghost function Now(): State
      reads this
    {
      State(rows, touched, inserted, others == [])
    }

    /** The workload is and stays active under its policy, and no session ever
        stores a negative value. */
    ghost predicate Serves(wl: Workload)
      reads this
    {
      && active && policyRevision == wl.policyRevision && fingerprint == wl.fingerprint && NonNegative(rows)
      && forall k :: 0 <= k < |others| ==>
        && others[k].active && others[k].policyRevision == wl.policyRevision
        && others[k].fingerprint == wl.fingerprint && NonNegative(others[k].upserts)
    }

    method Interleave(ghost wl: Workload)
      modifies this
      ensures Evolves(old(Now()), Now()) && inserted == old(inserted)
      ensures old(others) == [] ==> Now() == old(Now())
      ensures old(Serves(wl)) ==> Serves(wl)
    {
      if others != [] {
        var next := others[0];
        others := others[1..];
        rows := rows + next.upserts;
        policyRevision, fingerprint, active := next.policyRevision, next.fingerprint, next.active;
        touched := touched + next.upserts.Keys;
      }
    }

    /** ListSamplesForWindow: the rows from start up to and including end. */
    method ListSamples(start: int, end: int, ghost wl: Workload) returns (values: seq<Point>)
      modifies this
      ensures Evolves(old(Now()), Now()) && inserted == old(inserted)
      ensures old(others) == [] ==> Now() == old(Now())
      ensures old(Serves(wl)) ==> Serves(wl)
      ensures forall k :: 0 <= k < |values| ==>
              values[k].at in rows && start <= values[k].at <= end
              && values[k].value == rows[values[k].at]
      ensures forall t :: t in rows && start <= t <= end ==> exists k :: 0 <= k < |values| && values[k].at == t
    {
      Interleave(wl);
      values := ListOf(Select(rows, start, end));
    }

    /** One statement of the batch: INSERT ... WHERE NOT EXISTS ... ON CONFLICT DO NOTHING. */
    method InsertIfAbsent(p: Point, width: int, ghost w: Window) returns (n: nat)
      requires ValidWindow(w) && width == w.interval && OnGrid(w, p.at) && Consistent(Now(), w)
      modifies `rows, `inserted
      ensures Evolves(old(Now()), Now()) && Consistent(Now(), w)
      ensures Missing(rows, w) + n == Missing(old(rows), w) && Filled(rows, w, SlotOf(w, p.at))
      ensures n == 0 ==> rows == old(rows) && inserted == old(inserted)
      ensures n == 1 ==> rows == old(rows)[p.at := p.value]
      ensures n == 1 ==> p.at !in old(inserted) && inserted == old(inserted)[p.at := p.value]
      ensures n <= 1
    {
      hide SlotOf, Evolves, OnGrid, Consistent;
      ghost var a := Now();
      SameSlot(rows, w, p.at);
      if Occupied(rows, p.at, width) {
        n := 0;
        EvolvesReflexively(a);
      } else {
        InsertEvolves(a, w, p.at, p.value);
        NewRowFillsItsSlot(rows, w, p.at, p.value);
        rows := rows[p.at := p.value];
        inserted := inserted[p.at := p.value];
        n := 1;
      }
    }

    /** InsertMissingSamples. `grid` relates the batch to the caller's window. */
    method InsertMissingSamples(wl: Workload, samples: seq<Point>, ghost w: Window)
      returns (r: Result<nat, InsertRefusal>)
      requires ValidWindow(w) && w.interval == wl.sampling && wl.sampling % SECOND == 0 && Consistent(Now(), w)
      requires forall k :: 0 <= k < |samples| ==> samples[k].at % wl.sampling == 0 ==> OnGrid(w, samples[k].at)
      modifies this
      ensures Evolves(old(Now()), Now()) && Consistent(Now(), w)
      ensures r.Err? ==> inserted == old(inserted)
      ensures old(Serves(wl)) ==> Serves(wl) && (r.Err? ==> r.error in {InvalidBatch, InvalidIdentityOrValue})
      ensures r.Ok? ==> |inserted| == |old(inserted)| + r.value
      ensures r.Ok? ==> Missing(rows, w) + r.value <= Missing(old(rows), w)
      ensures r.Ok? && old(others) == [] ==> Missing(rows, w) + r.value == Missing(old(rows), w)
      ensures r == Err(InvalidBatch) ==> samples != [] && (wl.sampling < SECOND || |samples| > 10000)
      ensures r == Err(InvalidIdentityOrValue) ==> exists k ::
              0 <= k < |samples| && (samples[k].value < 0.0 || samples[k].at % wl.sampling != 0)
      ensures r.Ok? ==> forall k :: 0 <= k < |samples| ==> Filled(rows, w, SlotOf(w, samples[k].at))
      ensures AddsOnly(old(inserted), inserted, samples)
    {
      hide SlotOf, Evolves, OnGrid, Consistent, Missing, Filled;
      ghost var start, serves := Now(), Serves(wl);
      EvolvesReflexively(start);
      if samples == [] { return Ok(0); }
      if wl.sampling < SECOND || |samples| > 10000 { return Err(InvalidBatch); }
      Interleave(wl);
      ghost var begun := Now();
      EvolvesReflexively(begun);
      ConsistentLater(start, begun, w);
      MoreRowsFewerMissing(start.rows, begun.rows, w) by { KeysGrow(start, begun); }
      assert start.quiet ==> begun.rows == start.rows;
      if !active { return Err(WorkloadMissing); }
      if policyRevision != wl.policyRevision || fingerprint != wl.fingerprint { return Err(PolicyChanged); }
      for k := 0 to |samples|
        invariant forall j :: 0 <= j < k ==> samples[j].value >= 0.0 && samples[j].at % wl.sampling == 0
      {
        if samples[k].value < 0.0 || samples[k].at % wl.sampling != 0 { return Err(InvalidIdentityOrValue); }
      }
      var count := 0;
      for k := 0 to |samples|
        invariant Evolves(begun, Now()) && Consistent(Now(), w) && (serves ==> Serves(wl))
        invariant |inserted| == |begun.inserted| + count
        invariant Missing(rows, w) + count == Missing(begun.rows, w)
        invariant forall j :: 0 <= j < k ==> Filled(rows, w, SlotOf(w, samples[j].at))
        invariant AddsOnly(start.inserted, inserted, samples)
      {
        ghost var before := Now();
        var n := InsertIfAbsent(samples[k], wl.sampling, w);
        assert samples[k] == Point(samples[k].at, samples[k].value) && samples[k] in samples;
        EvolvesTransitively(begun, before, Now());
        MoreRowsFewerMissing(before.rows, rows, w) by { KeysGrow(before, Now()); }
        count := count + n;
      }
      EvolvesTransitively(start, begun, Now());
      r := Ok(count);
    }
  }

  ghost predicate NonNegative(rows: map<int, real>) { forall t :: t in rows ==> rows[t] >= 0.0 }

  /** Whatever was newly inserted is one of these points. */
  predicate AddsOnly(before: map<int, real>, after: map<int, real>, samples: seq<Point>) {
    forall t :: t in after && t !in before ==> Point(t, after[t]) in samples
  }

  lemma KeysGrow(a: State, b: State)
    requires Evolves(a, b)
    ensures a.rows.Keys <= b.rows.Keys
  {
  }

  /** An instant that starts one of the window's slots. */
  ghost predicate OnGrid(w: Window, at: int)
    requires ValidWindow(w)
  {
    at == SlotStart(w, SlotOf(w, at)) && 0 <= SlotOf(w, at) < w.slots
  }

  /** What others wrote and what the repair inserted is in the table, of the latter
      at most one row per slot. */
  ghost predicate Consistent(s: State, w: Window)
    requires ValidWindow(w)
  {
    && s.inserted.Keys <= s.rows.Keys && s.touched <= s.rows.Keys
    && forall t, u :: t in s.inserted && u in s.inserted && SlotOf(w, t) == SlotOf(w, u) ==> t == u
  }

  lemma ConsistentLater(a: State, b: State, w: Window)
    requires ValidWindow(w) && Evolves(a, b) && b.inserted == a.inserted && Consistent(a, w)
    ensures Consistent(b, w)
  {
    hide SlotOf;
  }

  lemma EvolvesReflexively(a: State)
    ensures Evolves(a, a)
  {
  }

  lemma InsertEvolves(a: State, w: Window, t: int, v: real)
    requires ValidWindow(w) && Consistent(a, w) && t !in a.rows && !Filled(a.rows, w, SlotOf(w, t))
    ensures var b := a.(rows := a.rows[t := v], inserted := a.inserted[t := v]);
            Evolves(a, b) && Consistent(b, w)
            && t !in a.inserted
  {
    hide SlotOf;
    forall u | u in a.inserted ensures SlotOf(w, u) != SlotOf(w, t) {
      assert u in a.rows;
    }
  }

  /** On the window's grid, the slot-level NOT EXISTS test is the slot test. */
  lemma SameSlot(rows: map<int, real>, w: Window, at: int)
    requires ValidWindow(w) && OnGrid(w, at)
    ensures Occupied(rows, at, w.interval) <==> Filled(rows, w, SlotOf(w, at))
    ensures at in rows ==> Filled(rows, w, SlotOf(w, at))
    ensures 0 <= SlotOf(w, at) < w.slots
  {
    hide SlotOf, SlotStart;
    var s := SlotOf(w, at);
    forall t ensures SlotOf(w, t) == s <==> at <= t < at + w.interval { SlotBounds(w, s, t); }
  }

  // ----- the repair

  datatype Limits = Limits(timeoutsValid: bool, maxPoints: int)

  /** Policy.Validate; the duration limits are summarised by one flag. */
  predicate ValidLimits(l: Limits) { l.timeoutsValid && 1 <= l.maxPoints <= 2_000_000 }

  datatype Failure =
    | InvalidLimits | InvalidContract | PointBudgetExceeded | InvalidStoredObservation | RequestBudgetExceeded
    | RequestFailed | ExcessPoints | InvalidPoint | DuplicateSlot | InsertFailed(why: InsertRefusal) | Incomplete

  datatype Report = Report(expected: int, missingBefore: int, missingAfter: int, inserted: int, requests: int)

  /** The points that came back for a span. */
  datatype Answer = Answer(part: Span, values: seq<Point>)

  /** Prometheus: the answers still to come (None is a failed request; no more
      answers means every further request fails). */
  class Querier {
    var answers: seq<Option<seq<Point>>>
    ghost var failures: nat
    /** Every answered request. */
    ghost var log: seq<Answer>

    constructor (answers: seq<Option<seq<Point>>>)
      ensures this.answers == answers && failures == 0 && log == []
    {
      this.answers, failures, log := answers, 0, [];
    }

    method QueryRange(first: int, last: int) returns (values: Option<seq<Point>>)
      modifies this
      ensures failures == old(failures) + if values.None? then 1 else 0
      ensures log == old(log) + if values.None? then [] else [Answer(Span(first, last), values.value)]
    {
      if answers == [] {
        values := None;
      } else {
        values := answers[0];
        answers := answers[1..];
      }
      if values.None? { failures := failures + 1; } else { log := log + [Answer(Span(first, last), values.value)]; }
    }
  }

  predicate ValidRequest(w: Workload, start: int, end: int) {
    && w.sampling >= SECOND && w.sampling % SECOND == 0 && start < end && end - start <= 90 * DAY
    && end - start == w.trainingWindow && (end - start) % w.sampling == 0
    && start % w.sampling == 0 && end % w.sampling == 0 && w.hasSource
  }

  function WindowOf(w: Workload, start: int, end: int): (win: Window)
    requires ValidRequest(w, start, end)
    ensures ValidWindow(win) && win.start == start && win.interval == w.sampling && SlotStart(win, win.slots) == end
            && win.slots > 0
  {
    DivBounds(end - start, w.sampling);
    WholeQuotient(end - start, w.sampling);
    Window(start, w.sampling, (end - start) / w.sampling)
  }

  /** The instants inside the window are those of its slots. */
  lemma InsideWindow(w: Window, t: int)
    requires ValidWindow(w)
    ensures w.start <= t < SlotStart(w, w.slots) <==> 0 <= SlotOf(w, t) < w.slots
  {
    var s := SlotOf(w, t);
    SlotBounds(w, s, t);
    DivBounds(t - w.start, w.interval);
    if 0 <= s < w.slots { AtMost(s + 1, w.slots, w.interval); }
    if s < 0 { AtMost(s + 1, 0, w.interval); }
    if s >= w.slots { AtMost(w.slots, s, w.interval); }
  }

  lemma AtMost(a: int, b: int, n: int)
    requires n > 0 && a <= b
    ensures a * n <= b * n && (a - 1) * n + n == a * n
  {
    assert (b - a) * n >= 0;
    assert b * n - a * n == (b - a) * n;
  }

  method MarkAll(missing: array<bool>)
    modifies missing
    ensures forall s :: 0 <= s < missing.Length ==> missing[s]
  {
    var i := 0;
    while i < missing.Length
      invariant 0 <= i <= missing.Length && forall s :: 0 <= s < i ==> missing[s]
    {
      missing[i] := true;
      i := i + 1;
    }
  }

  /** Clears the slots of the samples, or stops at one that is outside the window
      or negative. */
  method ClearSeen(w: Window, values: seq<Point>, missing: array<bool>) returns (valid: bool)
    requires ValidWindow(w) && missing.Length == w.slots && forall s :: 0 <= s < missing.Length ==> missing[s]
    modifies missing
    ensures valid <==> forall j :: 0 <= j < |values| ==>
              w.start <= values[j].at < SlotStart(w, w.slots) && values[j].value >= 0.0
    ensures valid ==> forall s :: 0 <= s < missing.Length ==>
              (missing[s] <==> !(exists j :: 0 <= j < |values| && SlotOf(w, values[j].at) == s))
  {
    hide SlotOf, SlotStart;
    var end := SlotStart(w, w.slots);
    for k := 0 to |values|
      invariant forall s :: 0 <= s < missing.Length ==>
                (missing[s] <==> !(exists j :: 0 <= j < k && SlotOf(w, values[j].at) == s))
      invariant forall j :: 0 <= j < k ==> w.start <= values[j].at < end && values[j].value >= 0.0
    {
      var p := values[k];
      if p.at < w.start || p.at >= end || p.value < 0.0 { return false; }
      InsideWindow(w, p.at);
      missing[SlotOf(w, p.at)] := false;
    }
    valid := true;
  }

  method CountMarked(missing: array<bool>) returns (n: int)
    ensures n == CountTrue(missing[..])
  {
    n := 0;
    for k := 0 to missing.Length
      invariant n == CountTrue(missing[..k])
    {
      assert missing[..k + 1][..k] == missing[..k];
      if missing[k] { n := n + 1; }
    }
    assert missing[..missing.Length] == missing[..];
  }

  /** Some row of the window is negative. */
  ghost predicate HoldsNegative(rows: map<int, real>, w: Window) {
    exists t :: t in rows && w.start <= t < SlotStart(w, w.slots) && rows[t] < 0.0
  }

  /** The slots of the window that the stored rows leave missing, recomputed in
      place; refuses rows a training set cannot contain. */
  method Read(table: SampleTable, w: Window, missing: array<bool>, ghost wl: Workload) returns (count: Option<int>)
    requires ValidWindow(w) && missing.Length == w.slots && w.slots > 0 && Consistent(table.Now(), w)
    modifies table, missing
    ensures Evolves(old(table.Now()), table.Now()) && table.inserted == old(table.inserted)
            && Consistent(table.Now(), w)
    ensures old(table.others) == [] ==> table.Now() == old(table.Now())
    ensures old(table.Serves(wl)) ==> table.Serves(wl)
    ensures count.None? <==> HoldsNegative(table.rows, w)
    ensures count.Some? ==> missing[..] == MissingBits(table.rows, w) && count.value == Missing(table.rows, w)
  {
    hide SlotOf, SlotStart, Evolves, Consistent;
    ghost var before := table.Now();
    var end := SlotStart(w, w.slots);
    var values := table.ListSamples(w.start, end - 1, wl);
    ConsistentLater(before, table.Now(), w);
    MarkAll(missing);
    var valid := ClearSeen(w, values, missing);
    if !valid { return None; }
    ReadBits(table.rows, w, values, missing[..]);
    var n := CountMarked(missing);
    count := Some(n);
  }

  lemma ReadBits(rows: map<int, real>, w: Window, values: seq<Point>, bits: seq<bool>)
    requires ValidWindow(w) && |bits| == w.slots
    requires forall k :: 0 <= k < |values| ==> values[k].at in rows
    requires forall t :: t in rows && w.start <= t <= SlotStart(w, w.slots) - 1 ==> exists k ::
             0 <= k < |values| && values[k].at == t
    requires forall s :: 0 <= s < |bits| ==>
             (bits[s] <==> !(exists j :: 0 <= j < |values| && SlotOf(w, values[j].at) == s))
    ensures bits == MissingBits(rows, w)
  {
    hide SlotOf, SlotStart;
    forall s | 0 <= s < w.slots ensures bits[s] == !Filled(rows, w, s) {
      if Filled(rows, w, s) {
        var t :| t in rows && SlotOf(w, t) == s;
        InsideWindow(w, t);
        var k :| 0 <= k < |values| && values[k].at == t;
        assert SlotOf(w, values[k].at) == s;
      }
      if !bits[s] {
        var j :| 0 <= j < |values| && SlotOf(w, values[j].at) == s;
        assert values[j].at in rows;
      }
    }
  }

  /** time.Round: the nearest multiple, halfway values up. */
  function Round(t: int, d: int): (r: int)
    requires d > 0
    ensures r % d == 0 && 2 * (r - t) <= d && 2 * (t - r) < d
  {
    DivBounds(t, d);
    MultipleMod(t / d, d);
    MultipleMod(t / d + 1, d);
    var rest := t - t / d * d;
    assert (t / d + 1) * d == t / d * d + d;
    if rest + rest < d then t / d * d else (t / d + 1) * d
  }

  /** An aligned instant of an aligned window starts its slot. */
  lemma AlignedOnGrid(w: Window, at: int)
    requires ValidWindow(w) && w.start % w.interval == 0 && at % w.interval == 0
    ensures at == SlotStart(w, SlotOf(w, at))
  {
    var n := w.interval;
    DivBounds(at, n);
    DivBounds(w.start, n);
    assert at == at / n * n && w.start == w.start / n * n;
    assert at - w.start == (at / n - w.start / n) * n;
    DivUnique(at - w.start, n, at / n - w.start / n);
  }

  const MILLISECOND: Duration := 1_000_000

  /** The point on the grid that an answered point stands for. */
  function Snapped(w: Window, p: Point): Point
    requires ValidWindow(w)
  {
    Point(Round(p.at, w.interval), p.value)
  }

  /** Not negative, inside the span, and off the grid by no more than timestamp
      encoding. */
  predicate Acceptable(w: Window, part: Span, p: Point)
    requires ValidWindow(w)
  {
    var at := Snapped(w, p).at;
    -1_000_000 <= p.at - at <= 1_000_000 && SlotStart(w, part.first) <= at <= SlotStart(w, part.last)
      && p.value >= 0.0
  }

  function SnappedSlot(w: Window, p: Point): int
    requires ValidWindow(w)
  {
    SlotOf(w, Snapped(w, p).at)
  }

  predicate IsMissing(missing: seq<bool>, s: int) { 0 <= s < |missing| && missing[s] }

  /** The answered points of missing slots, on the grid and in order. */
  function Kept(w: Window, values: seq<Point>, missing: seq<bool>): (r: seq<Point>)
    requires ValidWindow(w)
    ensures |r| <= |values|
  {
    if values == [] then [] else
      var n := |values| - 1;
      Kept(w, values[..n], missing) + if IsMissing(missing, SnappedSlot(w, values[n])) then [Snapped(w, values[n])]
        else []
  }

  lemma {:induction false} KeptComesFrom(w: Window, values: seq<Point>, missing: seq<bool>)
    requires ValidWindow(w)
    ensures forall p :: p in Kept(w, values, missing) <==>
            exists k :: 0 <= k < |values| && Snapped(w, values[k]) == p && IsMissing(missing, SnappedSlot(w, values[k]))
  {
    hide SlotOf, Round;
    if values != [] {
      var n := |values| - 1;
      KeptComesFrom(w, values[..n], missing);
      forall p
        ensures p in Kept(w, values, missing) <==> exists k ::
                0 <= k < |values| && Snapped(w, values[k]) == p && IsMissing(missing, SnappedSlot(w, values[k]))
      {
        if p in Kept(w, values[..n], missing) {
          var k :| 0 <= k < n && Snapped(w, values[..n][k]) == p && IsMissing(missing, SnappedSlot(w, values[..n][k]));
          assert values[..n][k] == values[k];
        }
        if k :| 0 <= k < |values| && Snapped(w, values[k]) == p && IsMissing(missing, SnappedSlot(w, values[k])) {
          if k < n { assert values[..n][k] == values[k]; }
        }
      }
    }
  }

  predicate AllAcceptable(w: Window, part: Span, values: seq<Point>)
    requires ValidWindow(w)
  {
    forall k :: 0 <= k < |values| ==> Acceptable(w, part, values[k])
  }

  predicate DistinctSlots(w: Window, values: seq<Point>)
    requires ValidWindow(w)
  {
    forall j, k :: 0 <= j < k < |values| ==> SnappedSlot(w, values[j]) != SnappedSlot(w, values[k])
  }

  lemma NothingKept(w: Window, values: seq<Point>, missing: seq<bool>)
    requires ValidWindow(w)
    ensures Kept(w, values[..0], missing) == []
  {
  }

  lemma NextKept(w: Window, values: seq<Point>, missing: seq<bool>, k: nat)
    requires ValidWindow(w) && k < |values|
    ensures Kept(w, values[..k + 1], missing) == Kept(w, values[..k], missing) +
      if IsMissing(missing, SnappedSlot(w, values[k])) then [Snapped(w, values[k])] else []
  {
    hide SlotOf, Round;
    assert values[..k + 1][..k] == values[..k];
  }

  /** The points of one answer that fill missing slots of its span. */
  method Accept(w: Window, part: Span, values: seq<Point>, missing: seq<bool>) returns (r: Result<seq<Point>, Failure>)
    requires ValidWindow(w) && w.start % w.interval == 0 && |missing| == w.slots
    requires 0 <= part.first <= part.last < w.slots && part.last - part.first < MAX_SPAN
    ensures r.Ok? <==>
            |values| <= part.last - part.first + 1 && AllAcceptable(w, part, values)
            && DistinctSlots(w, values)
    ensures r.Ok? ==> r.value == Kept(w, values, missing) && |r.value| <= MAX_SPAN
    ensures r == Err(ExcessPoints) <==> |values| > part.last - part.first + 1
    ensures r == Err(InvalidPoint) ==> !AllAcceptable(w, part, values)
    ensures r == Err(DuplicateSlot) ==> !DistinctSlots(w, values)
    ensures r.Err? ==> r.error in {ExcessPoints, InvalidPoint, DuplicateSlot}
  {
    hide SlotOf, SlotStart, Round, Kept;
    if |values| > part.last - part.first + 1 { return Err(ExcessPoints); }
    NothingKept(w, values, missing);
    var samples: seq<Point> := [];
    var seen: set<int> := {};
    for k := 0 to |values|
      invariant samples == Kept(w, values[..k], missing)
      invariant forall j :: 0 <= j < k ==> Acceptable(w, part, values[j]) && SnappedSlot(w, values[j]) in seen
      invariant forall s :: s in seen ==> exists j :: 0 <= j < k && SnappedSlot(w, values[j]) == s
      invariant forall i, j :: 0 <= i < j < k ==> SnappedSlot(w, values[i]) != SnappedSlot(w, values[j])
    {
      var v := values[k];
      var at := Round(v.at, w.interval);
      var delta := v.at - at;
      if delta < -MILLISECOND || delta > MILLISECOND || at < SlotStart(w, part.first) || at > SlotStart(w, part.last)
        || v.value < 0.0 {
        assert !Acceptable(w, part, values[k]);
        return Err(InvalidPoint);
      }
      BetweenSlots(w, part, at);
      var slot := SlotOf(w, at);
      assert slot == SnappedSlot(w, v);
      if slot in seen { return Err(DuplicateSlot); }
      seen := seen + {slot};
      NextKept(w, values, missing, k);
      if missing[slot] { samples := samples + [Point(at, v.value)]; }
    }
    assert values[..|values|] == values;
    r := Ok(samples);
  }

  /** What the insert needs to know of accepted points. */
  lemma AcceptedPoints(w: Window, part: Span, values: seq<Point>, missing: seq<bool>)
    requires ValidWindow(w) && w.start % w.interval == 0 && |missing| == w.slots
    requires 0 <= part.first <= part.last < w.slots && AllAcceptable(w, part, values)
    ensures forall p :: p in Kept(w, values, missing) ==>
              OnGrid(w, p.at) && p.value >= 0.0 && p.at % w.interval == 0 && missing[SlotOf(w, p.at)]
  {
    hide SlotOf, SlotStart, Round, Kept;
    KeptComesFrom(w, values, missing);
    forall p | p in Kept(w, values, missing)
      ensures OnGrid(w, p.at) && p.value >= 0.0 && p.at % w.interval == 0 && missing[SlotOf(w, p.at)]
    {
      var k :| 0 <= k < |values| && Snapped(w, values[k]) == p && IsMissing(missing, SnappedSlot(w, values[k]));
      assert Acceptable(w, part, values[k]);
      AlignedOnGrid(w, p.at);
    }
  }

  lemma BetweenSlots(w: Window, part: Span, at: int)
    requires ValidWindow(w) && SlotStart(w, part.first) <= at <= SlotStart(w, part.last)
    ensures part.first <= SlotOf(w, at) <= part.last
  {
    var s := SlotOf(w, at);
    SlotBounds(w, s, at);
    if s < part.first { AtMost(s + 1, part.first, w.interval); }
    if s > part.last { AtMost(part.last + 1, s, w.interval); }
  }

  const REQUEST_BUDGET: int := 256

  /** One span with at most one retry. */
  method Fetch(querier: Querier, part: Span, requests: int) returns (values: Result<seq<Point>, Failure>, spent: int)
    requires requests <= REQUEST_BUDGET
    modifies querier
    ensures requests <= spent <= REQUEST_BUDGET
    ensures spent - requests == (if values.Ok? then 1 else 0) + (querier.failures - old(querier.failures))
    ensures values == Err(RequestBudgetExceeded) ==> spent == REQUEST_BUDGET
    ensures querier.failures >= old(querier.failures) + if values == Err(RequestFailed) then 2 else 0
    ensures values.Err? ==> values.error in {RequestBudgetExceeded, RequestFailed}
    ensures querier.log == old(querier.log) + if values.Ok? then [Answer(part, values.value)] else []
  {
    spent := requests;
    var answer: Option<seq<Point>> := None;
    var attempt := 0;
    while attempt < 2 && answer.None?
      invariant 0 <= attempt <= 2 && requests <= spent <= REQUEST_BUDGET && spent - requests == attempt
      invariant querier.failures >= old(querier.failures)
      invariant answer.None? ==> spent - requests == querier.failures - old(querier.failures)
      invariant answer.Some? ==> spent - requests == 1 + (querier.failures - old(querier.failures))
      invariant querier.log == old(querier.log) + if answer.Some? then [Answer(part, answer.value)] else []
      decreases 2 - attempt
    {
      if spent >= REQUEST_BUDGET { return Err(RequestBudgetExceeded), spent; }
      spent := spent + 1;
      answer := querier.QueryRange(part.first, part.last);
      attempt := attempt + 1;
    }
    values := if answer.Some? then Ok(answer.value) else Err(RequestFailed);
  }

  /** A plan never has more than 200 spans under the two-million-point limit. */
  lemma PlanSize(n: nat, slots: int)
    requires n <= MAX_RUNS || n * MAX_SPAN < slots + MAX_SPAN
    requires slots <= 2_000_000
    ensures n <= 200
  {
  }

  /** The answer holds an acceptable point that stands for p. */
  ghost predicate Offers(w: Window, a: Answer, p: Point)
    requires ValidWindow(w)
  {
    exists j :: 0 <= j < |a.values| && Acceptable(w, a.part, a.values[j]) && Snapped(w, a.values[j]) == p
  }

  ghost predicate Offered(w: Window, answers: seq<Answer>, p: Point)
    requires ValidWindow(w)
  {
    exists k :: 0 <= k < |answers| && Offers(w, answers[k], p)
  }

  /** Some answer offers a point for the slot. */
  ghost predicate OfferedFor(w: Window, answers: seq<Answer>, s: int)
    requires ValidWindow(w)
  {
    exists p :: Offered(w, answers, p) && SlotOf(w, p.at) == s
  }

  /** An answer that is accepted as a whole. */
  predicate Good(w: Window, a: Answer)
    requires ValidWindow(w)
  {
    && |a.values| <= a.part.last - a.part.first + 1
    && AllAcceptable(w, a.part, a.values) && DistinctSlots(w, a.values)
  }

  predicate AllGood(w: Window, answers: seq<Answer>)
    requires ValidWindow(w)
  {
    forall k :: 0 <= k < |answers| ==> Good(w, answers[k])
  }

  /** Every new row of the repair was offered for a slot that was missing. */
  ghost predicate Sourced(before: map<int, real>, after: map<int, real>, w: Window, answers: seq<Answer>,
                          missing: seq<bool>)
    requires ValidWindow(w)
  {
    forall t :: t in after && t !in before ==>
      Offered(w, answers, Point(t, after[t]))
      && IsMissing(missing, SlotOf(w, t))
  }

  /** Every point offered for a missing slot has its slot filled. */
  ghost predicate Used(rows: map<int, real>, w: Window, answers: seq<Answer>, missing: seq<bool>)
    requires ValidWindow(w)
  {
    forall p :: Offered(w, answers, p) && IsMissing(missing, SlotOf(w, p.at)) ==> Filled(rows, w, SlotOf(w, p.at))
  }

  lemma OfferedGrows(w: Window, answers: seq<Answer>, a: Answer, p: Point)
    requires ValidWindow(w)
    ensures Offered(w, answers + [a], p) <==> Offered(w, answers, p) || Offers(w, a, p)
  {
    hide Offers;
    var more := answers + [a];
    if Offered(w, answers, p) {
      var k :| 0 <= k < |answers| && Offers(w, answers[k], p);
      assert more[k] == answers[k];
    }
    if Offers(w, a, p) { assert more[|answers|] == a; }
    if Offered(w, more, p) {
      var k :| 0 <= k < |more| && Offers(w, more[k], p);
      if k < |answers| { assert more[k] == answers[k]; }
    }
  }

  /** The kept points of an answer are those it offers for missing slots. */
  lemma KeptIsOffered(w: Window, a: Answer, missing: seq<bool>, p: Point)
    requires ValidWindow(w) && AllAcceptable(w, a.part, a.values)
    ensures p in Kept(w, a.values, missing) <==> Offers(w, a, p) && IsMissing(missing, SlotOf(w, p.at))
  {
    hide SlotOf, Round, Acceptable, Kept;
    KeptComesFrom(w, a.values, missing);
    if p in Kept(w, a.values, missing) {
      var k :| 0 <= k < |a.values| && Snapped(w, a.values[k]) == p && IsMissing(missing, SnappedSlot(w, a.values[k]));
      assert Acceptable(w, a.part, a.values[k]);
    }
    if Offers(w, a, p) && IsMissing(missing, SlotOf(w, p.at)) {
      var j :| 0 <= j < |a.values| && Acceptable(w, a.part, a.values[j]) && Snapped(w, a.values[j]) == p;
      assert IsMissing(missing, SnappedSlot(w, a.values[j]));
    }
  }

  /** One more answer, its kept points inserted or found present. */
  lemma AnswerUsed(before: map<int, real>, mid: map<int, real>, after: map<int, real>, midRows: map<int, real>,
                   rows: map<int, real>,
                   w: Window, answers: seq<Answer>, a: Answer, missing: seq<bool>)
    requires ValidWindow(w) && AllAcceptable(w, a.part, a.values)
    requires Sourced(before, mid, w, answers, missing) && Used(midRows, w, answers, missing)
    requires mid.Keys <= after.Keys && (forall t :: t in mid ==> after[t] == mid[t]) && midRows.Keys <= rows.Keys
    requires AddsOnly(mid, after, Kept(w, a.values, missing))
    requires forall p :: p in Kept(w, a.values, missing) ==> Filled(rows, w, SlotOf(w, p.at))
    ensures Sourced(before, after, w, answers + [a], missing) && Used(rows, w, answers + [a], missing)
  {
    hide SlotOf, Offers, Offered, Kept, IsMissing, Filled, AllAcceptable;
    forall t | t in after && t !in before
      ensures Offered(w, answers + [a], Point(t, after[t])) && IsMissing(missing, SlotOf(w, t))
    {
      OfferedGrows(w, answers, a, Point(t, after[t]));
      if t !in mid { KeptIsOffered(w, a, missing, Point(t, after[t])); }
    }
    forall p | Offered(w, answers + [a], p) && IsMissing(missing, SlotOf(w, p.at))
      ensures Filled(rows, w, SlotOf(w, p.at))
    {
      OfferedGrows(w, answers, a, p);
      if Offered(w, answers, p) {
        StaysFilled(midRows, rows, w, SlotOf(w, p.at));
      } else { KeptIsOffered(w, a, missing, p); }
    }
  }

  lemma StaysFilled(a: map<int, real>, b: map<int, real>, w: Window, s: int)
    requires ValidWindow(w) && a.Keys <= b.Keys && Filled(a, w, s)
    ensures Filled(b, w, s)
  {
    MoreRowsFewerMissing(a, b, w);
  }

  lemma InsertedStays(a: State, b: State)
    requires Evolves(a, b)
    ensures a.inserted.Keys <= b.inserted.Keys && (forall t :: t in a.inserted ==> b.inserted[t] == a.inserted[t])
            && a.rows.Keys <= b.rows.Keys
    ensures a.quiet ==> b.quiet
  {
  }

  lemma KeptFilled(rows: map<int, real>, w: Window, samples: seq<Point>)
    requires ValidWindow(w) && forall k :: 0 <= k < |samples| ==> Filled(rows, w, SlotOf(w, samples[k].at))
    ensures forall p :: p in samples ==> Filled(rows, w, SlotOf(w, p.at))
  {
    hide SlotOf, Filled;
  }

  /** One answered span: its points are judged, and those of missing slots are
      inserted. */
  method Store(table: SampleTable, wl: Workload, w: Window, a: Answer, missing: seq<bool>, ghost start: State,
               ghost answers: seq<Answer>)
    returns (inserted: int, failure: Option<Failure>)
    requires ValidWindow(w) && w.interval == wl.sampling && wl.sampling >= SECOND && wl.sampling % SECOND == 0
    requires w.start % w.interval == 0 && |missing| == w.slots
    requires 0 <= a.part.first <= a.part.last < w.slots && a.part.last - a.part.first < MAX_SPAN
    requires Consistent(table.Now(), w) && Evolves(start, table.Now())
    requires Sourced(start.inserted, table.inserted, w, answers, missing) && Used(table.rows, w, answers, missing)
    modifies table
    ensures Evolves(old(table.Now()), table.Now()) && Evolves(start, table.Now()) && Consistent(table.Now(), w)
    ensures Sourced(start.inserted, table.inserted, w, answers + [a], missing)
    ensures |table.inserted| == |old(table.inserted)| + inserted
    ensures old(table.Serves(wl)) ==> table.Serves(wl)
    ensures failure.None? ==> Used(table.rows, w, answers + [a], missing) && Good(w, a)
    ensures failure.None? ==> Missing(table.rows, w) + inserted <= Missing(old(table.rows), w)
    ensures failure.None? && old(table.others) == [] ==>
            Missing(table.rows, w) + inserted == Missing(old(table.rows), w) && table.others == []
    ensures failure.Some? ==> match failure.value
                              case InsertFailed(why) =>
                                (why == WorkloadMissing || why == PolicyChanged) && !old(table.Serves(wl))
                              case other => other in {ExcessPoints, InvalidPoint, DuplicateSlot} && !Good(w, a)
  {
    hide SlotOf, SlotStart, Evolves, Consistent, Missing, Filled, OnGrid, Kept, Sourced, Used, AllAcceptable,
      DistinctSlots, AddsOnly;
    ghost var before := table.Now();
    EvolvesReflexively(before);
    inserted, failure := 0, None;
    SourcedGrows(start.inserted, table.inserted, w, answers, a, missing);
    var accepted := Accept(w, a.part, a.values, missing);
    if accepted.Err? { failure := Some(accepted.error); return; }
    var samples := accepted.value;
    AcceptedPoints(w, a.part, a.values, missing);
    if samples != [] {
      var stored := table.InsertMissingSamples(wl, samples, w);
      EvolvesTransitively(start, before, table.Now());
      InsertedStays(before, table.Now());
      if stored.Err? { failure := Some(InsertFailed(stored.error)); return; }
      inserted := stored.value;
      KeptFilled(table.rows, w, samples);
      AnswerUsed(start.inserted, before.inserted, table.inserted, before.rows, table.rows, w, answers, a, missing);
    } else {
      NothingAdded(before.inserted);
      AnswerUsed(start.inserted, before.inserted, table.inserted, before.rows, table.rows, w, answers, a, missing);
    }
  }

  lemma NothingAdded(m: map<int, real>)
    ensures AddsOnly(m, m, [])
  {
  }

  lemma SourcedGrows(before: map<int, real>, after: map<int, real>, w: Window, answers: seq<Answer>, a: Answer,
                     missing: seq<bool>)
    requires ValidWindow(w) && Sourced(before, after, w, answers, missing)
    ensures Sourced(before, after, w, answers + [a], missing)
  {
    hide SlotOf, Offers, Offered, IsMissing;
    forall t | t in after && t !in before ensures Offered(w, answers + [a], Point(t, after[t])) {
      OfferedGrows(w, answers, a, Point(t, after[t]));
    }
  }

  /** The spans that were answered are those of the plan, in order. */
  ghost predicate Follows(answers: seq<Answer>, plan: seq<Span>) {
    |answers| <= |plan| && forall k :: 0 <= k < |answers| ==> answers[k].part == plan[k]
  }

  /** Asks for every planned span in turn and inserts what is missing: only
      points that were offered for missing slots, and all of them. */
  method FillPlan(table: SampleTable, querier: Querier, wl: Workload, w: Window, plan: seq<Span>, missing: seq<bool>)
    returns (inserted: int, requests: int, failure: Option<Failure>, ghost answers: seq<Answer>)
    requires ValidWindow(w) && w.interval == wl.sampling && wl.sampling >= SECOND && wl.sampling % SECOND == 0
    requires w.start % w.interval == 0 && |missing| == w.slots && Ordered(plan, w.slots) && |plan| <= 200
    requires Consistent(table.Now(), w)
    modifies table, querier
    ensures Evolves(old(table.Now()), table.Now()) && Consistent(table.Now(), w)
    ensures querier.log == old(querier.log) + answers && Follows(answers, plan)
    ensures Sourced(old(table.inserted), table.inserted, w, answers, missing)
    ensures failure.None? ==> |answers| == |plan| && Used(table.rows, w, answers, missing) && AllGood(w, answers)
    ensures old(table.Serves(wl)) ==> table.Serves(wl)
    ensures requests == |answers| + (querier.failures - old(querier.failures))
    ensures |table.inserted| == |old(table.inserted)| + inserted
    ensures failure.None? ==> Missing(table.rows, w) + inserted <= Missing(old(table.rows), w)
    ensures failure.None? && old(table.others) == [] ==>
            Missing(table.rows, w) + inserted == Missing(old(table.rows), w) && table.others == []
    ensures 0 <= requests <= REQUEST_BUDGET
    ensures failure == Some(RequestBudgetExceeded) ==> querier.failures - old(querier.failures) >= 57
    ensures failure.Some? ==> match failure.value
                              case InsertFailed(why) =>
                                (why == WorkloadMissing || why == PolicyChanged) && !old(table.Serves(wl))
                              case RequestBudgetExceeded => |answers| < |plan|
                              case RequestFailed =>
                                |answers| < |plan| && querier.failures - old(querier.failures) >= 2
                              case other => other in {ExcessPoints, InvalidPoint, DuplicateSlot} && !AllGood(w, answers)
  {
    hide SlotOf, SlotStart, Evolves, Consistent, Missing, Filled, OnGrid, Sourced, Used, Good;
    ghost var start, serves := table.Now(), table.Serves(wl);
    EvolvesReflexively(start);
    inserted, requests, failure, answers := 0, 0, None, [];
    NothingSourced(start, w, missing);
    for k := 0 to |plan|
      invariant Evolves(start, table.Now()) && Consistent(table.Now(), w)
      invariant querier.log == old(querier.log) + answers && Follows(answers, plan) && |answers| == k
      invariant Sourced(start.inserted, table.inserted, w, answers, missing) && Used(table.rows, w, answers, missing)
      invariant |table.inserted| == |start.inserted| + inserted
      invariant Missing(table.rows, w) + inserted <= Missing(start.rows, w)
      invariant start.quiet ==> Missing(table.rows, w) + inserted == Missing(start.rows, w) && table.others == []
      invariant AllGood(w, answers) && (serves ==> table.Serves(wl))
      invariant querier.failures >= old(querier.failures)
      invariant requests == k + (querier.failures - old(querier.failures)) && 0 <= requests <= REQUEST_BUDGET
    {
      var values, spent := Fetch(querier, plan[k], requests);
      requests := spent;
      if values.Err? { failure := Some(values.error); return; }
      var a := Answer(plan[k], values.value);
      var n, refused := Store(table, wl, w, a, missing, start, answers);
      answers := answers + [a];
      inserted := inserted + n;
      if refused.Some? { failure := refused; return; }
    }
  }

  lemma NothingSourced(s: State, w: Window, missing: seq<bool>)
    requires ValidWindow(w)
    ensures Sourced(s.inserted, s.inserted, w, [], missing) && Used(s.rows, w, [], missing)
  {
  }

  /** Every slot of the window holds a row. */
  ghost predicate Full(rows: map<int, real>, w: Window)
    requires ValidWindow(w)
  {
    forall s :: 0 <= s < w.slots ==> Filled(rows, w, s)
  }

  /** Every slot that was missing lies in the span of some answer. */
  ghost predicate Asked(w: Window, rows: map<int, real>, answers: seq<Answer>)
    requires ValidWindow(w)
  {
    forall s :: 0 <= s < w.slots && !Filled(rows, w, s) ==> SpansSlot(answers, s)
  }

  ghost predicate SpansSlot(answers: seq<Answer>, s: int) {
    exists k :: 0 <= k < |answers| && InSpan(answers[k].part, s)
  }

  /** The spans ascend without overlap, are bounded, and start and end on slots
      that were missing. */
  ghost predicate AsksTightly(w: Window, rows: map<int, real>, answers: seq<Answer>)
    requires ValidWindow(w)
  {
    && (forall k :: 0 <= k < |answers| ==> IsTight(w, rows, answers[k].part))
    && (forall j, k :: 0 <= j < k < |answers| ==> answers[j].part.last < answers[k].part.first)
  }

  ghost predicate IsTight(w: Window, rows: map<int, real>, p: Span)
    requires ValidWindow(w)
  {
    && 0 <= p.first <= p.last < w.slots && p.last - p.first < 10_000
    && !Filled(rows, w, p.first) && !Filled(rows, w, p.last)
  }

  /** Every slot that was missing was offered a point. */
  ghost predicate Supplied(w: Window, rows: map<int, real>, answers: seq<Answer>)
    requires ValidWindow(w)
  {
    forall s :: 0 <= s < w.slots && !Filled(rows, w, s) ==> OfferedFor(w, answers, s)
  }

  /** No slot that was offered a point is still missing. */
  ghost predicate Taken(w: Window, rows: map<int, real>, answers: seq<Answer>)
    requires ValidWindow(w)
  {
    forall s :: 0 <= s < w.slots && OfferedFor(w, answers, s) ==> Filled(rows, w, s)
  }

  lemma PlanAsks(w: Window, rows: map<int, real>, plan: seq<Span>, answers: seq<Answer>)
    requires ValidWindow(w) && Follows(answers, plan) && |answers| == |plan|
    requires forall s :: 0 <= s < w.slots && !Filled(rows, w, s) ==> Planned(plan, s)
    ensures Asked(w, rows, answers)
  {
    hide Filled;
    forall s | 0 <= s < w.slots && !Filled(rows, w, s) ensures SpansSlot(answers, s) {
      var k :| 0 <= k < |plan| && InSpan(plan[k], s);
      assert InSpan(answers[k].part, s);
    }
  }

  /** The answers do not offer points for a span that was not answered. */
  lemma UnansweredIsNotSupplied(w: Window, rows: map<int, real>, plan: seq<Span>, answers: seq<Answer>)
    requires ValidWindow(w) && Follows(answers, plan) && |answers| < |plan| && Ordered(plan, w.slots)
    requires forall k :: 0 <= k < |plan| ==> !Filled(rows, w, plan[k].first)
    ensures !Supplied(w, rows, answers)
  {
    hide Filled, SlotOf, SlotStart, Round;
    var s := plan[|answers|].first;
    if OfferedFor(w, answers, s) {
      var p :| Offered(w, answers, p) && SlotOf(w, p.at) == s;
      var k :| 0 <= k < |answers| && Offers(w, answers[k], p);
      BetweenSlots(w, answers[k].part, p.at);
      assert false;
    }
  }

  lemma UsedIsTaken(w: Window, found: map<int, real>, filled: map<int, real>, rows: map<int, real>,
                    answers: seq<Answer>, missing: seq<bool>)
    requires ValidWindow(w) && missing == MissingBits(found, w) && Used(filled, w, answers, missing)
    requires found.Keys <= filled.Keys <= rows.Keys
    ensures Taken(w, rows, answers)
  {
    hide Offered, SlotOf, Filled;
    forall s | 0 <= s < w.slots && OfferedFor(w, answers, s) ensures Filled(rows, w, s) {
      var p :| Offered(w, answers, p) && SlotOf(w, p.at) == s;
      if Filled(found, w, s) { StaysFilled(found, filled, w, s); } else { assert IsMissing(missing, SlotOf(w, p.at)); }
      StaysFilled(filled, rows, w, s);
    }
  }

  /** What is found and what is supplied is all there is when nobody else writes. */
  lemma QuietIsSupplied(w: Window, found: State, last: State, answers: seq<Answer>)
    requires ValidWindow(w) && found.quiet && Evolves(found, last) && found.touched <= found.rows.Keys
    requires AllOffered(found.inserted, last.inserted, w, answers)
    requires Full(last.rows, w)
    ensures Supplied(w, found.rows, answers)
  {
    hide Offered, SlotOf;
    forall s | 0 <= s < w.slots && !Filled(found.rows, w, s) ensures OfferedFor(w, answers, s) {
      assert Filled(last.rows, w, s);
      var t :| t in last.rows && SlotOf(w, t) == s;
      assert t !in found.rows;
      assert Offered(w, answers, Point(t, last.inserted[t]));
    }
  }

  lemma SuppliedIsFull(w: Window, found: map<int, real>, rows: map<int, real>, answers: seq<Answer>)
    requires ValidWindow(w) && found.Keys <= rows.Keys && Taken(w, rows, answers) && Supplied(w, found, answers)
    ensures Full(rows, w)
  {
    hide Filled, SlotOf, OfferedFor;
    forall s | 0 <= s < w.slots ensures Filled(rows, w, s) {
      if Filled(found, w, s) { StaysFilled(found, rows, w, s); }
    }
  }

  /** The final read happened. */
  predicate Concluded(failure: Option<Failure>) { failure.None? || failure == Some(Incomplete) }

  /** Nothing was left out: every missing slot was asked for, every answer was in
      order, and no slot that was offered a point is still missing. */
  ghost predicate Exhausted(w: Window, found: State, now: State, answers: seq<Answer>, report: Report)
    requires ValidWindow(w)
  {
    && Asked(w, found.rows, answers) && AllGood(w, answers) && Taken(w, now.rows, answers)
    && report.expected == w.slots && report.missingBefore == Missing(found.rows, w)
    && report.missingAfter == Missing(now.rows, w)
  }

  /** The repair succeeds whenever every answer is in order and every missing slot
      was offered a point, and when nobody else writes only then. */
  ghost predicate SucceedsBySupply(w: Window, found: State, answers: seq<Answer>, failure: Option<Failure>)
    requires ValidWindow(w)
  {
    && (AllGood(w, answers) && Supplied(w, found.rows, answers) ==> failure.None?)
    && (failure.None? && found.quiet ==> AllGood(w, answers) && Supplied(w, found.rows, answers))
  }

  /** Why a begun repair did not succeed, after a number of failed requests. The
      request budget is out of reach without at least 57 of them, and the batch and
      alignment checks of the insert never fire. */
  ghost predicate StopsBecause(f: Failure, w: Window, now: State, failed: int, serves: bool)
    requires ValidWindow(w)
  {
    match f
    case RequestBudgetExceeded => failed >= 57
    case RequestFailed => failed >= 2
    case InsertFailed(why) => (why == WorkloadMissing || why == PolicyChanged) && !serves
    case InvalidStoredObservation => HoldsNegative(now.rows, w)
    case Incomplete => !Full(now.rows, w)
    case other => other in {ExcessPoints, InvalidPoint, DuplicateSlot}
  }

  /** How a repair that was begun ends. Nothing is made up: every row it inserts was
      offered by one of its answers. Success means that every slot is filled. Rows
      inserted are slots filled when nobody else writes, and no more in any case. */
  ghost predicate Outcome(w: Window, found: State, now: State, answers: seq<Answer>, failed: int, serves: bool,
                          report: Report, failure: Option<Failure>)
    requires ValidWindow(w)
  {
    && AllOffered(found.inserted, now.inserted, w, answers) && AsksTightly(w, found.rows, answers)
    && (failure.None? ==> Full(now.rows, w))
    && (failure.Some? ==> StopsBecause(failure.value, w, now, failed, serves))
    && (serves ==> SucceedsBySupply(w, found, answers, failure))
    && (Concluded(failure) ==>
          && Exhausted(w, found, now, answers, report)
          && report.inserted <= report.missingBefore - report.missingAfter
          && (found.quiet ==> report.inserted == report.missingBefore - report.missingAfter))
  }

  lemma StoppedIsNotSupplied(w: Window, found: State, plan: seq<Span>, answers: seq<Answer>, failure: Option<Failure>)
    requires ValidWindow(w) && Follows(answers, plan) && Ordered(plan, w.slots) && failure.Some?
    requires forall k :: 0 <= k < |plan| ==> !Filled(found.rows, w, plan[k].first)
    requires |answers| < |plan| || !AllGood(w, answers)
    ensures SucceedsBySupply(w, found, answers, failure)
  {
    hide Follows, Ordered, Filled, Supplied, AllGood;
    if |answers| < |plan| { UnansweredIsNotSupplied(w, found.rows, plan, answers); }
  }

  lemma ConcludedBySupply(w: Window, found: State, last: State, answers: seq<Answer>, failure: Option<Failure>)
    requires ValidWindow(w) && Evolves(found, last) && Consistent(found, w) && AllGood(w, answers)
    requires Taken(w, last.rows, answers) && AllOffered(found.inserted, last.inserted, w, answers)
    requires failure.None? <==> Full(last.rows, w)
    ensures SucceedsBySupply(w, found, answers, failure)
  {
    hide Filled, Taken, Supplied, AllGood, AllOffered, Missing, SlotOf;
    if Supplied(w, found.rows, answers) { SuppliedIsFull(w, found.rows, last.rows, answers); }
    if failure.None? && found.quiet { QuietIsSupplied(w, found, last, answers); }
  }

  /** The window lies on the grid of the workload, and is not too large. */
  ghost predicate Repairable(w: Window, wl: Workload)
    requires ValidWindow(w)
  {
    && w.interval == wl.sampling && wl.sampling >= SECOND && wl.sampling % SECOND == 0
    && w.start % w.interval == 0 && w.slots <= 2_000_000
  }

  /** From the first read on: plans, fills, and reads again. */
  method Refill(table: SampleTable, querier: Querier, wl: Workload, w: Window, missing: array<bool>, first: Report)
    returns (report: Report, failure: Option<Failure>, ghost answers: seq<Answer>)
    requires ValidWindow(w) && 0 < w.slots && missing.Length == w.slots && Repairable(w, wl)
    requires Consistent(table.Now(), w) && missing[..] == MissingBits(table.rows, w)
    requires first.expected == w.slots && first.missingBefore == Missing(table.rows, w)
    modifies table, querier, missing
    ensures Evolves(old(table.Now()), table.Now()) && Consistent(table.Now(), w)
    ensures querier.log == old(querier.log) + answers
    ensures report.inserted == |table.inserted| - |old(table.inserted)|
    ensures report.requests == |answers| + (querier.failures - old(querier.failures)) <= REQUEST_BUDGET
    ensures Outcome(w, old(table.Now()), table.Now(), answers, querier.failures - old(querier.failures),
                    old(table.Serves(wl)), report, failure)
  {
    hide SlotOf, SlotStart, Evolves, Consistent, Missing, Filled, Ordered, Planned, CoversExactly, Sourced, Offered,
      Used, Follows, Asked, Supplied, Taken, AllGood, HoldsNegative, NonNegative, SucceedsBySupply, AllOffered,
      AsksTightly, Full;
    report, failure, answers := first, None, [];
    ghost var found, serves, bits := table.Now(), table.Serves(wl), missing[..];
    var plan := PlanRequests(missing);
    PlanSize(|plan|, w.slots);
    PlanStarts(w, found.rows, plan, bits);
    var inserted, requests, stopped;
    inserted, requests, stopped, answers := FillPlan(table, querier, wl, w, plan, missing[..]);
    SourcedIsOffered(found.inserted, table.inserted, w, answers, bits);
    TightPlan(w, found.rows, plan, answers);
    report := report.(inserted := inserted, requests := requests);
    ghost var filled := table.Now();
    if stopped.Some? {
      failure := stopped;
      if serves { StoppedIsNotSupplied(w, found, plan, answers, failure); }
      return;
    }
    var after := Read(table, w, missing, wl);
    ghost var last := table.Now();
    EvolvesTransitively(found, filled, last);
    KeysGrow(found, filled);
    KeysGrow(filled, last);
    MoreRowsFewerMissing(filled.rows, last.rows, w);
    if after.None? {
      failure := Some(InvalidStoredObservation);
      if serves { ServesNonNegative(table, wl, w); }
      return;
    }
    report := report.(missingAfter := after.value);
    PlanAsks(w, found.rows, plan, answers);
    UsedIsTaken(w, found.rows, filled.rows, last.rows, answers, bits);
    AllFilled(last.rows, w);
    FullExactly(last.rows, w);
    if after.value > 0 { failure := Some(Incomplete); }
    ConcludedBySupply(w, found, last, answers, failure);
  }

  lemma ServesNonNegative(table: SampleTable, wl: Workload, w: Window)
    requires table.Serves(wl)
    ensures !HoldsNegative(table.rows, w)
  {
  }

  /** The spans start on missing slots, and every missing slot lies in one. */
  lemma PlanStarts(w: Window, rows: map<int, real>, plan: seq<Span>, bits: seq<bool>)
    requires ValidWindow(w) && bits == MissingBits(rows, w)
    requires forall k :: 0 <= k < |plan| ==> 0 <= plan[k].first < w.slots && bits[plan[k].first]
    requires forall k :: 0 <= k < |plan| ==> plan[k].first <= plan[k].last < w.slots && bits[plan[k].last]
    requires forall s :: 0 <= s < w.slots && bits[s] ==> Planned(plan, s)
    ensures forall k :: 0 <= k < |plan| ==> !Filled(rows, w, plan[k].first) && !Filled(rows, w, plan[k].last)
    ensures forall s :: 0 <= s < w.slots && !Filled(rows, w, s) ==> Planned(plan, s)
  {
    hide Filled, Planned;
    forall k | 0 <= k < |plan| ensures !Filled(rows, w, plan[k].first) && !Filled(rows, w, plan[k].last) {
      assert bits[plan[k].first] && bits[plan[k].last];
    }
    forall s | 0 <= s < w.slots && !Filled(rows, w, s) ensures Planned(plan, s) {
      assert bits[s];
    }
  }

  lemma TightPlan(w: Window, rows: map<int, real>, plan: seq<Span>, answers: seq<Answer>)
    requires ValidWindow(w) && Follows(answers, plan) && Ordered(plan, w.slots)
    requires forall k :: 0 <= k < |plan| ==> !Filled(rows, w, plan[k].first) && !Filled(rows, w, plan[k].last)
    ensures AsksTightly(w, rows, answers)
  {
    hide Filled;
  }

  /** The contract of a repair, checked term by term. */
  method CheckRequest(wl: Workload, start: int, end: int) returns (valid: bool)
    ensures valid == ValidRequest(wl, start, end)
  {
    var interval := wl.sampling;
    if interval < SECOND || interval % SECOND != 0 || start >= end || end - start > 90 * DAY
      || end - start != wl.trainingWindow || (end - start) % interval != 0 || start % interval != 0
      || end % interval != 0 || !wl.hasSource
    {
      return false;
    }
    valid := true;
  }

  lemma FullExactly(rows: map<int, real>, w: Window)
    requires ValidWindow(w)
    ensures Full(rows, w) <==> Missing(rows, w) == 0
  {
    hide Missing, Filled;
    AllFilled(rows, w);
  }

  /** Why a repair of this window is not begun, if it is not. */
  function Refusal(wl: Workload, limits: Limits, start: int, end: int): (f: Option<Failure>)
    ensures f.None? ==> ValidRequest(wl, start, end)
  {
    if !ValidLimits(limits) then Some(InvalidLimits)
    else if !ValidRequest(wl, start, end) then Some(InvalidContract)
    else if WindowOf(wl, start, end).slots > limits.maxPoints then Some(PointBudgetExceeded)
    else None
  }

  /** The repair of one window, with its first read. */
  method RepairWindow(table: SampleTable, querier: Querier, wl: Workload, w: Window, begun: Report)
    returns (report: Report, failure: Option<Failure>, ghost found: State, ghost answers: seq<Answer>)
    requires ValidWindow(w) && 0 < w.slots && Repairable(w, wl) && Consistent(table.Now(), w)
    requires begun == Report(w.slots, 0, 0, 0, 0)
    modifies table, querier
    ensures Evolves(old(table.Now()), found) && Evolves(found, table.Now()) && Consistent(table.Now(), w)
    ensures found.inserted == old(table.inserted) && (old(table.others) == [] ==> found == old(table.Now()))
    ensures report.inserted == |table.inserted| - |old(table.inserted)|
    ensures querier.log == old(querier.log) + answers
    ensures report.requests == |answers| + (querier.failures - old(querier.failures)) <= 256
    ensures Outcome(w, found, table.Now(), answers, querier.failures - old(querier.failures), old(table.Serves(wl)),
                    report, failure)
    ensures Full(old(table.rows), w) ==> report.requests == 0 && report.inserted == 0
  {
    hide SlotOf, SlotStart, Evolves, Consistent, Missing, MissingBits, Filled, AllOffered, HoldsNegative,
      SucceedsBySupply, Exhausted, Outcome, Full, Repairable;
    report, failure, answers := begun, None, [];
    var missing := new bool[w.slots](_ => true);
    ghost var first, serves := table.Now(), table.Serves(wl);
    var before := Read(table, w, missing, wl);
    found := table.Now();
    EvolvesReflexively(found);
    FilledStaysFilled(first, found, w);
    FullExactly(found.rows, w);
    if before.None? {
      failure := Some(InvalidStoredObservation);
      if serves { ServesNonNegative(table, wl, w); }
      UnreadableIsReported(w, found, serves, report);
      return;
    }
    report := report.(missingBefore := before.value, missingAfter := before.value);
    if before.value == 0 { NothingMissing(w, found, serves, report); return; }
    ghost var serving := table.Serves(wl);
    report, failure, answers := Refill(table, querier, wl, w, missing, report);
    EvolvesTransitively(first, found, table.Now());
    OutcomeBefore(w, found, table.Now(), answers, querier.failures - old(querier.failures), serving, serves, report,
                  failure);
  }

  /** Repair: reads the window, and unless it is complete plans, fills, and reads
      again. `found` is the table as the first read found it; existing rows stay,
      and what is new is the repair's own or another session's. */
  method Repair(table: SampleTable, querier: Querier, wl: Workload, limits: Limits, start: int, end: int)
    returns (report: Report, failure: Option<Failure>, ghost found: State, ghost answers: seq<Answer>)
    requires ValidRequest(wl, start, end) ==> Consistent(table.Now(), WindowOf(wl, start, end))
    modifies table, querier
    ensures Evolves(old(table.Now()), found) && Evolves(found, table.Now())
    ensures found.inserted == old(table.inserted) && (old(table.others) == [] ==> found == old(table.Now()))
    ensures ValidRequest(wl, start, end) ==> Consistent(table.Now(), WindowOf(wl, start, end))
    ensures report.inserted == |table.inserted| - |old(table.inserted)|
    ensures querier.log == old(querier.log) + answers
    ensures report.requests == |answers| + (querier.failures - old(querier.failures)) <= 256
    ensures var refusal := Refusal(wl, limits, start, end);
            && (refusal.Some? ==> failure == refusal && table.Now() == old(table.Now()) && report.requests == 0)
            && (refusal.None? ==>
                  Outcome(WindowOf(wl, start, end), found, table.Now(), answers,
                          querier.failures - old(querier.failures), old(table.Serves(wl)), report, failure))
    // A complete window asks for nothing and inserts nothing.
    ensures ValidRequest(wl, start, end) && Full(old(table.rows), WindowOf(wl, start, end)) ==>
            report.requests == 0 && report.inserted == 0
  {
    hide SlotOf, SlotStart, Evolves, Consistent, Missing, Filled, ValidRequest, Outcome, Full;
    report, failure, found, answers := Report(0, 0, 0, 0, 0), None, table.Now(), [];
    EvolvesReflexively(found);
    if !limits.timeoutsValid || limits.maxPoints < 1 || limits.maxPoints > 2_000_000 {
      failure := Some(InvalidLimits);
      return;
    }
    var valid := CheckRequest(wl, start, end);
    if !valid { failure := Some(InvalidContract); return; }
    RequestedWindow(wl, start, end);
    var w := Window(start, wl.sampling, (end - start) / wl.sampling);
    report := report.(expected := w.slots);
    if w.slots > limits.maxPoints { failure := Some(PointBudgetExceeded); return; }
    report, failure, found, answers := RepairWindow(table, querier, wl, w, report);
  }

  lemma RequestedWindow(wl: Workload, start: int, end: int)
    requires ValidRequest(wl, start, end)
    ensures var w := WindowOf(wl, start, end);
            && w == Window(start, wl.sampling, (end - start) / wl.sampling) && ValidWindow(w) && w.slots > 0
            && wl.sampling >= SECOND && wl.sampling % SECOND == 0 && start % wl.sampling == 0
  {
  }

  /** The workload may have come to serve only with the first read. */
  lemma OutcomeBefore(w: Window, found: State, now: State, answers: seq<Answer>, failed: int, serving: bool,
                      serves: bool, report: Report, failure: Option<Failure>)
    requires ValidWindow(w) && Outcome(w, found, now, answers, failed, serving, report, failure)
    requires serves ==> serving
    ensures Outcome(w, found, now, answers, failed, serves, report, failure)
  {
    hide AllOffered, AsksTightly, Full, SucceedsBySupply, Exhausted;
  }

  lemma UnreadableIsReported(w: Window, found: State, serves: bool, report: Report)
    requires ValidWindow(w) && HoldsNegative(found.rows, w) && !serves
    ensures Outcome(w, found, found, [], 0, serves, report, Some(InvalidStoredObservation))
  {
    hide Offered, HoldsNegative;
  }

  lemma NothingMissing(w: Window, found: State, serves: bool, report: Report)
    requires ValidWindow(w) && Full(found.rows, w) && report.inserted == 0
    requires report.expected == w.slots && report.missingBefore == Missing(found.rows, w) == report.missingAfter
    ensures Outcome(w, found, found, [], 0, serves, report, None)
  {
    hide Filled, OfferedFor, Offered, Missing;
  }

  ghost predicate AllOffered(before: map<int, real>, after: map<int, real>, w: Window, answers: seq<Answer>)
    requires ValidWindow(w)
  {
    forall t :: t in after && t !in before ==> Offered(w, answers, Point(t, after[t]))
  }

  lemma SourcedIsOffered(before: map<int, real>, after: map<int, real>, w: Window, answers: seq<Answer>,
                         missing: seq<bool>)
    requires ValidWindow(w) && Sourced(before, after, w, answers, missing)
    ensures AllOffered(before, after, w, answers)
  {
    hide Offered, SlotOf;
  }

  lemma FilledStaysFilled(a: State, b: State, w: Window)
    requires ValidWindow(w) && Evolves(a, b)
    ensures Missing(b.rows, w) <= Missing(a.rows, w)
    ensures Full(a.rows, w) ==> Full(b.rows, w)
  {
    hide SlotOf, Filled, Full;
    KeysGrow(a, b);
    MoreRowsFewerMissing(a.rows, b.rows, w);
    FullExactly(a.rows, w);
    FullExactly(b.rows, w);
  }

  /** Repeating a successful repair asks for nothing and inserts nothing, even if
      other sessions wrote in between. */
  method RepairTwice(table: SampleTable, querier: Querier, wl: Workload, limits: Limits, start: int, end: int)
    returns (first: Option<Failure>, second: Report)
    requires ValidRequest(wl, start, end) ==> Consistent(table.Now(), WindowOf(wl, start, end))
    modifies table, querier
    ensures first.None? ==> second.requests == 0 && second.inserted == 0
  {
    var report, failure, found, answers := Repair(table, querier, wl, limits, start, end);
    first := failure;
    var again;
    second, again, found, answers := Repair(table, querier, wl, limits, start, end);
  }
}
