/** Chunked history queries of internal/sampler/backfill.go. */
module Backfill {
  import opened Observations
  import opened Wrappers

  const MAX_POINTS := 10_000
  const MAX_STEPS := 9_999

  /** A range query on a grid: it returns values at start, start + step, and so
      on, no later than end. */
  datatype Range = Range(start: int, end: int)

  predicate Asks(q: Range, step: Duration, t: int)
    requires step > 0
  {
    q.start <= t <= q.end && (t - q.start) % step == 0
  }

  /** The number of grid points a query can return. */
  function Points(q: Range, step: Duration): int
    requires step > 0
  {
    if q.end < q.start then 0 else (q.end - q.start) / step + 1
  }

  /** Chunk i of the range: whole spans of 9999 steps, the last one cut off. */
  function Chunk(whole: Range, step: Duration, i: nat): Range {
    var start := whole.start + i * (MAX_STEPS * step);
    Range(start, Min(start + MAX_STEPS * step, whole.end))
  }

  /** The chunks ask for the whole range, one after the other. */
  ghost predicate IsChunking(whole: Range, step: Duration, queries: seq<Range>) {
    && queries != []
    && (forall i :: 0 <= i < |queries| ==> queries[i] == Chunk(whole, step, i) && queries[i].start < whole.end)
    && queries[|queries| - 1].end == whole.end
  }

  /** What the query returned: values by their time, or a failure. */
  type Querier = Range -> Option<map<int, real>>

  datatype Stored = NothingToDo | CoverageUnknown | QueryFailed | Wrote(samples: map<int, real>)

  function Collected(querier: Querier, queries: seq<Range>): map<int, real>
    requires forall i :: 0 <= i < |queries| ==> querier(queries[i]).Some?
  {
    if queries == [] then map[]
    else Collected(querier, queries[..|queries| - 1]) + querier(queries[|queries| - 1]).value
  }

  lemma StepsGrow(i: nat, span: int)
    ensures (i + 1) * span == i * span + span
  {
  }

  /** The loop over the chunks comes to an end. */
  ghost predicate Ends(whole: Range, step: Duration, querier: Querier) {
    whole.start >= whole.end || exists i: nat :: Stops(whole, step, querier, i)
  }

  /** Chunk i is the last: its query fails, or it reaches the end. */
  predicate Stops(whole: Range, step: Duration, querier: Querier, i: nat) {
    querier(Chunk(whole, step, i)).None? || Chunk(whole, step, i).end == whole.end
  }

  /** The chunks follow each other, none after a failing one; when none fails they
      are the whole range, and what they returned is stored. */
  ghost predicate IsQueried(whole: Range, step: Duration, querier: Querier, queries: seq<Range>, r: Stored) {
    if whole.start >= whole.end then queries == [] && r == NothingToDo
    else
      && queries != []
      && (forall i :: 0 <= i < |queries| ==> queries[i] == Chunk(whole, step, i) && queries[i].start < whole.end)
      && (forall i :: 0 <= i < |queries| - 1 ==> querier(queries[i]).Some?)
      && (r == QueryFailed <==> querier(queries[|queries| - 1]).None?)
      && (r != QueryFailed ==>
            && IsChunking(whole, step, queries)
            && r == if Collected(querier, queries) == map[] then NothingToDo else Wrote(Collected(querier, queries)))
  }

  /** Called only where the source's loop ends. Without a positive step it ends by
      a failing query alone. */
  method QueryAndStore(whole: Range, step: Duration, querier: Querier) returns (queries: seq<Range>, r: Stored)
    requires Ends(whole, step, querier)
    ensures IsQueried(whole, step, querier, queries, r)
  {
    queries := [];
    if whole.start >= whole.end { return queries, NothingToDo; }
    var samples: map<int, real> := map[];
    var chunkSpan := MAX_STEPS * step;
    var chunkStart := whole.start;
    hide Collected;
    NothingCollected(querier);
    ghost var last: nat :| Stops(whole, step, querier, last);
    while chunkStart <= whole.end
      invariant chunkStart == whole.start + |queries| * chunkSpan && chunkStart < whole.end
      invariant forall i :: 0 <= i < |queries| ==> queries[i] == Chunk(whole, step, i) && queries[i].start < whole.end
      invariant forall i :: 0 <= i < |queries| ==> querier(queries[i]).Some?
      invariant samples == Collected(querier, queries)
      invariant forall i: nat :: i < |queries| ==> !Stops(whole, step, querier, i)
      decreases last - |queries|
    {
      var chunkEnd := chunkStart + chunkSpan;
      if chunkEnd > whole.end { chunkEnd := whole.end; }
      var q := Range(chunkStart, chunkEnd);
      assert q == Chunk(whole, step, |queries|);
      var values := querier(q);
      if values.None? { return queries + [q], QueryFailed; }
      CollectedGrows(querier, queries, q);
      samples := samples + values.value;
      StepsGrow(|queries|, chunkSpan);
      queries := queries + [q];
      if chunkEnd == whole.end { break; }
      chunkStart := chunkEnd;
    }
    r := if samples == map[] then NothingToDo else Wrote(samples);
  }

  lemma NothingCollected(querier: Querier)
    ensures Collected(querier, []) == map[]
  {
  }

  lemma CollectedGrows(querier: Querier, queries: seq<Range>, q: Range)
    requires forall i :: 0 <= i < |queries| ==> querier(queries[i]).Some?
    requires querier(q).Some?
    ensures Collected(querier, queries + [q]) == Collected(querier, queries) + querier(q).value
  {
    assert (queries + [q])[..|queries|] == queries;
  }

  // ----- what the chunks ask for

  lemma ChunkStart(whole: Range, step: Duration, i: nat)
    requires step > 0
    ensures (Chunk(whole, step, i).start - whole.start) % step == 0
    ensures Chunk(whole, step, i).start >= whole.start
  {
    assert i * (MAX_STEPS * step) == (i * MAX_STEPS) * step;
    MultipleMod(i * MAX_STEPS, step);
    assert (i * MAX_STEPS) * step >= 0;
  }

  lemma SamePhase(t: int, a: int, b: int, step: Duration)
    requires step > 0 && (b - a) % step == 0
    ensures (t - a) % step == 0 <==> (t - b) % step == 0
  {
    var k := (b - a) / step;
    DivBounds(b - a, step);
    assert t - a == (t - b) + k * step;
    ModAddMultiple(t - b, k, step);
  }

  /** Every chunk keeps the phase of the grid: it asks for the points of the
      whole range that lie between its ends. */
  lemma ChunkKeepsPhase(whole: Range, step: Duration, i: nat, t: int)
    requires step > 0
    ensures Asks(Chunk(whole, step, i), step, t) <==>
            (Asks(whole, step, t) && Chunk(whole, step, i).start <= t <= Chunk(whole, step, i).end)
  {
    ChunkStart(whole, step, i);
    SamePhase(t, whole.start, Chunk(whole, step, i).start, step);
  }

  /** No query exceeds the server's limit. */
  lemma ChunkIsSmall(whole: Range, step: Duration, i: nat)
    requires step > 0
    ensures Points(Chunk(whole, step, i), step) <= MAX_POINTS
  {
    var q := Chunk(whole, step, i);
    if q.end >= q.start {
      DivBounds(q.end - q.start, step);
      if (q.end - q.start) / step >= MAX_POINTS { AtLeastOne((q.end - q.start) / step - MAX_STEPS, step); }
      FewSteps((q.end - q.start) / step, step);
    }
  }

  lemma FewSteps(n: int, step: Duration)
    requires step > 0 && n * step <= MAX_STEPS * step
    ensures n <= MAX_STEPS
  {
    assert n > MAX_STEPS ==> (n - MAX_STEPS) * step > 0;
    assert (n - MAX_STEPS) * step == n * step - MAX_STEPS * step;
  }

  /** The chunk that holds t, by counting whole spans. */
  lemma ChunkOf(whole: Range, step: Duration, queries: seq<Range>, t: int) returns (i: nat)
    requires step > 0 && IsChunking(whole, step, queries) && whole.start <= t <= whole.end
    ensures i < |queries| && queries[i].start <= t <= queries[i].end
  {
    i := 0;
    while t > queries[i].end
      invariant i < |queries| && queries[i].start <= t
      decreases |queries| - i
    {
      StepsGrow(i, MAX_STEPS * step);
      assert queries[i] == Chunk(whole, step, i);
      assert i + 1 < |queries| ==> queries[i + 1] == Chunk(whole, step, i + 1);
      i := i + 1;
    }
  }

  predicate AskedBy(queries: seq<Range>, step: Duration, t: int)
    requires step > 0
  {
    exists i :: 0 <= i < |queries| && Asks(queries[i], step, t)
  }

  /** Together the queries ask for exactly the grid of the range. */
  lemma ChunksAskTheWholeGrid(whole: Range, step: Duration, queries: seq<Range>, t: int)
    requires step > 0 && whole.start < whole.end && IsChunking(whole, step, queries)
    ensures AskedBy(queries, step, t) <==> Asks(whole, step, t)
    ensures forall i :: 0 <= i < |queries| ==> Points(queries[i], step) <= MAX_POINTS
  {
    hide Chunk, Points;
    forall i | 0 <= i < |queries|
      ensures Asks(queries[i], step, t) <==> (Asks(whole, step, t) && queries[i].start <= t <= queries[i].end)
    {
      ChunkKeepsPhase(whole, step, i, t);
    }
    forall i | 0 <= i < |queries| ensures Points(queries[i], step) <= MAX_POINTS { ChunkIsSmall(whole, step, i); }
    if Asks(whole, step, t) {
      var i := ChunkOf(whole, step, queries, t);
      assert Asks(queries[i], step, t);
    }
  }

  lemma SpansApart(i: nat, j: nat, span: int)
    requires span > 0 && i < j
    ensures j * span >= i * span + span
    ensures j > i + 1 ==> j * span >= i * span + 2 * span
  {
    assert j * span - i * span == (j - i) * span;
    AtLeastOne(j - i, span);
    if j > i + 1 {
      AtLeastOne(j - i - 1, span);
      assert (j - i) * span == (j - i - 1) * span + span;
    }
  }

  /** Only the boundary between two neighbouring chunks is asked for twice. */
  lemma OnlyBoundariesTwice(whole: Range, step: Duration, queries: seq<Range>, i: nat, j: nat, t: int)
    requires step > 0 && IsChunking(whole, step, queries) && i < j < |queries|
    ensures Asks(queries[i], step, t) && Asks(queries[j], step, t) <==> j == i + 1 && t == queries[j].start
  {
    var span := MAX_STEPS * step;
    var a, b := Chunk(whole, step, i), Chunk(whole, step, j);
    assert queries[i] == a && queries[j] == b && b.start < whole.end;
    SpansApart(i, j, span);
    if j == i + 1 {
      StepsGrow(i, span);
      assert a.end == b.start;
      ChunkStart(whole, step, i);
      ChunkStart(whole, step, j);
      SamePhase(b.start, whole.start, a.start, step);
      assert b.start - b.start == 0;
    }
  }

  /** With a step that is not positive the loop cannot end: no chunk gets past
      the start, let alone to the end. */
  lemma StuckWithoutStep(whole: Range, step: Duration, i: nat)
    requires step <= 0 && whole.start < whole.end
    ensures Chunk(whole, step, i).start <= whole.start && Chunk(whole, step, i).end < whole.end
  {
    assert i * (MAX_STEPS * step) <= 0;
  }

  /** So the loop ends exactly when the step is positive or some query fails. */
  lemma EndsExactly(whole: Range, step: Duration, querier: Querier)
    requires whole.start < whole.end
    ensures Ends(whole, step, querier) <==> step > 0 || exists i: nat :: querier(Chunk(whole, step, i)).None?
  {
    hide Chunk;
    if step > 0 {
      FarEnough(whole, step);
      assert Stops(whole, step, querier, whole.end - whole.start);
    } else {
      forall i: nat ensures Chunk(whole, step, i).end != whole.end { StuckWithoutStep(whole, step, i); }
      if i: nat :| querier(Chunk(whole, step, i)).None? { assert Stops(whole, step, querier, i); }
    }
  }

  lemma FarEnough(whole: Range, step: Duration)
    requires whole.start < whole.end && step > 0
    ensures Chunk(whole, step, whole.end - whole.start).end == whole.end
  {
    LongEnough(whole.end - whole.start, MAX_STEPS * step);
  }

  lemma LongEnough(i: nat, span: int)
    requires span > 0
    ensures i * span >= i
  {
  }

  // ----- which range is recovered

  const DEFAULT_WINDOW := DAY

  /** The newest stored sample of the recovery window, if its lookup succeeds. */
  datatype Coverage = Unreadable | Newest(at: Option<int>)

  /** The range after the newest stored sample, inside the recovery window. */
  method RecoverRecentHistory(now: int, step: Duration, recoveryWindow: Duration, coverage: Coverage, querier: Querier)
    returns (queries: seq<Range>, r: Stored)
    ensures step <= 0 ==> queries == [] && r == NothingToDo
    ensures r == CoverageUnknown <==> step > 0 && coverage.Unreadable?
    ensures r == CoverageUnknown ==> queries == []
    ensures step > 0 && coverage.Newest? ==>
              var newest := coverage.at;
              var end := Truncate(now, step);
              var window := if recoveryWindow <= 0 then DEFAULT_WINDOW else recoveryWindow;
              var resumes := newest.Some? && newest.value > end - window;
              var whole := Range(if resumes then newest.value + step else end - window, end);
              && (forall t :: AskedBy(queries, step, t) ==> end - window <= t <= end && (resumes ==> t > newest.value))
              && IsQueried(whole, step, querier, queries, r)
              && (r != QueryFailed && queries != [] ==> forall t :: AskedBy(queries, step, t) <==> Asks(whole, step, t))
  {
    hide Truncate, Chunk;
    if step <= 0 { return [], NothingToDo; }
    var end := Truncate(now, step);
    var window := recoveryWindow;
    if window <= 0 { window := DEFAULT_WINDOW; }
    var start := end - window;
    if coverage.Unreadable? { return [], CoverageUnknown; }
    var newest := coverage.at;
    if newest.Some? && newest.value > start { start := newest.value + step; }
    if start >= end { return [], NothingToDo; }
    var whole := Range(start, end);
    EndsExactly(whole, step, querier);
    queries, r := QueryAndStore(whole, step, querier);
    forall i, t | 0 <= i < |queries| && Asks(queries[i], step, t)
      ensures start <= t <= end
    {
      ChunkKeepsPhase(whole, step, i, t);
    }
    if r != QueryFailed {
      forall t ensures AskedBy(queries, step, t) <==> Asks(whole, step, t) {
        ChunksAskTheWholeGrid(whole, step, queries, t);
      }
    }
  }
}
