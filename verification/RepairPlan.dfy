/** The request plan of internal/history/repair.go: which slots are missing, and
    the spans that are asked for. */
module RepairPlan {
  import opened Observations

  datatype Span = Span(first: int, last: int)

  const MAX_SPAN: int := 10000
  const MAX_RUNS: int := 128

  predicate InSpan(p: Span, s: int) { p.first <= s <= p.last }

  ghost predicate Planned(plan: seq<Span>, s: int) {
    exists k :: 0 <= k < |plan| && InSpan(plan[k], s)
  }

  /** Spans are inside the window, at most 10000 long, disjoint and ascending. */
  ghost predicate Ordered(plan: seq<Span>, slots: int) {
    && (forall k :: 0 <= k < |plan| ==>
        0 <= plan[k].first <= plan[k].last < slots
        && plan[k].last - plan[k].first < MAX_SPAN)
    && (forall j, k :: 0 <= j < k < |plan| ==> plan[j].last < plan[k].first)
  }

  /** The spans together are exactly the missing slots below `upTo`. */
  ghost predicate CoversExactly(plan: seq<Span>, missing: seq<bool>, upTo: int) {
    forall s :: Planned(plan, s) <==> (0 <= s < upTo && s < |missing| && missing[s])
  }

  lemma PlannedAppend(plan: seq<Span>, p: Span, s: int)
    ensures Planned(plan + [p], s) <==> Planned(plan, s) || InSpan(p, s)
  {
    var more := plan + [p];
    if Planned(plan, s) {
      var k :| 0 <= k < |plan| && InSpan(plan[k], s);
      assert InSpan(more[k], s);
    }
    if InSpan(p, s) { assert InSpan(more[|plan|], s); }
    if Planned(more, s) {
      var k :| 0 <= k < |more| && InSpan(more[k], s);
      assert k < |plan| ==> InSpan(plan[k], s);
    }
  }

  lemma RunCovers(plan: seq<Span>, missing: seq<bool>, first: int, next: int)
    requires CoversExactly(plan, missing, first) && 0 <= first < next <= |missing|
    requires forall s :: first <= s < next ==> missing[s]
    ensures CoversExactly(plan + [Span(first, next - 1)], missing, next)
  {
    hide Planned;
    forall s ensures Planned(plan + [Span(first, next - 1)], s) <==> (0 <= s < next && s < |missing| && missing[s]) {
      PlannedAppend(plan, Span(first, next - 1), s);
    }
  }

  /** Contiguous missing runs, split every 10000 slots. */
  method PlanRuns(missing: array<bool>) returns (plan: seq<Span>)
    ensures Ordered(plan, missing.Length)
    ensures CoversExactly(plan, missing[..], missing.Length)
  {
    hide Planned;
    plan := [];
    ghost var bits := missing[..];
    NothingPlanned(bits);
    var i := 0;
    while i < missing.Length
      invariant 0 <= i <= missing.Length && missing[..] == bits
      invariant Ordered(plan, missing.Length)
      invariant forall k :: 0 <= k < |plan| ==> plan[k].last < i
      invariant CoversExactly(plan, bits, i)
    {
      if !missing[i] {
        i := i + 1;
      } else {
        var first := i;
        while i < missing.Length && missing[i] && i - first < MAX_SPAN
          invariant first <= i <= missing.Length && i - first <= MAX_SPAN
          invariant forall s :: first <= s < i ==> bits[s]
          invariant i == first ==> missing[first]
        {
          i := i + 1;
        }
        RunCovers(plan, bits, first, i);
        plan := plan + [Span(first, i - 1)];
      }
    }
  }

  lemma NothingPlanned(missing: seq<bool>)
    ensures CoversExactly([], missing, 0)
  {
    forall s ensures !Planned([], s) { }
  }

  /** Spans that start and end on missing slots and leave none out. */
  ghost predicate CoversTightly(plan: seq<Span>, missing: seq<bool>, upTo: int) {
    && (forall k :: 0 <= k < |plan| ==> 0 <= plan[k].first <= plan[k].last < upTo && plan[k].last < |missing|)
    && (forall k :: 0 <= k < |plan| ==> missing[plan[k].first] && missing[plan[k].last])
    && (forall s :: 0 <= s < upTo && s < |missing| && missing[s] ==> Planned(plan, s))
  }

  lemma ShardCovers(plan: seq<Span>, missing: seq<bool>, first: int, next: int, a: int, b: int)
    requires CoversTightly(plan, missing, first) && 0 <= first < next <= |missing|
    requires first <= a <= b < next && missing[a] && missing[b]
    requires forall s :: first <= s < next && (s < a || b < s) ==> !missing[s]
    ensures CoversTightly(plan + [Span(a, b)], missing, next)
  {
    hide Planned;
    forall s | 0 <= s < next && missing[s] ensures Planned(plan + [Span(a, b)], s) {
      PlannedAppend(plan, Span(a, b), s);
    }
  }

  lemma ShardEmpty(plan: seq<Span>, missing: seq<bool>, first: int, next: int)
    requires CoversTightly(plan, missing, first) && 0 <= first < next <= |missing|
    requires forall s :: first <= s < next ==> !missing[s]
    ensures CoversTightly(plan, missing, next)
  {
    hide Planned;
  }

  /** One bounded shard per 10000 slots, trimmed to its missing ends. */
  method PlanShards(missing: array<bool>) returns (plan: seq<Span>)
    ensures Ordered(plan, missing.Length)
    ensures CoversTightly(plan, missing[..], missing.Length)
    ensures |plan| * MAX_SPAN < missing.Length + MAX_SPAN
  {
    hide Planned;
    plan := [];
    ghost var bits := missing[..];
    var first := 0;
    while first < missing.Length
      invariant 0 <= first && missing[..] == bits
      invariant Ordered(plan, missing.Length)
      invariant forall k :: 0 <= k < |plan| ==> plan[k].last < first
      invariant CoversTightly(plan, bits, Min(first, missing.Length))
      invariant |plan| * MAX_SPAN <= first < missing.Length + MAX_SPAN
      decreases missing.Length - first
    {
      var next := Min(missing.Length, first + MAX_SPAN);
      var a, b := first, next - 1;
      while a <= b && !missing[a]
        invariant first <= a <= b + 1 == next
        invariant forall s :: first <= s < a ==> !bits[s]
      {
        a := a + 1;
      }
      while b >= a && !missing[b]
        invariant a - 1 <= b < next
        invariant a <= b ==> bits[a]
        invariant forall s :: b < s < next ==> !bits[s]
      {
        b := b - 1;
      }
      if a <= b {
        ShardCovers(plan, bits, first, next, a, b);
        plan := plan + [Span(a, b)];
      } else {
        ShardEmpty(plan, bits, first, next);
      }
      first := first + MAX_SPAN;
    }
  }

  /** The plan: contiguous runs, or shards when there are more than 128 runs.
      Either way every missing slot is asked for, in disjoint ascending spans of
      at most 10000 slots whose ends are missing. */
  method PlanRequests(missing: array<bool>) returns (plan: seq<Span>)
    ensures Ordered(plan, missing.Length)
    ensures forall s :: 0 <= s < missing.Length && missing[s] ==> Planned(plan, s)
    ensures forall k :: 0 <= k < |plan| ==>
            0 <= plan[k].first <= plan[k].last < missing.Length
            && missing[plan[k].first] && missing[plan[k].last]
    ensures (|plan| <= 128 && CoversExactly(plan, missing[..], missing.Length))
            || |plan| * 10_000 < missing.Length + 10_000
  {
    hide Planned;
    plan := PlanRuns(missing);
    if |plan| > MAX_RUNS {
      plan := PlanShards(missing);
    } else {
      EndsMissing(plan, missing[..]);
    }
  }

  lemma EndsMissing(plan: seq<Span>, missing: seq<bool>)
    requires Ordered(plan, |missing|) && CoversExactly(plan, missing, |missing|)
    ensures forall k :: 0 <= k < |plan| ==>
            0 <= plan[k].first <= plan[k].last < |missing| && missing[plan[k].first]
            && missing[plan[k].last]
  {
    forall k | 0 <= k < |plan| ensures missing[plan[k].first] && missing[plan[k].last] {
      assert InSpan(plan[k], plan[k].first) && InSpan(plan[k], plan[k].last);
      assert Planned(plan, plan[k].first) && Planned(plan, plan[k].last);
    }
  }
}
