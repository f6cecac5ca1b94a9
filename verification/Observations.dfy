/** Demand observations on a sampling grid. Times are nanoseconds since Go's
    zero Time; Duration is a number of nanoseconds. */
module Observations {
  import opened Wrappers

  type Duration = int

  /** A set time. Go's zero Time (the start of year 1) means "no time"
      throughout the repository. */
  type Instant = t: int | t > 0 witness 1

  datatype Sample = Sample(at: Instant, value: real)

  function Values(samples: seq<Sample>): (v: seq<real>)
    ensures |v| == |samples|
  {
    seq(|samples|, i requires 0 <= i < |samples| => samples[i].value)
  }

  const SECOND: Duration := 1_000_000_000
  const MINUTE: Duration := 60 * SECOND
  const HOUR: Duration := 60 * MINUTE
  const DAY: Duration := 24 * HOUR

  function Max(a: int, b: int): int { if a < b then b else a }

  function Min(a: int, b: int): int { if a < b then a else b }

  /** Time.Truncate(interval) is Slot * interval: Go rounds down from the zero
      Time, also before it. */
  function Slot(t: int, interval: Duration): int
    requires interval > 0
  {
    t / interval
  }

  function Truncate(t: int, interval: Duration): (r: int)
    requires interval > 0
    ensures r <= t < r + interval && r % interval == 0
  {
    assert t == t / interval * interval + t % interval;
    MultipleMod(t / interval, interval);
    t / interval * interval
  }

  lemma MultipleMod(k: int, n: int)
    requires n > 0
    ensures k * n % n == 0 && k * n / n == k
  {
    DivUnique(k * n, n, k);
  }

  /** A whole number of steps is at least one step. */
  lemma WholeQuotient(a: int, n: int)
    requires a > 0 && n > 0 && a % n == 0
    ensures a / n >= 1 && a / n * n == a
  {
    DivBounds(a, n);
    PositiveFactor(a / n, n);
  }

  lemma PositiveFactor(q: int, n: int)
    requires n > 0 && q * n > 0
    ensures q >= 1
  {
    assert q <= 0 ==> q * n <= 0;
  }

  /** Adding whole steps keeps the phase. */
  lemma ModAddMultiple(x: int, k: int, n: int)
    requires n > 0
    ensures (x + k * n) % n == x % n
  {
    DivBounds(x, n);
    assert (x / n + k) * n == x / n * n + k * n;
    DivUnique(x + k * n, n, x / n + k);
  }

  lemma AtLeastOne(x: int, n: int)
    requires x >= 1 && n > 0
    ensures x * n >= n
  {
    assert (x - 1) * n >= 0;
    assert x * n == (x - 1) * n + n;
  }

  lemma QuotientUnique(a: int, n: int, q: int, k: int)
    requires n > 0 && q * n <= a < q * n + n && k * n <= a < k * n + n
    ensures q == k
  {
    assert (k - q) * n == k * n - q * n && (q - k) * n == q * n - k * n;
    if q < k { AtLeastOne(k - q, n); }
    if k < q { AtLeastOne(q - k, n); }
  }

  lemma DivBounds(a: int, n: int)
    requires n > 0
    ensures a / n * n <= a < a / n * n + n
  {
    assert a == a / n * n + a % n;
  }

  lemma DivUnique(a: int, n: int, k: int)
    requires n > 0 && k * n <= a < k * n + n
    ensures a / n == k
  {
    DivBounds(a, n);
    QuotientUnique(a, n, a / n, k);
  }

  lemma TruncateSteps(a: int, b: int, interval: Duration)
    requires interval > 0
    ensures Truncate(a, interval) - Truncate(b, interval) == interval <==> Slot(a, interval) == Slot(b, interval) + 1
    ensures Truncate(a, interval) == Truncate(b, interval) <==> Slot(a, interval) == Slot(b, interval)
  {
    var d := Slot(a, interval) - Slot(b, interval);
    assert Truncate(a, interval) - Truncate(b, interval) == d * interval;
    if d >= 2 { assert (d - 1) * interval >= interval; }
    if d <= -1 { assert d * interval < 0; }
  }

  lemma QuotientMonotone(a: int, b: int, n: int, q: int, k: int)
    requires n > 0 && q * n <= a < q * n + n && k * n <= b < k * n + n && a <= b
    ensures q <= k
  {
    assert (q - k) * n == q * n - k * n;
    if k < q { AtLeastOne(q - k, n); }
  }

  lemma SlotMonotone(a: int, b: int, interval: Duration)
    requires interval > 0 && a <= b
    ensures Slot(a, interval) <= Slot(b, interval)
  {
    DivBounds(a, interval);
    DivBounds(b, interval);
    QuotientMonotone(a, b, interval, a / interval, b / interval);
  }

  predicate StrictlyOrdered(s: seq<Sample>) {
    forall i, j :: 0 <= i < j < |s| ==> s[i].at < s[j].at
  }

  predicate SlotsIncrease(s: seq<Sample>, interval: Duration)
    requires interval > 0
  {
    forall i, j :: 0 <= i < j < |s| ==> Slot(s[i].at, interval) < Slot(s[j].at, interval)
  }

  /** Observation i is the last one of its sampling slot. */
  predicate LatestOfSlot(s: seq<Sample>, interval: Duration, i: int)
    requires interval > 0
  {
    0 <= i < |s| && (i + 1 == |s| || Slot(s[i + 1].at, interval) != Slot(s[i].at, interval))
  }

  /** r keeps exactly the latest real point of every observed slot, unchanged
      and in order; `origin` gives the position each one came from. */
  ghost predicate IsDedup(observed: seq<Sample>, interval: Duration, r: seq<Sample>, origin: seq<int>)
    requires interval > 0
  {
    && |origin| == |r|
    && (forall k :: 0 <= k < |r| ==> LatestOfSlot(observed, interval, origin[k]) && r[k] == observed[origin[k]])
    && (forall j, k :: 0 <= j < k < |r| ==> origin[j] < origin[k])
    && (forall i :: LatestOfSlot(observed, interval, i) ==> i in origin)
  }

  /** The latest point of each slot, computed as the loops do: a point of the
      slot at hand replaces the last one kept. */
  function Dedup(observed: seq<Sample>, interval: Duration): (r: seq<Sample>)
    requires interval > 0
    ensures observed != [] ==> r != [] && r[|r| - 1] == observed[|observed| - 1]
    ensures |r| <= |observed|
  {
    if observed == [] then []
    else
      var n := |observed| - 1;
      var kept := Dedup(observed[..n], interval);
      if kept != [] && Slot(kept[|kept| - 1].at, interval) == Slot(observed[n].at, interval)
      then kept[..|kept| - 1] + [observed[n]]
      else kept + [observed[n]]
  }

  /** Only the last-but-one position can stop being the latest of its slot
      when one more observation arrives. */
  lemma LatestExtends(observed: seq<Sample>, interval: Duration, i: int)
    requires interval > 0 && observed != []
    ensures var n := |observed| - 1;
            i < n - 1 ==> (LatestOfSlot(observed[..n], interval, i) <==> LatestOfSlot(observed, interval, i))
    ensures var n := |observed| - 1;
            i == n - 1 >= 0 ==>
              (LatestOfSlot(observed, interval, i) <==>
               Slot(observed[n].at, interval) != Slot(observed[n - 1].at, interval))
    ensures LatestOfSlot(observed, interval, |observed| - 1)
  {
    hide Slot;
  }

  lemma OriginAppend(observed: seq<Sample>, interval: Duration, kept: seq<Sample>, o: seq<int>)
    requires interval > 0 && observed != []
    requires IsDedup(observed[..|observed| - 1], interval, kept, o)
    requires kept != [] ==> Slot(kept[|kept| - 1].at, interval) != Slot(observed[|observed| - 1].at, interval)
    ensures IsDedup(observed, interval, kept + [observed[|observed| - 1]], o + [|observed| - 1])
  {
    hide Slot;
    var n := |observed| - 1;
    forall i: int
      ensures i < n - 1 ==> (LatestOfSlot(observed[..n], interval, i) <==> LatestOfSlot(observed, interval, i))
    {
      LatestExtends(observed, interval, i);
    }
    if n > 0 {
      LastOrigin(observed[..n], interval, kept, o);
      LatestExtends(observed, interval, n - 1);
    }
    LatestExtends(observed, interval, n);
  }

  lemma OriginReplace(observed: seq<Sample>, interval: Duration, kept: seq<Sample>, o: seq<int>)
    requires interval > 0 && |observed| > 1
    requires IsDedup(observed[..|observed| - 1], interval, kept, o) && kept != []
    requires Slot(kept[|kept| - 1].at, interval) == Slot(observed[|observed| - 1].at, interval)
    ensures IsDedup(observed, interval, kept[..|kept| - 1] + [observed[|observed| - 1]],
                    o[..|o| - 1] + [|observed| - 1])
  {
    hide Slot;
    var n, m := |observed| - 1, |o| - 1;
    var r, origin := kept[..m] + [observed[n]], o[..m] + [n];
    forall i: int
      ensures i < n - 1 ==> (LatestOfSlot(observed[..n], interval, i) <==> LatestOfSlot(observed, interval, i))
    {
      LatestExtends(observed, interval, i);
    }
    LastOrigin(observed[..n], interval, kept, o);
    LatestExtends(observed, interval, n - 1);
    LatestExtends(observed, interval, n);
    forall i | LatestOfSlot(observed, interval, i) ensures i in origin {
      if i < n {
        assert i in o && i != o[m];
        assert i in o[..m];
      }
    }
    forall k | 0 <= k < |r| ensures LatestOfSlot(observed, interval, origin[k]) && r[k] == observed[origin[k]] {
      if k < m { assert o[k] < o[m] == n - 1; }
    }
  }

  lemma LastOrigin(observed: seq<Sample>, interval: Duration, r: seq<Sample>, origin: seq<int>)
    requires interval > 0 && observed != [] && IsDedup(observed, interval, r, origin)
    ensures origin != [] && origin[|origin| - 1] == |observed| - 1
  {
    hide Slot;
    assert LatestOfSlot(observed, interval, |observed| - 1);
    var k :| 0 <= k < |origin| && origin[k] == |observed| - 1;
    assert LatestOfSlot(observed, interval, origin[|origin| - 1]);
  }

  /** The loops' deduplication keeps exactly the latest point of every slot. */
  lemma {:induction false} DedupKeepsLatest(observed: seq<Sample>, interval: Duration) returns (origin: seq<int>)
    requires interval > 0
    ensures IsDedup(observed, interval, Dedup(observed, interval), origin)
    ensures |origin| == |Dedup(observed, interval)|
  {
    hide Slot, IsDedup;
    if observed == [] {
      origin := [];
      NothingKept(interval);
    } else {
      var n := |observed| - 1;
      var kept := Dedup(observed[..n], interval);
      var o := DedupKeepsLatest(observed[..n], interval);
      if kept != [] && Slot(kept[|kept| - 1].at, interval) == Slot(observed[n].at, interval) {
        OriginReplace(observed, interval, kept, o);
        origin := o[..|o| - 1] + [n];
      } else {
        OriginAppend(observed, interval, kept, o);
        origin := o + [n];
      }
    }
  }

  lemma NothingKept(interval: Duration)
    requires interval > 0
    ensures IsDedup([], interval, [], [])
  {
  }

  lemma IncreasingAppend(kept: seq<Sample>, x: Sample, interval: Duration)
    requires interval > 0 && SlotsIncrease(kept, interval) && StrictlyOrdered(kept)
    requires kept != [] ==> kept[|kept| - 1].at < x.at
    ensures var r := if kept != [] && Slot(kept[|kept| - 1].at, interval) == Slot(x.at, interval)
                     then kept[..|kept| - 1] + [x] else kept + [x];
            SlotsIncrease(r, interval) && StrictlyOrdered(r)
  {
    hide Slot;
    if kept != [] {
      var m := |kept| - 1;
      SlotMonotone(kept[m].at, x.at, interval);
      assert forall i :: 0 <= i < m ==> kept[i].at < kept[m].at;
      assert forall i :: 0 <= i < m ==> Slot(kept[i].at, interval) < Slot(kept[m].at, interval);
    }
  }

  lemma {:induction false} DedupSlotsIncrease(observed: seq<Sample>, interval: Duration)
    requires interval > 0 && StrictlyOrdered(observed)
    ensures SlotsIncrease(Dedup(observed, interval), interval)
    ensures StrictlyOrdered(Dedup(observed, interval))
  {
    hide Slot, SlotsIncrease;
    if observed == [] {
      NothingIncreases(interval);
    } else {
      var n := |observed| - 1;
      DedupSlotsIncrease(observed[..n], interval);
      IncreasingAppend(Dedup(observed[..n], interval), observed[n], interval);
    }
  }

  lemma NothingIncreases(interval: Duration)
    requires interval > 0
    ensures SlotsIncrease([], interval)
  {
  }

  lemma DedupUnfolds(s: seq<Sample>, interval: Duration)
    requires interval > 0 && s != []
    ensures var n := |s| - 1; var kept := Dedup(s[..n], interval);
            Dedup(s, interval) ==
              if kept != [] && Slot(kept[|kept| - 1].at, interval) == Slot(s[n].at, interval)
                then kept[..|kept| - 1] + [s[n]] else kept + [s[n]]
  {
  }

  /** Leaving out the oldest observations leaves out the oldest points. */
  lemma {:induction false} DedupOfSuffix(s: seq<Sample>, interval: Duration, start: nat) returns (k: nat)
    requires interval > 0 && start < |s|
    ensures k <= |Dedup(s, interval)| && Dedup(s[start..], interval) == Dedup(s, interval)[k..]
  {
    hide Dedup, Slot;
    var n := |s| - 1;
    DedupUnfolds(s, interval);
    DedupUnfolds(s[start..], interval);
    assert s[start..][..n - start] == s[start..n];
    if start == n {
      assert Dedup([], interval) == [] by { Empty(interval); }
      k := |Dedup(s, interval)| - 1;
    } else {
      k := DedupOfSuffix(s[..n], interval, start);
      assert s[..n][start..] == s[start..n];
      LastKept(s[start..n], interval);
      var kept, d := Dedup(s[..n], interval), Dedup(s, interval);
      assert kept[k..] == Dedup(s[start..n], interval);
      assert d[k..] == Dedup(s[start..], interval);
    }
  }

  lemma LastKept(s: seq<Sample>, interval: Duration)
    requires interval > 0 && s != []
    ensures Dedup(s, interval) != []
  {
  }

  // ----- reading observations

  lemma DedupStep(s: seq<Sample>, p: Sample, interval: Duration)
    requires interval > 0
    ensures var kept := Dedup(s, interval);
            Dedup(s + [p], interval) ==
              if kept != [] && Truncate(kept[|kept| - 1].at, interval) == Truncate(p.at, interval)
              then kept[..|kept| - 1] + [p] else kept + [p]
  {
    hide Slot, Truncate;
    var kept := Dedup(s, interval);
    assert (s + [p])[..|s|] == s;
    if kept != [] { TruncateSteps(kept[|kept| - 1].at, p.at, interval); }
  }

  lemma OrderedExtends(s: seq<Sample>, i: nat)
    requires i < |s| && StrictlyOrdered(s[..i])
    ensures (i > 0 ==> s[i - 1].at < s[i].at) <==> StrictlyOrdered(s[..i + 1])
  {
    if i > 0 && s[i - 1].at < s[i].at {
      assert forall j :: 0 <= j < i ==> s[..i][j].at <= s[..i][i - 1].at;
    }
    if i > 0 && StrictlyOrdered(s[..i + 1]) { assert s[..i + 1][i - 1].at < s[..i + 1][i].at; }
  }

  lemma OrderedPrefix(s: seq<Sample>, i: nat)
    requires i <= |s| && StrictlyOrdered(s)
    ensures StrictlyOrdered(s[..i])
  {
  }

  /** What the reading loops accept: strictly ordered, never negative. */
  predicate ValidObservations(s: seq<Sample>) {
    && (forall i :: 0 <= i < |s| ==> s[i].value >= 0.0)
    && StrictlyOrdered(s)
  }

  /** The loop that reads observations: the latest point of every slot, or None
      for invalid ones. Training and comparison refuse negative values here, the
      preparation for inference only later. */
  method KeepLatest(observed: seq<Sample>, interval: Duration, refuseNegative: bool) returns (r: Option<seq<Sample>>)
    requires interval > 0
    ensures r == if (if refuseNegative then ValidObservations(observed) else StrictlyOrdered(observed))
                 then Some(Dedup(observed, interval)) else None
  {
    hide Slot, Truncate, Dedup, StrictlyOrdered;
    var points: seq<Sample> := [];
    assert observed[..0] == [] && Dedup([], interval) == [] && StrictlyOrdered(observed[..0]) by { Empty(interval); }
    for i := 0 to |observed|
      invariant StrictlyOrdered(observed[..i])
                && (refuseNegative ==> forall k :: 0 <= k < i ==> observed[k].value >= 0.0)
      invariant points == Dedup(observed[..i], interval)
    {
      var p := observed[i];
      OrderedExtends(observed, i);
      if (refuseNegative && p.value < 0.0) || (i > 0 && p.at <= observed[i - 1].at) {
        if StrictlyOrdered(observed) { OrderedPrefix(observed, i + 1); }
        return None;
      }
      DedupStep(observed[..i], p, interval);
      assert observed[..i] + [p] == observed[..i + 1];
      if |points| > 0 && Truncate(points[|points| - 1].at, interval) == Truncate(p.at, interval) {
        points := points[..|points| - 1] + [p];
      } else {
        points := points + [p];
      }
    }
    assert observed[..|observed|] == observed;
    r := Some(points);
  }

  lemma Empty(interval: Duration)
    requires interval > 0
    ensures Dedup([], interval) == [] && StrictlyOrdered([])
  {
  }
}
