/** The window selection of CompareArtifacts (internal/forecast/comparison.go):
    gap prefix counts, the greedy scan for disjoint complete windows, and the
    even subsampling that caps them. */
module Windows {
  import opened Observations
  import opened Wrappers

  /** The slot of sample i directly follows the slot of sample i-1. */
  predicate Follows(s: seq<Sample>, interval: Duration, i: int)
    requires interval > 0 && 0 < i < |s|
  {
    Slot(s[i].at, interval) == Slot(s[i - 1].at, interval) + 1
  }

  /** No slot is missing from sample a to sample b. */
  predicate Complete(s: seq<Sample>, interval: Duration, a: int, b: int)
    requires interval > 0 && 0 <= a && b < |s|
  {
    forall i :: a < i <= b ==> Follows(s, interval, i)
  }

  lemma {:induction false} CompleteSlots(s: seq<Sample>, interval: Duration, a: nat, b: nat)
    requires interval > 0 && a <= b < |s|
    requires Complete(s, interval, a, b)
    ensures forall i :: a <= i <= b ==> Slot(s[i].at, interval) == Slot(s[a].at, interval) + (i - a)
  {
    hide Slot;
    if a < b {
      CompleteSlots(s, interval, a, b - 1);
      assert Follows(s, interval, b);
    }
  }

  /** The number of missing-slot positions up to sample i. */
  function Breaks(s: seq<Sample>, interval: Duration, i: nat): nat
    requires interval > 0 && i < |s|
  {
    if i == 0 then 0 else Breaks(s, interval, i - 1) + if Follows(s, interval, i) then 0 else 1
  }

  /** Equal gap counts at both ends hold exactly when every slot between is present. */
  lemma {:induction false} EqualBreaksMeanComplete(s: seq<Sample>, interval: Duration, a: nat, b: nat)
    requires interval > 0 && a <= b < |s|
    ensures Breaks(s, interval, a) <= Breaks(s, interval, b)
    ensures Breaks(s, interval, a) == Breaks(s, interval, b) <==> Complete(s, interval, a, b)
  {
    hide Follows;
    if a < b {
      EqualBreaksMeanComplete(s, interval, a, b - 1);
      if Complete(s, interval, a, b) { assert Follows(s, interval, b); }
    }
  }

  /** The first sample of the gap-free run that sample i belongs to. */
  function RunStart(s: seq<Sample>, interval: Duration, i: nat): (r: nat)
    requires interval > 0 && i < |s|
    ensures r <= i
  {
    if i == 0 || !Follows(s, interval, i) then i else RunStart(s, interval, i - 1)
  }

  lemma {:induction false} RunStartIsMaximal(s: seq<Sample>, interval: Duration, i: nat)
    requires interval > 0 && i < |s|
    ensures Complete(s, interval, RunStart(s, interval, i), i)
    ensures forall a: nat :: a <= i && Complete(s, interval, a, i) ==> RunStart(s, interval, i) <= a
  {
    hide Follows;
    if i > 0 && Follows(s, interval, i) {
      RunStartIsMaximal(s, interval, i - 1);
      forall a: nat | a <= i && Complete(s, interval, a, i) ensures RunStart(s, interval, i) <= a {
        if a < i { assert Complete(s, interval, a, i - 1); }
      }
    } else if i > 0 {
      forall a: nat | a <= i && Complete(s, interval, a, i) ensures RunStart(s, interval, i) <= a {
        assert !(a < i <= i);
      }
    }
  }

  lemma GapStep(s: seq<Sample>, interval: Duration, i: nat)
    requires interval > 0 && 0 < i < |s|
    ensures var gap := Truncate(s[i].at, interval) - Truncate(s[i - 1].at, interval) != interval;
            && Breaks(s, interval, i) == Breaks(s, interval, i - 1) + (if gap then 1 else 0)
            && RunStart(s, interval, i) == if gap then i else RunStart(s, interval, i - 1)
  {
    hide Slot, Truncate;
    TruncateSteps(s[i].at, s[i - 1].at, interval);
  }

  method CountGaps(s: seq<Sample>, interval: Duration) returns (gaps: array<int>, segmentStart: array<int>)
    requires interval > 0
    ensures gaps.Length == segmentStart.Length == |s|
    ensures forall i: nat :: i < |s| ==>
            gaps[i] == Breaks(s, interval, i)
            && segmentStart[i] == RunStart(s, interval, i)
  {
    hide Truncate;
    gaps, segmentStart := new int[|s|](_ => 0), new int[|s|](_ => 0);
    if s == [] { return; }
    FirstGap(s, interval);
    hide Breaks, RunStart, Follows, Slot;
    for i := 1 to |s|
      invariant forall k: nat :: k < i ==>
                gaps[k] == Breaks(s, interval, k)
                && segmentStart[k] == RunStart(s, interval, k)
    {
      GapStep(s, interval, i);
      gaps[i] := gaps[i - 1];
      segmentStart[i] := segmentStart[i - 1];
      if Truncate(s[i].at, interval) - Truncate(s[i - 1].at, interval) != interval {
        gaps[i] := gaps[i] + 1;
        segmentStart[i] := i;
      }
    }
  }

  lemma FirstGap(s: seq<Sample>, interval: Duration)
    requires interval > 0 && s != []
    ensures Breaks(s, interval, 0) == 0 && RunStart(s, interval, 0) == 0
  {
  }

  datatype Grid = Grid(interval: Duration, history: nat, steps: nat, after: int)

  ghost predicate ValidGrid(g: Grid) {
    g.interval > 0 && g.history > 0 && g.steps > 0
  }

  /** A window whose inputs and targets are fully observed and whose origin is
      not before the cutoff. Its targets are samples [cut, cut+steps). */
  ghost predicate Eligible(s: seq<Sample>, g: Grid, cut: int)
    requires ValidGrid(g)
  {
    && g.history <= cut && cut + g.steps <= |s|
    && g.after <= s[cut - 1].at
    && Complete(s, g.interval, cut - g.history, cut + g.steps - 1)
  }

  ghost predicate AllEligible(s: seq<Sample>, g: Grid, cuts: seq<int>)
    requires ValidGrid(g)
  {
    forall k :: 0 <= k < |cuts| ==> Eligible(s, g, cuts[k])
  }

  /** Consecutive target windows do not overlap. */
  ghost predicate Spaced(cuts: seq<int>, steps: nat) {
    forall j, k :: 0 <= j < k < |cuts| ==> cuts[j] + steps <= cuts[k]
  }

  ghost predicate Covers(cuts: seq<int>, steps: nat, cut: int) {
    exists k :: 0 <= k < |cuts| && cuts[k] <= cut < cuts[k] + steps
  }

  /** What the scan has established once it has decided every cut below `cut`. */
  ghost predicate Scanned(s: seq<Sample>, g: Grid, indexes: seq<int>, cut: int)
    requires ValidGrid(g)
  {
    && AllEligible(s, g, indexes) && Spaced(indexes, g.steps)
    && (forall k :: 0 <= k < |indexes| ==> indexes[k] < cut)
    && (forall c :: Eligible(s, g, c) && c < cut ==> Covers(indexes, g.steps, c))
  }

  lemma ScanSkips(s: seq<Sample>, g: Grid, indexes: seq<int>, cut: int)
    requires ValidGrid(g) && Scanned(s, g, indexes, cut)
    requires Eligible(s, g, cut) ==> indexes != [] && cut < indexes[|indexes| - 1] + g.steps
    ensures Scanned(s, g, indexes, cut + 1)
  {
    hide Complete;
    if Eligible(s, g, cut) {
      assert indexes[|indexes| - 1] <= cut < indexes[|indexes| - 1] + g.steps;
    }
  }

  lemma CoversAppend(indexes: seq<int>, x: int, steps: nat, c: int)
    requires steps > 0
    requires Covers(indexes, steps, c) || c == x
    ensures Covers(indexes + [x], steps, c)
  {
    var after := indexes + [x];
    if Covers(indexes, steps, c) {
      var k :| 0 <= k < |indexes| && indexes[k] <= c < indexes[k] + steps;
      assert after[k] == indexes[k];
    } else {
      assert after[|indexes|] == c;
    }
  }

  lemma ScanSelects(s: seq<Sample>, g: Grid, indexes: seq<int>, cut: int)
    requires ValidGrid(g) && Scanned(s, g, indexes, cut) && Eligible(s, g, cut)
    requires indexes != [] ==> indexes[|indexes| - 1] + g.steps <= cut
    ensures Scanned(s, g, indexes + [cut], cut + 1)
  {
    hide Eligible, Covers;
    forall c | Eligible(s, g, c) && c < cut + 1 ensures Covers(indexes + [cut], g.steps, c) {
      CoversAppend(indexes, cut, g.steps, c);
    }
  }

  lemma Blocked(s: seq<Sample>, last: int, cut: int, steps: nat)
    requires StrictlyOrdered(s) && steps > 0 && 0 < last && last + steps <= |s| && 0 < cut <= |s|
    ensures s[cut - 1].at < s[last + steps - 1].at <==> cut < last + steps
  {
  }

  /** The greedy scan. Every eligible window overlaps the selected one that
      starts at or before it. */
  method ScanWindows(s: seq<Sample>, g: Grid, gaps: array<int>) returns (indexes: seq<int>)
    requires ValidGrid(g) && StrictlyOrdered(s) && gaps.Length == |s|
    requires forall i: nat :: i < |s| ==> gaps[i] == Breaks(s, g.interval, i)
    ensures AllEligible(s, g, indexes) && Spaced(indexes, g.steps)
    ensures forall cut :: Eligible(s, g, cut) ==> Covers(indexes, g.steps, cut)
  {
    hide Complete, Scanned, Breaks, StrictlyOrdered;
    indexes := [];
    var lastEnd: int := 0;
    var cut: int := g.history;
    NothingScanned(s, g);
    while cut + g.steps <= |s|
      invariant g.history <= cut
      invariant Scanned(s, g, indexes, cut)
      invariant indexes == [] ==> lastEnd == 0
      invariant indexes != [] ==> var last := indexes[|indexes| - 1];
                                  0 < last && last + g.steps <= |s| && lastEnd == s[last + g.steps - 1].at
    {
      var origin := s[cut - 1].at;
      EqualBreaksMeanComplete(s, g.interval, cut - g.history, cut + g.steps - 1);
      if indexes != [] { Blocked(s, indexes[|indexes| - 1], cut, g.steps); }
      if origin < g.after || (lastEnd != 0 && origin < lastEnd) || gaps[cut + g.steps - 1] != gaps[cut - g.history] {
        ScanSkips(s, g, indexes, cut);
      } else {
        ScanSelects(s, g, indexes, cut);
        indexes := indexes + [cut];
        lastEnd := s[cut + g.steps - 1].at;
      }
      cut := cut + 1;
    }
    ScanComplete(s, g, indexes, cut);
  }

  lemma NothingScanned(s: seq<Sample>, g: Grid)
    requires ValidGrid(g)
    ensures Scanned(s, g, [], g.history)
  {
  }

  lemma ScanComplete(s: seq<Sample>, g: Grid, indexes: seq<int>, cut: int)
    requires ValidGrid(g) && Scanned(s, g, indexes, cut) && cut + g.steps > |s|
    ensures AllEligible(s, g, indexes) && Spaced(indexes, g.steps)
    ensures forall c :: Eligible(s, g, c) ==> Covers(indexes, g.steps, c)
  {
    hide Complete;
  }

  ghost predicate Disjoint(family: set<int>, steps: nat) {
    forall a, b :: a in family && b in family && a < b ==> a + steps <= b
  }

  /** The scan is optimal: no family of pairwise disjoint windows that the scan
      covers is larger than what it selected. */
  lemma {:induction false} NoLargerFamily(indexes: seq<int>, steps: nat, family: set<int>)
    requires Spaced(indexes, steps) && Disjoint(family, steps)
    requires forall c :: c in family ==> Covers(indexes, steps, c)
    ensures |family| <= |indexes|
  {
    if indexes == [] {
      forall c ensures !Covers(indexes, steps, c) {
      }
      assert family == {};
    } else {
      var n := |indexes| - 1;
      var late := set c | c in family && indexes[n] <= c;
      var early := family - late;
      forall c | c in early ensures Covers(indexes[..n], steps, c) {
        CoveredEarlier(indexes, steps, c);
      }
      NoLargerFamily(indexes[..n], steps, early);
      forall a, b | a in late && b in late ensures a == b {
        OneOverlap(indexes, steps, a, b);
      }
      AtMostOne(late);
      assert family == early + late && early !! late;
    }
  }

  lemma CoveredEarlier(indexes: seq<int>, steps: nat, c: int)
    requires indexes != [] && Covers(indexes, steps, c) && c < indexes[|indexes| - 1]
    ensures Covers(indexes[..|indexes| - 1], steps, c)
  {
    var k :| 0 <= k < |indexes| && indexes[k] <= c < indexes[k] + steps;
    assert indexes[..|indexes| - 1][k] == indexes[k];
  }

  /** Two windows covered by the last selected one overlap. */
  lemma OneOverlap(indexes: seq<int>, steps: nat, a: int, b: int)
    requires indexes != [] && Spaced(indexes, steps)
    requires Covers(indexes, steps, a) && Covers(indexes, steps, b)
    requires indexes[|indexes| - 1] <= a && indexes[|indexes| - 1] <= b
    requires a < b ==> a + steps <= b
    requires b < a ==> b + steps <= a
    ensures a == b
  {
    var j :| 0 <= j < |indexes| && indexes[j] <= a < indexes[j] + steps;
    var k :| 0 <= k < |indexes| && indexes[k] <= b < indexes[k] + steps;
  }

  lemma AtMostOne(s: set<int>)
    requires forall a, b :: a in s && b in s ==> a == b
    ensures |s| <= 1
  {
    if |s| > 1 {
      var a := Member(s);
      assert |s - {a}| == |s| - 1;
      var b := Member(s - {a});
    }
  }

  // ----- even subsampling

  /** i*(n-1)/(m-1), for n windows capped to m. */
  function EvenIndex(i: nat, n: nat, m: nat): int
    requires m >= 2 && n >= 1
  {
    i * (n - 1) / (m - 1)
  }

  lemma DivStep(a: int, b: int, d: int)
    requires d > 0 && a + d <= b
    ensures a / d + 1 <= b / d
  {
    DivBounds(a, d);
    DivBounds(b, d);
    assert (a / d + 1) * d == a / d * d + d;
    QuotientMonotone(a + d, b, d, a / d + 1, b / d);
  }

  lemma EvenIndexStep(i: nat, n: nat, m: nat)
    requires m >= 2 && n >= m
    ensures EvenIndex(i, n, m) + 1 <= EvenIndex(i + 1, n, m)
  {
    assert (i + 1) * (n - 1) == i * (n - 1) + (n - 1);
    DivStep(i * (n - 1), (i + 1) * (n - 1), m - 1);
  }

  /** Subsampling never repeats a window and keeps their order. */
  lemma {:induction false} EvenIndexIncreases(j: nat, k: nat, n: nat, m: nat)
    requires m >= 2 && n >= m && j <= k < m
    ensures EvenIndex(j, n, m) + (k - j) <= EvenIndex(k, n, m)
    decreases k
  {
    hide EvenIndex;
    if j < k {
      EvenIndexIncreases(j, k - 1, n, m);
      EvenIndexStep(k - 1, n, m);
    }
  }

  lemma EvenEnds(n: nat, m: nat)
    requires m >= 2 && n >= m
    ensures EvenIndex(0, n, m) == 0 && EvenIndex(m - 1, n, m) == n - 1
  {
    DivUnique((m - 1) * (n - 1), m - 1, n - 1);
    DivUnique(0, m - 1, 0);
  }

  lemma EvenIndexInRange(k: nat, n: nat, m: nat)
    requires m >= 2 && n >= m && k < m
    ensures 0 <= EvenIndex(k, n, m) < n
  {
    hide EvenIndex;
    EvenEnds(n, m);
    EvenIndexIncreases(0, k, n, m);
    EvenIndexIncreases(k, m - 1, n, m);
  }

  /** The whole part of the proportional position. Two neighbours are as far apart
      as any other two, or one further. */
  lemma EvenIndexIsEven(k: nat, n: nat, m: nat)
    requires m >= 2 && n >= m
    ensures EvenIndex(k, n, m) * (m - 1) <= k * (n - 1) < (EvenIndex(k, n, m) + 1) * (m - 1)
    ensures (n - 1) / (m - 1) <= EvenIndex(k + 1, n, m) - EvenIndex(k, n, m) <= (n - 1) / (m - 1) + 1
  {
    assert (k + 1) * (n - 1) == k * (n - 1) + (n - 1);
    DivBounds(k * (n - 1), m - 1);
    QuotientsApart(k * (n - 1), n - 1, m - 1);
  }

  lemma QuotientsApart(x: int, w: int, d: int)
    requires d > 0
    ensures w / d <= (x + w) / d - x / d <= w / d + 1
  {
    var a, b, c := x / d, (x + w) / d, w / d;
    DivBounds(x, d);
    DivBounds(x + w, d);
    DivBounds(w, d);
    assert (a + 1) * d == a * d + d && (b + 1) * d == b * d + d && (c + 1) * d == c * d + d;
    ProductsApart(a, b, c, d);
  }

  lemma ProductsApart(a: int, b: int, c: int, d: int)
    requires d > 0 && b * d < a * d + c * d + 2 * d && a * d + c * d < b * d + d
    ensures c <= b - a <= c + 1
  {
    assert (b - a - c) * d == b * d - a * d - c * d;
    if b - a > c + 1 { AtLeastOne(b - a - c - 1, d); }
    if b - a < c { AtLeastOne(c - b + a, d); }
  }

  /** m elements taken evenly from all of them. */
  function EvenSample<T>(all: seq<T>, m: nat): (r: seq<T>)
    requires |all| >= m >= 2
    ensures |r| == m && r[0] == all[0] && r[m - 1] == all[|all| - 1]
  {
    EvenEnds(|all|, m);
    seq(m, k requires 0 <= k < m => EvenIndexInRange(k, |all|, m); all[EvenIndex(k, |all|, m)])
  }

  /** The capped selection: an even subfamily of the selected windows, still
      spaced, with the same first and last window. */
  method Subsample(indexes: seq<int>, maximum: nat) returns (selected: seq<int>)
    requires |indexes| > maximum >= 2
    ensures selected == EvenSample(indexes, maximum)
    ensures selected[0] == indexes[0] && selected[maximum - 1] == indexes[|indexes| - 1]
    ensures forall k :: 0 <= k < maximum ==> selected[k] in indexes
    ensures forall steps: nat :: Spaced(indexes, steps) ==> Spaced(selected, steps)
  {
    var n := |indexes|;
    var result := new int[maximum](_ => 0);
    for i := 0 to maximum
      invariant forall k: nat :: k < i ==> result[k] == EvenSample(indexes, maximum)[k]
    {
      EvenIndexInRange(i, n, maximum);
      result[i] := indexes[i * (n - 1) / (maximum - 1)];
    }
    selected := result[..];
    assert selected == EvenSample(indexes, maximum);
    SampleIsSpaced(indexes, maximum);
  }

  lemma SampleIsSpaced(indexes: seq<int>, maximum: nat)
    requires |indexes| >= maximum >= 2
    ensures forall k :: 0 <= k < maximum ==> EvenSample(indexes, maximum)[k] in indexes
    ensures forall steps: nat :: Spaced(indexes, steps) ==> Spaced(EvenSample(indexes, maximum), steps)
  {
    hide EvenIndex;
    var n, selected := |indexes|, EvenSample(indexes, maximum);
    forall k | 0 <= k < maximum ensures 0 <= EvenIndex(k, n, maximum) < n && selected[k] in indexes {
      EvenIndexInRange(k, n, maximum);
    }
    forall steps: nat | Spaced(indexes, steps) ensures Spaced(selected, steps) {
      forall j, k | 0 <= j < k < maximum ensures selected[j] + steps <= selected[k] {
        EvenIndexIncreases(j, k, n, maximum);
      }
    }
  }
}
