/** PrepareInferenceHistory of internal/dataset/inference.go: bounded bridging of
    short gaps, and the quality check that follows it. */
module Inference {
  import opened Products
  import opened RealArithmetic
  import opened Wrappers
  import opened Observations

  datatype Point = Point(sample: Sample, estimated: bool)

  function Real(s: Sample): Point { Point(s, false) }

  // ----- when and how a gap is bridged

  /** math.Round of gap/interval, for a positive gap. */
  function Steps(gap: int, interval: Duration): (n: int)
    requires gap > 0 && interval > 0
    ensures n >= 0
    ensures 2 * n * interval <= 2 * gap + interval < 2 * n * interval + 2 * interval
  {
    DivBounds(2 * gap + interval, 2 * interval);
    StepsBounds(gap, interval, (2 * gap + interval) / (2 * interval));
    (2 * gap + interval) / (2 * interval)
  }

  lemma StepsBounds(gap: int, interval: Duration, n: int)
    requires gap > 0 && interval > 0
    requires n * (2 * interval) <= 2 * gap + interval < n * (2 * interval) + 2 * interval
    ensures n >= 0 && 2 * n * interval <= 2 * gap + interval < 2 * n * interval + 2 * interval
  {
    assert n * (2 * interval) == 2 * n * interval;
    NegativeProduct(n, 2 * interval);
  }

  lemma NegativeProduct(n: int, m: int)
    requires m > 0
    ensures n < 0 ==> n * m <= -m
  {
    if n < 0 { assert (-n - 1) * m >= 0; }
  }

  function AbsInt(x: int): int { if x < 0 then -x else x }

  /** The next observation is close enough to need no bridge. */
  predicate Adjacent(a: Sample, b: Sample, interval: Duration) {
    b.at - a.at < interval + interval / 2
  }

  /** The gap is short, aligned to the grid and stable in value. */
  predicate Bridgeable(a: Sample, b: Sample, interval: Duration, maxGap: Duration)
    requires interval > 0 && a.at < b.at
  {
    var gap, n := b.at - a.at, Steps(b.at - a.at, interval);
    && gap <= maxGap + interval / 4
    && 4 * AbsInt(gap - n * interval) <= interval
    && AbsReal(b.value - a.value) / MaxReal(1.0, MaxReal(a.value, b.value)) <= 0.25
    && n <= 6
  }

  /** A gap is bridged exactly when it is no longer than the limit and a quarter of
      an interval, within a quarter of an interval of at most six whole ones, and
      the value moves by no more than a quarter. */
  lemma BridgeableExactly(a: Sample, b: Sample, interval: Duration, maxGap: Duration)
    requires interval > 0 && a.at < b.at
    ensures Bridgeable(a, b, interval, maxGap) <==>
            && 4 * (b.at - a.at - maxGap) <= interval
            && 4.0 * AbsReal(b.value - a.value) <= MaxReal(1.0, MaxReal(a.value, b.value))
            && NearSteps(b.at - a.at, interval)
  {
    hide Steps;
    var gap := b.at - a.at;
    Quarter(AbsReal(b.value - a.value), MaxReal(1.0, MaxReal(a.value, b.value)));
    if n :| 0 <= n <= 6 && IsNear(gap, n, interval) { NearestSteps(gap, n, interval); }
    if Bridgeable(a, b, interval, maxGap) { assert IsNear(gap, Steps(gap, interval), interval); }
  }

  /** Within a quarter of an interval of n intervals. */
  predicate IsNear(gap: int, n: int, interval: Duration) { -interval <= 4 * (gap - n * interval) <= interval }

  ghost predicate NearSteps(gap: int, interval: Duration) {
    exists n :: 0 <= n <= 6 && IsNear(gap, n, interval)
  }

  lemma NearestSteps(gap: int, n: int, interval: Duration)
    requires gap > 0 && interval > 0 && IsNear(gap, n, interval)
    ensures Steps(gap, interval) == n
  {
    DivUnique(2 * gap + interval, 2 * interval, n);
  }

  lemma Quarter(x: real, y: real)
    requires y > 0.0
    ensures x / y <= 0.25 <==> 4.0 * x <= y
  {
    assert x / y * y == x;
    assert x / y <= 0.25 ==> (0.25 - x / y) * y >= 0.0;
    assert x / y > 0.25 ==> (x / y - 0.25) * y > 0.0;
  }

  predicate Joined(a: Sample, b: Sample, interval: Duration, maxGap: Duration)
    requires interval > 0 && a.at < b.at
  {
    Adjacent(a, b, interval) || Bridgeable(a, b, interval, maxGap)
  }

  function Weight(step: int, gap: int, interval: Duration): real
    requires gap > 0
  {
    (step * interval) as real / gap as real
  }

  function Interpolate(a: Sample, b: Sample, step: int, interval: Duration): real
    requires a.at < b.at
  {
    var w := Weight(step, b.at - a.at, interval);
    (1.0 - w) * a.value + w * b.value
  }

  function Estimate(a: Sample, b: Sample, step: int, interval: Duration): Point
    requires a.at < b.at && interval > 0 && step >= 0
  {
    assert step * interval >= 0;
    Point(Sample(a.at + step * interval, Interpolate(a, b, step, interval)), true)
  }

  /** The first n-1 grid points after a. */
  function Bridge(a: Sample, b: Sample, interval: Duration, n: int): (ps: seq<Point>)
    requires a.at < b.at && interval > 0
    ensures |ps| == if n > 1 then n - 1 else 0
  {
    if n <= 1 then [] else Bridge(a, b, interval, n - 1) + [Estimate(a, b, n - 1, interval)]
  }

  function Filling(a: Sample, b: Sample, interval: Duration): seq<Point>
    requires a.at < b.at && interval > 0
  {
    if Adjacent(a, b, interval) then [] else Bridge(a, b, interval, Steps(b.at - a.at, interval))
  }

  // ----- the chain of real points and bridges

  predicate AllJoined(s: seq<Sample>, first: int, last: int, interval: Duration, maxGap: Duration)
    requires interval > 0 && StrictlyOrdered(s) && 0 <= first <= last < |s|
  {
    forall j :: first < j <= last ==> Joined(s[j - 1], s[j], interval, maxGap)
  }

  function Chain(s: seq<Sample>, first: nat, last: nat, interval: Duration): (ps: seq<Point>)
    requires interval > 0 && StrictlyOrdered(s) && first <= last < |s|
    ensures ps != [] && ps[|ps| - 1] == Real(s[last])
    decreases last
  {
    if first == last then [Real(s[first])]
    else Chain(s, first, last - 1, interval) + Filling(s[last - 1], s[last], interval) + [Real(s[last])]
  }

  /** Where the newest run of joined observations up to `last` begins. */
  function ChainStart(s: seq<Sample>, last: nat, interval: Duration, maxGap: Duration): (first: nat)
    requires interval > 0 && StrictlyOrdered(s) && last < |s|
    ensures first <= last
  {
    if last == 0 || !Joined(s[last - 1], s[last], interval, maxGap) then last
    else ChainStart(s, last - 1, interval, maxGap)
  }

  lemma {:induction false} ChainStartIsMaximal(s: seq<Sample>, last: nat, interval: Duration, maxGap: Duration)
    requires interval > 0 && StrictlyOrdered(s) && last < |s|
    ensures var first := ChainStart(s, last, interval, maxGap);
            AllJoined(s, first, last, interval, maxGap)
              && (first > 0 ==> !Joined(s[first - 1], s[first], interval, maxGap))
  {
    hide Joined;
    if last > 0 && Joined(s[last - 1], s[last], interval, maxGap) {
      ChainStartIsMaximal(s, last - 1, interval, maxGap);
    }
  }

  // ----- what holds of the points

  /** Times increase, and neighbours are less than one and a half intervals apart. */
  ghost predicate Dense(ps: seq<Point>, interval: Duration) {
    forall i :: 0 < i < |ps| ==>
      ps[i - 1].sample.at < ps[i].sample.at
      && 2 * (ps[i].sample.at - ps[i - 1].sample.at) < 3 * interval
  }

  /** Among any six neighbouring points at least one is real. */
  ghost predicate ShortRuns(ps: seq<Point>) {
    forall i :: 0 <= i < |ps| - 5 ==> RealNear(ps, i)
  }

  ghost predicate RealNear(ps: seq<Point>, i: int) {
    exists k :: 0 <= i <= k <= i + 5 && k < |ps| && !ps[k].estimated
  }

  /** Every estimate lies on the bridge between two neighbouring observations. */
  ghost predicate Anchored(ps: seq<Point>, s: seq<Sample>, interval: Duration) {
    forall i :: 0 <= i < |ps| && ps[i].estimated ==> exists j ::
      0 < j < |s| && OnBridge(ps[i].sample, s[j - 1], s[j], interval)
  }

  /** Strictly between the anchors, a whole number of intervals after the first,
      and on the straight line from one to the other. */
  predicate OnBridge(p: Sample, a: Sample, b: Sample, interval: Duration) {
    && a.at < p.at < b.at && interval > 0 && (p.at - a.at) % interval == 0
    && OnLine(p, a, b)
  }

  predicate OnLine(p: Sample, a: Sample, b: Sample) {
    (p.value - a.value) * (b.at - a.at) as real == (b.value - a.value) * (p.at - a.at) as real
  }

  /** From one observation to the next the values move one way only. */
  ghost predicate NeverTurnsBack(ps: seq<Point>, s: seq<Sample>) {
    forall i, j, k :: 0 <= i < j < |ps| && 0 < k < |s| && Between(ps[i].sample, ps[j].sample, s[k - 1], s[k]) ==>
      Follow(ps[i].sample, ps[j].sample, s[k - 1], s[k])
  }

  predicate Between(p: Sample, q: Sample, a: Sample, b: Sample) { a.at <= p.at && q.at <= b.at }

  /** p and q, in this order, move the way that a and b do. */
  predicate Follow(p: Sample, q: Sample, a: Sample, b: Sample) {
    && (a.value <= b.value ==> p.value <= q.value)
    && (b.value <= a.value ==> q.value <= p.value)
  }

  /** The real points, in order. */
  function Reals(ps: seq<Point>): seq<Sample> {
    if ps == [] then []
    else Reals(ps[..|ps| - 1]) + if ps[|ps| - 1].estimated then [] else [ps[|ps| - 1].sample]
  }

  // ----- one bridge

  lemma StepTime(step: int, n: int, gap: int, interval: Duration)
    requires interval > 0 && 0 < step < n && 4 * AbsInt(gap - n * interval) <= interval
    ensures 0 < step * interval < gap
    ensures 4 * (gap - (n - 1) * interval) >= 3 * interval && 4 * (gap - (n - 1) * interval) <= 5 * interval
  {
    ProductNext(n - 1, interval);
    ProductGrows(1, step, interval);
    ProductGrows(step, n - 1, interval);
  }

  lemma LineThrough(x: real, y: real, w: real, gap: real, d: real)
    requires w * gap == d
    ensures ((1.0 - w) * x + w * y - x) * gap == (y - x) * d
  {
    assert (1.0 - w) * x + w * y - x == w * (y - x);
    assert w * (y - x) * gap == (y - x) * (w * gap);
  }

  lemma WeightTimesGap(step: int, gap: int, interval: Duration)
    requires gap > 0
    ensures Weight(step, gap, interval) * gap as real == (step * interval) as real
  {
  }

  lemma EstimateOnBridge(a: Sample, b: Sample, step: int, n: int, interval: Duration)
    requires interval > 0 && a.at < b.at && 0 < step < n && 4 * AbsInt((b.at - a.at) - n * interval) <= interval
    ensures OnBridge(Estimate(a, b, step, interval).sample, a, b, interval)
  {
    hide Weight;
    StepTime(step, n, b.at - a.at, interval);
    MultipleMod(step, interval);
    WeightTimesGap(step, b.at - a.at, interval);
    LineThrough(a.value, b.value, Weight(step, b.at - a.at, interval), (b.at - a.at) as real,
                (step * interval) as real);
  }

  /** On one line, later points follow the direction of the line. */
  lemma LinesFollow(p: Sample, q: Sample, a: Sample, b: Sample)
    requires a.at < b.at && p.at < q.at && OnLine(p, a, b) && OnLine(q, a, b)
    ensures Follow(p, q, a, b)
  {
    var rise, gap, along := b.value - a.value, (b.at - a.at) as real, (q.at - p.at) as real;
    assert (q.value - p.value) * gap == rise * along by {
      assert (q.value - a.value) * gap - (p.value - a.value) * gap == (q.value - p.value) * gap;
      assert rise * (q.at - a.at) as real - rise * (p.at - a.at) as real
          == rise * ((q.at - a.at) as real - (p.at - a.at) as real);
    }
    if rise >= 0.0 {
      assert rise * along >= 0.0;
      assert q.value < p.value ==> (p.value - q.value) * gap > 0.0;
    }
    if rise <= 0.0 {
      assert -rise * along >= 0.0;
      assert q.value > p.value ==> (q.value - p.value) * gap > 0.0;
    }
  }

  lemma EndsOnLine(a: Sample, b: Sample)
    ensures OnLine(a, a, b) && OnLine(b, a, b)
  {
  }

  /** So no value of a bridge leaves the range of its anchors. */
  lemma BridgeStaysBetween(p: Sample, a: Sample, b: Sample, interval: Duration)
    requires OnBridge(p, a, b, interval)
    ensures MinReal(a.value, b.value) <= p.value <= MaxReal(a.value, b.value)
  {
    EndsOnLine(a, b);
    LinesFollow(a, p, a, b);
    LinesFollow(p, b, a, b);
  }

  lemma {:induction false} BridgePoints(a: Sample, b: Sample, interval: Duration, n: int)
    requires interval > 0 && a.at < b.at
    ensures forall i :: 0 <= i < |Bridge(a, b, interval, n)| ==>
            Bridge(a, b, interval, n)[i] == Estimate(a, b, i + 1, interval)
    decreases n
  {
    hide Estimate;
    if n > 1 { BridgePoints(a, b, interval, n - 1); }
  }

  /** From one observation to the next: the bridge and the observation. */
  function Segment(a: Sample, b: Sample, interval: Duration): (seg: seq<Point>)
    requires a.at < b.at && interval > 0
    ensures seg != [] && seg[|seg| - 1] == Real(b)
  {
    Filling(a, b, interval) + [Real(b)]
  }

  ghost predicate GoodSegment(a: Sample, b: Sample, interval: Duration, seg: seq<Point>) {
    && 1 <= |seg| <= 6 && seg[|seg| - 1] == Real(b)
    && (forall i :: 0 <= i < |seg| - 1 ==> seg[i].estimated && OnBridge(seg[i].sample, a, b, interval))
    && Dense([Real(a)] + seg, interval)
  }

  lemma AdjacentIsGood(a: Sample, b: Sample, interval: Duration)
    requires interval > 0 && a.at < b.at && Adjacent(a, b, interval)
    ensures GoodSegment(a, b, interval, [Real(b)])
  {
    assert 2 * (interval / 2) <= interval;
  }

  lemma NonAdjacentSteps(gap: int, n: int, interval: Duration)
    requires interval > 0 && gap >= interval + interval / 2 && n >= 0 && 4 * AbsInt(gap - n * interval) <= interval
    ensures n >= 1
  {
  }

  lemma BridgeIsGood(a: Sample, b: Sample, interval: Duration, n: int)
    requires interval > 0 && a.at < b.at && 1 <= n <= 6 && 4 * AbsInt((b.at - a.at) - n * interval) <= interval
    ensures GoodSegment(a, b, interval, Bridge(a, b, interval, n) + [Real(b)])
  {
    hide OnBridge, Dense, Interpolate;
    var bridge := Bridge(a, b, interval, n);
    BridgePoints(a, b, interval, n);
    forall i | 0 <= i < |bridge| ensures bridge[i].estimated && OnBridge(bridge[i].sample, a, b, interval) {
      EstimateOnBridge(a, b, i + 1, n, interval);
    }
    BridgeDense(a, b, interval, n);
    assert [Real(a)] + bridge + [Real(b)] == [Real(a)] + (bridge + [Real(b)]);
  }

  lemma SegmentIsGood(a: Sample, b: Sample, interval: Duration, maxGap: Duration)
    requires interval > 0 && a.at < b.at && Joined(a, b, interval, maxGap)
    ensures GoodSegment(a, b, interval, Segment(a, b, interval))
  {
    hide Steps, GoodSegment, Bridge;
    if Adjacent(a, b, interval) {
      AdjacentIsGood(a, b, interval);
      assert Segment(a, b, interval) == [Real(b)];
    } else {
      NonAdjacentSteps(b.at - a.at, Steps(b.at - a.at, interval), interval);
      BridgeIsGood(a, b, interval, Steps(b.at - a.at, interval));
    }
  }

  lemma BridgeDense(a: Sample, b: Sample, interval: Duration, n: int)
    requires interval > 0 && a.at < b.at && 4 * AbsInt((b.at - a.at) - n * interval) <= interval && n >= 1
    ensures Dense([Real(a)] + Bridge(a, b, interval, n) + [Real(b)], interval)
  {
    hide Interpolate;
    var gap, bridge := b.at - a.at, Bridge(a, b, interval, n);
    var ps := [Real(a)] + bridge + [Real(b)];
    BridgePoints(a, b, interval, n);
    assert |ps| == n + 1;
    forall i | 0 < i < |ps|
      ensures ps[i - 1].sample.at < ps[i].sample.at && 2 * (ps[i].sample.at - ps[i - 1].sample.at) < 3 * interval
    {
      assert (i - 1) * interval + interval == i * interval;
      assert ps[i - 1].sample.at == a.at + (i - 1) * interval;
      if i < n {
        assert ps[i].sample.at == a.at + i * interval;
      } else {
        LastStep(n, gap, interval);
      }
    }
  }

  lemma LastStep(n: int, gap: int, interval: Duration)
    requires interval > 0 && n >= 1 && 4 * AbsInt(gap - n * interval) <= interval
    ensures 0 < gap - (n - 1) * interval && 2 * (gap - (n - 1) * interval) < 3 * interval
  {
    assert (n - 1) * interval == n * interval - interval;
  }

  ghost predicate GoodChain(ps: seq<Point>, s: seq<Sample>, interval: Duration) {
    Dense(ps, interval) && ShortRuns(ps) && Anchored(ps, s, interval)
  }

  lemma DenseAppend(ps: seq<Point>, a: Sample, seg: seq<Point>, interval: Duration)
    requires ps != [] && ps[|ps| - 1] == Real(a) && Dense(ps, interval) && Dense([Real(a)] + seg, interval)
    ensures Dense(ps + seg, interval)
  {
    var all, tail := ps + seg, [Real(a)] + seg;
    forall i | 0 < i < |all|
      ensures all[i - 1].sample.at < all[i].sample.at && 2 * (all[i].sample.at - all[i - 1].sample.at) < 3 * interval
    {
      if i >= |ps| { assert all[i] == tail[i - |ps| + 1] && all[i - 1] == tail[i - |ps|]; }
    }
  }

  lemma ShortRunsAppend(ps: seq<Point>, seg: seq<Point>)
    requires ps != [] && !ps[|ps| - 1].estimated && ShortRuns(ps)
    requires 1 <= |seg| <= 6 && !seg[|seg| - 1].estimated
    ensures ShortRuns(ps + seg)
  {
    var all := ps + seg;
    forall i | 0 <= i < |all| - 5 ensures RealNear(all, i) {
      if i + 5 < |ps| {
        assert RealNear(ps, i);
        var k :| 0 <= i <= k <= i + 5 && k < |ps| && !ps[k].estimated;
        assert !all[k].estimated;
      } else if i < |ps| {
        assert !all[|ps| - 1].estimated;
      } else {
        assert !all[|all| - 1].estimated;
      }
    }
  }

  lemma AnchoredAppend(ps: seq<Point>, s: seq<Sample>, j: int, interval: Duration, seg: seq<Point>)
    requires Anchored(ps, s, interval) && 0 < j < |s| && GoodSegment(s[j - 1], s[j], interval, seg)
    ensures Anchored(ps + seg, s, interval)
  {
    hide Dense;
    var all := ps + seg;
    forall i | 0 <= i < |all| && all[i].estimated
      ensures exists j :: 0 < j < |s| && OnBridge(all[i].sample, s[j - 1], s[j], interval)
    {
      if i < |ps| { assert all[i] == ps[i]; } else { assert all[i] == seg[i - |ps|]; }
    }
  }

  lemma {:induction false} RealsAppend(ps: seq<Point>, seg: seq<Point>)
    ensures Reals(ps + seg) == Reals(ps) + Reals(seg)
  {
    if seg == [] {
      assert ps + seg == ps;
    } else {
      var n := |seg| - 1;
      RealsAppend(ps, seg[..n]);
      assert (ps + seg)[..|ps| + n] == ps + seg[..n];
    }
  }

  lemma {:induction false} RealsOfEstimates(seg: seq<Point>)
    requires forall i :: 0 <= i < |seg| ==> seg[i].estimated
    ensures Reals(seg) == []
  {
    if seg != [] { RealsOfEstimates(seg[..|seg| - 1]); }
  }

  lemma SegmentReals(a: Sample, b: Sample, interval: Duration, seg: seq<Point>)
    requires GoodSegment(a, b, interval, seg)
    ensures Reals(seg) == [b]
  {
    hide Dense, OnBridge;
    RealsOfEstimates(seg[..|seg| - 1]);
  }

  /** Everything the bridged history promises, for a run of joined observations. */
  lemma {:induction false} ChainIsGood(s: seq<Sample>, first: nat, last: nat, interval: Duration, maxGap: Duration)
    requires interval > 0 && StrictlyOrdered(s) && first <= last < |s| && AllJoined(s, first, last, interval, maxGap)
    ensures GoodChain(Chain(s, first, last, interval), s, interval)
    ensures Reals(Chain(s, first, last, interval)) == s[first..last + 1]
    decreases last
  {
    hide Joined, Segment, GoodSegment, GoodChain, Chain, Reals;
    if first == last {
      ChainOfOne(s, first, interval);
    } else {
      var ps, seg := Chain(s, first, last - 1, interval), Segment(s[last - 1], s[last], interval);
      ChainIsGood(s, first, last - 1, interval, maxGap);
      assert Joined(s[last - 1], s[last], interval, maxGap);
      SegmentIsGood(s[last - 1], s[last], interval, maxGap);
      ChainStep(ps, s, last, interval, seg);
      ChainUnfolds(s, first, last, interval);
      RealsAppend(ps, seg);
      SegmentReals(s[last - 1], s[last], interval, seg);
      assert s[first..last + 1] == s[first..last] + [s[last]];
    }
  }

  lemma ChainOfOne(s: seq<Sample>, k: nat, interval: Duration)
    requires interval > 0 && StrictlyOrdered(s) && k < |s|
    ensures GoodChain(Chain(s, k, k, interval), s, interval) && Reals(Chain(s, k, k, interval)) == s[k..k + 1]
  {
    SingleChain(s, k, interval);
  }

  lemma ChainUnfolds(s: seq<Sample>, first: nat, last: nat, interval: Duration)
    requires interval > 0 && StrictlyOrdered(s) && first < last < |s|
    ensures Chain(s, first, last, interval) == Chain(s, first, last - 1, interval)
            + Segment(s[last - 1], s[last], interval)
  {
    hide Filling;
    var a, b, c := Chain(s, first, last - 1, interval), Filling(s[last - 1], s[last], interval), [Real(s[last])];
    assert a + b + c == a + (b + c);
  }

  lemma SingleChain(s: seq<Sample>, k: nat, interval: Duration)
    requires k < |s|
    ensures GoodChain([Real(s[k])], s, interval) && Reals([Real(s[k])]) == [s[k]]
  {
    assert [Real(s[k])][..0] == [];
  }

  lemma ChainStep(ps: seq<Point>, s: seq<Sample>, j: int, interval: Duration, seg: seq<Point>)
    requires 0 < j < |s| && ps != [] && ps[|ps| - 1] == Real(s[j - 1])
    requires GoodChain(ps, s, interval) && GoodSegment(s[j - 1], s[j], interval, seg)
    ensures GoodChain(ps + seg, s, interval)
  {
    hide Dense, ShortRuns, Anchored, OnBridge;
    DenseAppend(ps, s[j - 1], seg, interval);
    ShortRunsAppend(ps, seg);
    AnchoredAppend(ps, s, j, interval, seg);
  }

  lemma DenseSuffix(ps: seq<Point>, interval: Duration, start: nat)
    requires Dense(ps, interval) && start <= |ps|
    ensures Dense(ps[start..], interval)
  {
  }

  lemma ShortRunsSuffix(ps: seq<Point>, start: nat)
    requires ShortRuns(ps) && start <= |ps|
    ensures ShortRuns(ps[start..])
  {
    var tail := ps[start..];
    forall i | 0 <= i < |tail| - 5 ensures RealNear(tail, i) {
      assert RealNear(ps, start + i);
      var k :| 0 <= start + i <= k <= start + i + 5 && k < |ps| && !ps[k].estimated;
      assert tail[k - start] == ps[k];
    }
  }

  lemma AnchoredSuffix(ps: seq<Point>, s: seq<Sample>, interval: Duration, start: nat)
    requires Anchored(ps, s, interval) && start <= |ps|
    ensures Anchored(ps[start..], s, interval)
  {
    hide OnBridge;
  }

  lemma RealsSuffix(ps: seq<Point>, start: nat)
    requires start <= |ps|
    ensures exists k :: 0 <= k <= |Reals(ps)| && Reals(ps[start..]) == Reals(ps)[k..]
  {
    hide Reals;
    assert ps == ps[..start] + ps[start..];
    RealsAppend(ps[..start], ps[start..]);
    assert Reals(ps)[|Reals(ps[..start])|..] == Reals(ps[start..]);
  }

  /** Dropping the oldest points keeps every promise. */
  lemma SuffixIsGood(ps: seq<Point>, s: seq<Sample>, interval: Duration, start: nat)
    requires GoodChain(ps, s, interval) && start <= |ps|
    ensures GoodChain(ps[start..], s, interval)
    ensures exists k :: 0 <= k <= |Reals(ps)| && Reals(ps[start..]) == Reals(ps)[k..]
  {
    hide Dense, ShortRuns, Anchored, Reals;
    DenseSuffix(ps, interval, start);
    ShortRunsSuffix(ps, start);
    AnchoredSuffix(ps, s, interval, start);
    RealsSuffix(ps, start);
  }

  // ----- PrepareInferenceHistory

  datatype Policy = Policy(interval: Duration, maxGap: Duration, lookback: int)

  datatype Failure =
    | NonPositiveInterval | LookbackTooLarge | NotOrdered | InvalidValue
    | TooManyEstimates | TooManyRecentEstimates | NeedsRealTail

  datatype History = History(points: seq<Point>, estimatedCount: nat, usedSuffix: bool)

  const MAX_INT64: int := 0x7FFF_FFFF_FFFF_FFFF

  function MaxGapOf(p: Policy): Duration { if p.maxGap <= 0 then 5 * MINUTE else p.maxGap }

  /** With a fixed lookback, only the lookback and six more intervals before the
      newest observation are used: enough real anchors for a bridge. */
  ghost predicate IsRecent(observed: seq<Sample>, p: Policy, start: int) {
    if p.lookback <= 0 || observed == [] then start == 0
    else
      var cutoff := observed[|observed| - 1].at - (p.lookback + 6) * p.interval;
      && 0 <= start < |observed|
      && (forall i :: 0 <= i < start ==> observed[i].at < cutoff)
      && (start == |observed| - 1 || observed[start].at >= cutoff)
  }

  method Recent(observed: seq<Sample>, p: Policy) returns (start: nat)
    requires p.interval > 0
    ensures start <= |observed| && (observed != [] ==> start < |observed|)
    ensures IsRecent(observed, p, start)
  {
    start := 0;
    if p.lookback > 0 && observed != [] {
      var cutoff := observed[|observed| - 1].at - (p.lookback + 6) * p.interval;
      while start < |observed| - 1 && observed[start].at < cutoff
        invariant 0 <= start < |observed| && forall i :: 0 <= i < start ==> observed[i].at < cutoff
      {
        start := start + 1;
      }
    }
  }

  /** The number of steps of a gap, and whether it can be bridged. */
  method Examine(a: Sample, b: Sample, interval: Duration, maxGap: Duration) returns (n: int, reliable: bool)
    requires interval > 0 && a.at < b.at
    ensures n == Steps(b.at - a.at, interval) && reliable == Bridgeable(a, b, interval, maxGap)
  {
    hide Steps;
    var gap := b.at - a.at;
    n := Steps(gap, interval);
    var aligned := 4 * AbsInt(gap - n * interval) <= interval;
    var scale := MaxReal(1.0, MaxReal(a.value, b.value));
    var stable := AbsReal(b.value - a.value) / scale <= 0.25;
    reliable := !(gap > maxGap + interval / 4 || !aligned || !stable || n > 6);
  }

  /** The estimates between two observations. */
  method Lay(a: Sample, b: Sample, interval: Duration, n: int) returns (bridge: seq<Point>)
    requires interval > 0 && a.at < b.at
    ensures bridge == Bridge(a, b, interval, n)
  {
    hide Estimate;
    bridge := [];
    var step := 1;
    while step < n
      invariant 1 <= step && (step <= n || step == 1) && bridge == Bridge(a, b, interval, step)
    {
      LaterInstant(a, step, interval);
      var at := a.at + step * interval;
      var weight := (at - a.at) as real / (b.at - a.at) as real;
      var value := (1.0 - weight) * a.value + weight * b.value;
      EstimateIs(a, b, step, interval, at, weight, value);
      bridge := bridge + [Point(Sample(at, value), true)];
      step := step + 1;
    }
  }

  lemma LaterInstant(a: Sample, step: int, interval: Duration)
    requires step >= 0 && interval > 0
    ensures a.at + step * interval >= a.at
  {
    assert step * interval >= 0;
  }

  lemma EstimateIs(a: Sample, b: Sample, step: int, interval: Duration, at: Instant, weight: real, value: real)
    requires a.at < b.at && interval > 0 && step >= 0 && at == a.at + step * interval
    requires weight == (at - a.at) as real / (b.at - a.at) as real
    requires value == (1.0 - weight) * a.value + weight * b.value
    ensures Estimate(a, b, step, interval) == Point(Sample(at, value), true)
  {
    assert at - a.at == step * interval;
    assert Weight(step, b.at - a.at, interval) == weight;
  }

  /** The bridged points of the newest joined run; a gap that cannot be bridged
      drops everything before it. */
  method Connect(s: seq<Sample>, p: Policy) returns (points: seq<Point>, usedSuffix: bool, valid: bool)
    requires p.interval > 0 && StrictlyOrdered(s)
    ensures valid <==> forall i :: 0 <= i < |s| ==> s[i].value >= 0.0
    ensures valid && s == [] ==> points == []
    ensures valid && s != [] ==>
            points == Chain(s, ChainStart(s, |s| - 1, p.interval, MaxGapOf(p)), |s| - 1, p.interval)
    ensures valid ==> (usedSuffix <==> s != [] && ChainStart(s, |s| - 1, p.interval, MaxGapOf(p)) > 0)
  {
    hide Chain, Steps, Bridge, Estimate, Bridgeable;
    points, usedSuffix, valid := [], false, true;
    var maxGap := p.maxGap;
    if maxGap <= 0 { maxGap := 5 * MINUTE; }
    for index := 0 to |s|
      invariant forall i :: 0 <= i < index ==> s[i].value >= 0.0
      invariant index == 0 ==> points == []
      invariant index > 0 ==>
                points == Chain(s, ChainStart(s, index - 1, p.interval, MaxGapOf(p)), index - 1, p.interval)
      invariant usedSuffix <==> index > 0 && ChainStart(s, index - 1, p.interval, MaxGapOf(p)) > 0
    {
      if s[index].value < 0.0 { valid := false; return; }
      if index == 0 {
        ChainBegins(s, 0, p.interval);
      } else {
        var a, b := s[index - 1], s[index];
        if b.at - a.at >= p.interval + p.interval / 2 {
          var n, reliable := Examine(a, b, p.interval, maxGap);
          if !reliable {
            points := [];
            usedSuffix := true;
            ChainBegins(s, index, p.interval);
          } else {
            ChainContinues(s, index, p.interval, MaxGapOf(p));
            var bridge := Lay(a, b, p.interval, n);
            points := points + bridge;
          }
        } else {
          ChainContinues(s, index, p.interval, MaxGapOf(p));
        }
      }
      points := points + [Real(s[index])];
    }
  }

  lemma ChainBegins(s: seq<Sample>, k: nat, interval: Duration)
    requires interval > 0 && StrictlyOrdered(s) && k < |s|
    ensures Chain(s, k, k, interval) == [Real(s[k])]
  {
  }

  lemma ChainContinues(s: seq<Sample>, k: nat, interval: Duration, maxGap: Duration)
    requires interval > 0 && StrictlyOrdered(s) && 0 < k < |s| && Joined(s[k - 1], s[k], interval, maxGap)
    ensures var first := ChainStart(s, k - 1, interval, maxGap);
            && ChainStart(s, k, interval, maxGap) == first
            && Chain(s, first, k, interval) == Chain(s, first, k - 1, interval) + Filling(s[k - 1], s[k], interval)
              + [Real(s[k])]
  {
    hide Filling, Joined;
  }

  function CountEstimated(ps: seq<Point>): (n: nat)
    ensures n <= |ps|
  {
    if ps == [] then 0 else CountEstimated(ps[..|ps| - 1]) + if ps[|ps| - 1].estimated then 1 else 0
  }

  method Count(ps: seq<Point>) returns (n: nat)
    ensures n == CountEstimated(ps)
  {
    n := 0;
    for i := 0 to |ps|
      invariant n == CountEstimated(ps[..i])
    {
      assert ps[..i + 1][..i] == ps[..i];
      if ps[i].estimated { n := n + 1; }
    }
    assert ps[..|ps|] == ps;
  }

  /** How many of the newest points are real. */
  method RealTail(ps: seq<Point>) returns (n: nat)
    ensures n <= |ps| && forall i :: |ps| - n <= i < |ps| ==> !ps[i].estimated
    ensures n < |ps| ==> ps[|ps| - 1 - n].estimated
  {
    n := 0;
    while n < |ps| && !ps[|ps| - 1 - n].estimated
      invariant n <= |ps| && forall i :: |ps| - n <= i < |ps| ==> !ps[i].estimated
    {
      n := n + 1;
    }
  }

  predicate TooMany(estimated: nat, total: nat) {
    total > 0 && estimated as real / total as real > 0.05
  }

  function Newest(ps: seq<Point>, n: nat): seq<Point> {
    if |ps| <= n then ps else ps[|ps| - n..]
  }

  /** The first limit on estimates that the final points break, if any. */
  function LimitFailure(points: seq<Point>): Option<Failure> {
    var count, newest := CountEstimated(points), Newest(points, 60);
    if count == 0 then None
    else if TooMany(count, |points|) then Some(TooManyEstimates)
    else if TooMany(CountEstimated(newest), |newest|) then Some(TooManyRecentEstimates)
    else if |points| < 2 || points[|points| - 1].estimated || points[|points| - 2].estimated then Some(NeedsRealTail)
    else None
  }

  /** The points are the newest joined run without its k oldest points; k is
      what a fixed lookback drops. */
  ghost predicate IsChainSuffix(s: seq<Sample>, p: Policy, points: seq<Point>, k: int)
    requires p.interval > 0 && StrictlyOrdered(s) && s != []
  {
    var chain := Chain(s, ChainStart(s, |s| - 1, p.interval, MaxGapOf(p)), |s| - 1, p.interval);
    && 0 <= k < |chain| && points == chain[k..]
    && k == if p.lookback > 0 && |chain| > p.lookback then |chain| - p.lookback else 0
  }

  /** The points that the observations give, before any limit is checked. */
  ghost predicate IsBridged(observed: seq<Sample>, p: Policy, points: seq<Point>)
    requires p.interval > 0
  {
    var s := Dedup(observed, p.interval);
    && (observed == [] ==> points == [])
    && (observed != [] ==> (StrictlyOrdered(s) && s != [] && exists k :: IsChainSuffix(s, p, points, k)))
  }

  /** Some gap before the newest run could not be bridged. */
  ghost predicate Suffixed(observed: seq<Sample>, p: Policy)
    requires p.interval > 0
  {
    var s := Dedup(observed, p.interval);
    s != [] && StrictlyOrdered(s) && ChainStart(s, |s| - 1, p.interval, MaxGapOf(p)) > 0
  }

  /** h is the bridged history of the observations, within the estimate limits. */
  ghost predicate IsHistory(observed: seq<Sample>, p: Policy, h: History)
    requires p.interval > 0
  {
    && StrictlyOrdered(observed)
    && IsBridged(observed, p, h.points)
    && (h.usedSuffix <==> Suffixed(observed, p))
    && h.estimatedCount == CountEstimated(h.points)
    && LimitFailure(h.points).None?
  }

  predicate AnyNegative(s: seq<Sample>) {
    exists i :: 0 <= i < |s| && s[i].value < 0.0
  }

  /** Exactly what the recent observations lead to: which error, or which
      history. */
  ghost predicate IsOutcome(observed: seq<Sample>, p: Policy, r: Result<History, Failure>)
    requires p.interval > 0
  {
    if !StrictlyOrdered(observed) then r == Err(NotOrdered)
    else if AnyNegative(Dedup(observed, p.interval)) then r == Err(InvalidValue)
    else if r.Ok? then IsHistory(observed, p, r.value)
    else exists points :: IsBridged(observed, p, points) && LimitFailure(points) == Some(r.error)
  }

  /** The limits on estimates, checked on the final points. */
  method CheckLimits(points: seq<Point>, usedSuffix: bool) returns (r: Result<History, Failure>)
    ensures r == match LimitFailure(points)
                 case Some(e) => Err(e)
                 case None => Ok(History(points, CountEstimated(points), usedSuffix))
  {
    hide CountEstimated;
    var count := Count(points);
    if count > 0 {
      if count as real / |points| as real > 0.05 { return Err(TooManyEstimates); }
      var start := Max(0, |points| - 60);
      var recent := Count(points[start..]);
      if recent as real / (|points| - start) as real > 0.05 { return Err(TooManyRecentEstimates); }
      var tail := RealTail(points);
      if tail < 2 { return Err(NeedsRealTail); }
    }
    r := Ok(History(points, count, usedSuffix));
  }

  predicate LookbackOverflows(observed: seq<Sample>, p: Policy)
    requires p.interval > 0
  {
    p.lookback > 0 && observed != [] && p.lookback + 6 > MAX_INT64 / p.interval
  }

  method PrepareInferenceHistory(observed: seq<Sample>, p: Policy) returns (r: Result<History, Failure>)
    ensures r == Err(NonPositiveInterval) <==> p.interval <= 0
    ensures p.interval > 0 ==> (r == Err(LookbackTooLarge) <==> LookbackOverflows(observed, p))
    ensures p.interval > 0 && !LookbackOverflows(observed, p) ==>
              exists start :: 0 <= start <= |observed| && (observed != [] ==> start < |observed|)
                && IsRecent(observed, p, start) && IsOutcome(observed[start..], p, r)
                && (r.Ok? && observed != [] ==> IsSound(Dedup(observed[start..], p.interval), p, r.value.points))
  {
    hide Chain, Slot, ChainStart, StrictlyOrdered, LimitFailure, Dedup, IsRecent, IsChainSuffix, IsSound;
    if p.interval <= 0 { return Err(NonPositiveInterval); }
    if p.lookback > 0 && observed != [] && p.lookback + 6 > MAX_INT64 / p.interval { return Err(LookbackTooLarge); }
    var start := Recent(observed, p);
    var kept := observed[start..];
    var selected := KeepLatest(kept, p.interval, false);
    if selected.None? { return Err(NotOrdered); }
    var s := selected.value;
    DedupSlotsIncrease(kept, p.interval);
    NothingDeduplicated(kept, p.interval);
    var points, usedSuffix, valid := Connect(s, p);
    assert valid <==> !AnyNegative(s);
    if !valid {
      assert IsOutcome(kept, p, Err(InvalidValue));
      return Err(InvalidValue);
    }
    ghost var chain := points;
    if p.lookback > 0 && |points| > p.lookback { points := points[|points| - p.lookback..]; }
    if kept != [] { ChainSuffix(s, p, chain, points); }
    assert IsBridged(kept, p, points);
    r := CheckLimits(points, usedSuffix);
    LimitErrors(points);
    assert IsOutcome(kept, p, r);
    if r.Ok? && observed != [] { HistoryIsSound(kept, p, r.value); }
  }

  lemma LimitErrors(points: seq<Point>)
    ensures LimitFailure(points).Some? ==>
            LimitFailure(points).value in {TooManyEstimates, TooManyRecentEstimates, NeedsRealTail}
  {
  }

  lemma ChainSuffix(s: seq<Sample>, p: Policy, chain: seq<Point>, points: seq<Point>)
    requires p.interval > 0 && StrictlyOrdered(s) && s != []
    requires chain == Chain(s, ChainStart(s, |s| - 1, p.interval, MaxGapOf(p)), |s| - 1, p.interval)
    requires points == if p.lookback > 0 && |chain| > p.lookback then chain[|chain| - p.lookback..] else chain
    ensures IsChainSuffix(s, p, points, |chain| - |points|)
  {
    hide Chain, ChainStart, StrictlyOrdered;
  }

  lemma NothingDeduplicated(observed: seq<Sample>, interval: Duration)
    requires interval > 0
    ensures observed == [] <==> Dedup(observed, interval) == []
  {
  }

  // ----- what a prepared history promises

  lemma SuffixOfChain(s: seq<Sample>, p: Policy, points: seq<Point>, k: int)
    requires p.interval > 0 && StrictlyOrdered(s) && s != [] && IsChainSuffix(s, p, points, k)
    ensures GoodChain(points, s, p.interval)
    ensures points != [] && points[|points| - 1] == Real(s[|s| - 1])
    ensures exists j :: 0 <= j <= |s| && Reals(points) == s[j..]
    ensures p.lookback > 0 ==> |points| <= p.lookback
  {
    hide Chain, ChainStart, GoodChain, Reals, AllJoined, StrictlyOrdered, Joined;
    var first := ChainStart(s, |s| - 1, p.interval, MaxGapOf(p));
    var chain := Chain(s, first, |s| - 1, p.interval);
    ChainStartIsMaximal(s, |s| - 1, p.interval, MaxGapOf(p));
    ChainIsGood(s, first, |s| - 1, p.interval, MaxGapOf(p));
    SuffixIsGood(chain, s, p.interval, k);
    SuffixReals(s, first, chain, points);
  }

  lemma SuffixReals(s: seq<Sample>, first: nat, chain: seq<Point>, points: seq<Point>)
    requires first <= |s| && Reals(chain) == s[first..|s|]
    requires exists j :: 0 <= j <= |Reals(chain)| && Reals(points) == Reals(chain)[j..]
    ensures exists j :: 0 <= j <= |s| && Reals(points) == s[j..]
  {
    hide Reals;
    var j :| 0 <= j <= |Reals(chain)| && Reals(points) == Reals(chain)[j..];
    SliceTwice(s, first, j);
  }

  lemma SliceTwice(s: seq<Sample>, i: nat, j: nat)
    requires i <= |s| && j <= |s| - i
    ensures s[i..|s|][j..] == s[i + j..]
  {
  }

  lemma {:induction false} RealIsKept(ps: seq<Point>, i: nat)
    requires i < |ps| && !ps[i].estimated
    ensures ps[i].sample in Reals(ps)
  {
    if i < |ps| - 1 { RealIsKept(ps[..|ps| - 1], i); }
  }

  lemma {:induction false} OneGap(s: seq<Sample>, j: nat, k: nat, t: int)
    requires StrictlyOrdered(s) && 0 < j < |s| && 0 < k < |s|
    requires s[j - 1].at < t < s[j].at && s[k - 1].at <= t <= s[k].at
    ensures j == k
  {
  }

  lemma OneEnd(s: seq<Sample>, j: nat, k: nat)
    requires StrictlyOrdered(s) && j < |s| && 0 < k < |s| && s[k - 1].at <= s[j].at <= s[k].at
    ensures j == k - 1 || j == k
  {
  }

  /** A point between two neighbouring observations lies on the line through them. */
  lemma {:induction false} PointOnLine(ps: seq<Point>, s: seq<Sample>, interval: Duration, i: nat, k: nat)
    requires StrictlyOrdered(s) && Anchored(ps, s, interval) && i < |ps| && 0 < k < |s|
    requires forall p :: p in Reals(ps) ==> p in s
    requires s[k - 1].at <= ps[i].sample.at <= s[k].at
    ensures OnLine(ps[i].sample, s[k - 1], s[k])
  {
    hide Reals, OnLine, StrictlyOrdered;
    if ps[i].estimated {
      var j :| 0 < j < |s| && OnBridge(ps[i].sample, s[j - 1], s[j], interval);
      OneGap(s, j, k, ps[i].sample.at);
    } else {
      RealIsKept(ps, i);
      var j :| 0 <= j < |s| && s[j] == ps[i].sample;
      OneEnd(s, j, k);
      EndsOnLine(s[k - 1], s[k]);
    }
  }

  lemma BridgesNeverTurnBack(ps: seq<Point>, s: seq<Sample>, interval: Duration)
    requires StrictlyOrdered(s) && Anchored(ps, s, interval) && Dense(ps, interval)
    requires forall p :: p in Reals(ps) ==> p in s
    ensures NeverTurnsBack(ps, s)
  {
    hide OnLine, Follow, Anchored, Reals;
    forall i, j, k | 0 <= i < j < |ps| && 0 < k < |s| && Between(ps[i].sample, ps[j].sample, s[k - 1], s[k])
      ensures Follow(ps[i].sample, ps[j].sample, s[k - 1], s[k])
    {
      DenseIncreases(ps, interval, i, j);
      PointOnLine(ps, s, interval, i, k);
      PointOnLine(ps, s, interval, j, k);
      LinesFollow(ps[i].sample, ps[j].sample, s[k - 1], s[k]);
    }
  }

  lemma {:induction false} DenseIncreases(ps: seq<Point>, interval: Duration, i: nat, j: nat)
    requires Dense(ps, interval) && i < j < |ps|
    ensures ps[i].sample.at < ps[j].sample.at
  {
    if i + 1 < j { DenseIncreases(ps, interval, i, j - 1); }
  }

  /** Strictly increasing times less than one and a half intervals apart; real
      points that are the newest observations; estimates in runs of at most five,
      on the straight line between the two observations around them, so that
      values never turn back on the way; the last point real and the last
      observation. */
  ghost predicate IsSound(s: seq<Sample>, p: Policy, points: seq<Point>) {
    && Dense(points, p.interval) && ShortRuns(points) && Anchored(points, s, p.interval) && NeverTurnsBack(points, s)
    && s != [] && points != [] && points[|points| - 1] == Real(s[|s| - 1])
    && (exists k :: 0 <= k <= |s| && Reals(points) == s[k..])
    && (p.lookback > 0 ==> |points| <= p.lookback)
  }

  lemma HistoryIsSound(observed: seq<Sample>, p: Policy, h: History)
    requires p.interval > 0 && IsHistory(observed, p, h) && observed != []
    ensures IsSound(Dedup(observed, p.interval), p, h.points)
    ensures h.points[|h.points| - 1] == Real(observed[|observed| - 1])
  {
    hide Dense, ShortRuns, Anchored, Reals, IsChainSuffix, LimitFailure, StrictlyOrdered, Suffixed, NeverTurnsBack;
    var s := Dedup(observed, p.interval);
    var k :| IsChainSuffix(s, p, h.points, k);
    SuffixOfChain(s, p, h.points, k);
    var j :| 0 <= j <= |s| && Reals(h.points) == s[j..];
    assert forall r :: r in Reals(h.points) ==> r in s;
    BridgesNeverTurnBack(h.points, s, p.interval);
  }

  /** Also with a fixed lookback, the real points are the newest ones of all
      deduplicated observations. */
  lemma RealPointsAreTheNewest(observed: seq<Sample>, p: Policy, start: nat, h: History)
    requires p.interval > 0 && start < |observed| && IsHistory(observed[start..], p, h)
    ensures exists k :: 0 <= k <= |Dedup(observed, p.interval)| && Reals(h.points) == Dedup(observed, p.interval)[k..]
  {
    hide Dense, ShortRuns, Anchored, Reals, IsHistory, Dedup, NeverTurnsBack;
    HistoryIsSound(observed[start..], p, h);
    var d, e := Dedup(observed, p.interval), Dedup(observed[start..], p.interval);
    var i := DedupOfSuffix(observed, p.interval, start);
    var j :| 0 <= j <= |e| && Reals(h.points) == e[j..];
    assert d[i..][j..] == d[i + j..];
  }

  lemma FivePercent(estimated: nat, total: nat)
    requires total > 0
    ensures TooMany(estimated, total) <==> 20 * estimated > total
  {
    var x, y := estimated as real, total as real;
    assert x / y * y == x;
    assert x / y <= 0.05 ==> (0.05 - x / y) * y >= 0.0;
    assert x / y > 0.05 ==> (x / y - 0.05) * y > 0.0;
  }

  /** The limits let exactly those histories pass that have no estimates, or at
      most one in twenty, overall and among the newest sixty points, and two real
      points at the end. */
  lemma LimitsExactly(points: seq<Point>)
    requires points != []
    ensures var recent := points[Max(0, |points| - 60)..];
            LimitFailure(points).None? <==>
            || Reals(points) == seq(|points|, i requires 0 <= i < |points| => points[i].sample)
            || (&& 20 * (|points| - |Reals(points)|) <= |points|
                && 20 * (|recent| - |Reals(recent)|) <= |recent|
                && |points| >= 2 && !points[|points| - 1].estimated && !points[|points| - 2].estimated)
  {
    hide TooMany, Reals, CountEstimated;
    var recent := points[Max(0, |points| - 60)..];
    assert recent == Newest(points, 60);
    EstimatedOrReal(points);
    EstimatedOrReal(recent);
    FivePercent(CountEstimated(points), |points|);
    FivePercent(CountEstimated(recent), |recent|);
  }

  lemma {:induction false} EstimatedOrReal(ps: seq<Point>)
    ensures CountEstimated(ps) + |Reals(ps)| == |ps|
    ensures CountEstimated(ps) == 0 <==> Reals(ps) == seq(|ps|, i requires 0 <= i < |ps| => ps[i].sample)
  {
    if ps != [] { EstimatedOrReal(ps[..|ps| - 1]); }
  }

  /** At most one estimate in twenty, overall and among the newest sixty points,
      and the two newest points real. */
  lemma EstimatesAreFew(observed: seq<Sample>, p: Policy, h: History)
    requires p.interval > 0 && IsHistory(observed, p, h) && h.estimatedCount > 0
    ensures 20 * h.estimatedCount <= |h.points|
    ensures 20 * CountEstimated(Newest(h.points, 60)) <= |Newest(h.points, 60)|
    ensures |h.points| >= 2 && !h.points[|h.points| - 1].estimated && !h.points[|h.points| - 2].estimated
  {
    FivePercent(h.estimatedCount, |h.points|);
    FivePercent(CountEstimated(Newest(h.points, 60)), |Newest(h.points, 60)|);
  }

  // ----- the quality check that follows (internal/dataset/quality.go)

  datatype Quality = Quality(minSamples: int, interval: Duration, maxGapIntervals: int)

  function MaximumGap(q: Quality): Duration {
    if q.maxGapIntervals * q.interval <= 0 then 2 * q.interval else q.maxGapIntervals * q.interval
  }

  predicate PassesQuality(samples: seq<Sample>, q: Quality) {
    && |samples| >= q.minSamples && q.interval > 0
    && forall i :: 0 < i < |samples| ==> GoodGap(samples, q, i)
  }

  predicate GoodGap(samples: seq<Sample>, q: Quality, i: int)
    requires 0 < i < |samples|
  {
    0 < samples[i].at - samples[i - 1].at <= MaximumGap(q)
  }

  predicate FirstBadGap(samples: seq<Sample>, q: Quality, i: int) {
    0 < i < |samples| && !GoodGap(samples, q, i) && forall k :: 0 < k < i ==> GoodGap(samples, q, k)
  }

  datatype QualityFailure = TooFewSamples | BadInterval | Unordered(index: int) | GapTooLong(index: int)

  method Validate(samples: seq<Sample>, q: Quality) returns (failure: Option<QualityFailure>)
    ensures failure.None? <==> PassesQuality(samples, q)
    ensures failure == Some(TooFewSamples) <==> |samples| < q.minSamples
    ensures failure == Some(BadInterval) <==> |samples| >= q.minSamples && q.interval <= 0
    ensures failure.Some? && failure.value.Unordered? ==>
            FirstBadGap(samples, q, failure.value.index)
              && samples[failure.value.index].at <= samples[failure.value.index - 1].at
    ensures failure.Some? && failure.value.GapTooLong? ==>
            FirstBadGap(samples, q, failure.value.index)
              && samples[failure.value.index].at > samples[failure.value.index - 1].at
  {
    if |samples| < q.minSamples { return Some(TooFewSamples); }
    if q.interval <= 0 { return Some(BadInterval); }
    var maximumGap := q.maxGapIntervals * q.interval;
    if maximumGap <= 0 { maximumGap := 2 * q.interval; }
    for i := 0 to |samples|
      invariant forall k :: 0 < k < i ==> GoodGap(samples, q, k)
    {
      if i > 0 {
        var gap := samples[i].at - samples[i - 1].at;
        assert GoodGap(samples, q, i) <==> 0 < gap <= MaximumGap(q);
        if gap <= 0 { return Some(Unordered(i)); }
        if gap > maximumGap { return Some(GapTooLong(i)); }
      }
    }
    failure := None;
  }

  function SamplesOf(ps: seq<Point>): (s: seq<Sample>)
    ensures |s| == |ps|
  {
    seq(|ps|, i requires 0 <= i < |ps| => ps[i].sample)
  }

  /** After a successful preparation the two-interval quality check can fail only
      for too few samples. */
  lemma PreparedHistoryPassesQuality(observed: seq<Sample>, p: Policy, h: History, minSamples: int)
    requires p.interval > 0 && IsHistory(observed, p, h)
    ensures PassesQuality(SamplesOf(h.points), Quality(minSamples, p.interval, 2)) <==> |h.points| >= minSamples
  {
    if observed != [] {
      hide IsHistory, Dense, ShortRuns, Anchored, Reals, NeverTurnsBack;
      HistoryIsSound(observed, p, h);
      DensePasses(h.points, p.interval, minSamples);
    } else {
      hide LimitFailure, CountEstimated;
    }
  }

  lemma DensePasses(ps: seq<Point>, interval: Duration, minSamples: int)
    requires interval > 0 && Dense(ps, interval)
    ensures PassesQuality(SamplesOf(ps), Quality(minSamples, interval, 2)) <==> |ps| >= minSamples
  {
    var s := SamplesOf(ps);
    forall i | 0 < i < |s| ensures GoodGap(s, Quality(minSamples, interval, 2), i) {
      assert s[i] == ps[i].sample && s[i - 1] == ps[i - 1].sample;
    }
  }

  /** The gap before sample i is longer than the policy tolerates. */
  predicate LongGap(samples: seq<Sample>, q: Quality, i: int) {
    0 < i < |samples| && samples[i].at - samples[i - 1].at > MaximumGap(q)
  }

  ghost predicate IsLastLongGap(samples: seq<Sample>, q: Quality, start: int) {
    && 0 <= start < |samples|
    && (start > 0 ==> LongGap(samples, q, start))
    && (forall i :: start < i < |samples| ==> !LongGap(samples, q, i))
  }

  /** Without interpolation: the samples after the latest gap that is too long. */
  method MostRecentContiguous(samples: seq<Sample>, q: Quality) returns (r: seq<Sample>)
    ensures |samples| < 2 || q.interval <= 0 ==> r == samples
    ensures |samples| >= 2 && q.interval > 0 ==> exists start ::
            IsLastLongGap(samples, q, start) && r == samples[start..]
  {
    if |samples| < 2 || q.interval <= 0 { return samples; }
    var maximumGap := q.maxGapIntervals * q.interval;
    if maximumGap <= 0 { maximumGap := 2 * q.interval; }
    var start := 0;
    for i := 1 to |samples|
      invariant 0 <= start < i && (start > 0 ==> LongGap(samples, q, start))
      invariant forall k :: start < k < i ==> !LongGap(samples, q, k)
    {
      if samples[i].at - samples[i - 1].at > maximumGap { start := i; }
    }
    r := samples[start..];
  }
}
