/** The accumulation loop of CompareArtifacts (internal/forecast/comparison.go)
    and the laws its scores obey. Each window pairs the observed horizon maximum
    with the upper forecast of one model. */
module Scoring {
  import opened RealArithmetic

  datatype Metrics = Metrics(
    windows: nat, coverage: real, underpredictionRate: real, meanAbsoluteError: real, pinballLoss: real,
    meanUnderprediction: real, maxRelativeUnderprediction: real, peakMeanUnderprediction: real,
    excessReplicaMinutes: real)

  const NO_METRICS := Metrics(0, 0.0, 0.0, 0.0, 0.0, 0.0, 0.0, 0.0, 0.0)

  datatype Pair = Pair(actual: real, upper: real)

  datatype Scale = Scale(quantile: real, threshold: real, horizonMinutes: real, peakCutoff: real)

  predicate ValidPair(p: Pair) { p.actual >= 0.0 && p.upper >= 0.0 }

  predicate ValidScale(c: Scale) { 0.0 < c.quantile < 1.0 && c.threshold > 0.0 && c.horizonMinutes > 0.0 }

  function Shortfall(p: Pair): real { MaxReal(0.0, p.actual - p.upper) }

  /** The shortfall relative to what was observed, at least to one. */
  function Relative(p: Pair): real { Shortfall(p) / MaxReal(1.0, p.actual) }

  function Pinball(c: Scale, p: Pair): real {
    if p.actual >= p.upper then Times(c.quantile, p.actual - p.upper)
    else Times(1.0 - c.quantile, p.upper - p.actual)
  }

  function Excess(c: Scale, p: Pair): real
    requires c.threshold > 0.0
  {
    Times(MaxReal(0.0, (Ceil(p.upper / c.threshold) - Ceil(p.actual / c.threshold)) as real), c.horizonMinutes)
  }

  /** The running sums after some windows, and the number of peak windows. */
  datatype Sums = Sums(totals: Metrics, peaks: nat)

  function AddWindow(c: Scale, s: Sums, p: Pair): Sums
    requires c.threshold > 0.0
  {
    var m := s.totals;
    var late := Shortfall(p);
    Sums(Metrics(
           m.windows + 1,
           if late > 0.0 then m.coverage else m.coverage + 1.0,
           if late > 0.0 then m.underpredictionRate + 1.0 else m.underpredictionRate,
           m.meanAbsoluteError + AbsReal(p.actual - p.upper),
           m.pinballLoss + Pinball(c, p),
           m.meanUnderprediction + late,
           MaxReal(m.maxRelativeUnderprediction, Relative(p)),
           if p.actual >= c.peakCutoff then m.peakMeanUnderprediction + late else m.peakMeanUnderprediction,
           m.excessReplicaMinutes + Excess(c, p)),
         if p.actual >= c.peakCutoff then s.peaks + 1 else s.peaks)
  }

  function Totals(c: Scale, pairs: seq<Pair>): (s: Sums)
    requires c.threshold > 0.0
    ensures s.totals.windows == |pairs|
  {
    if pairs == [] then Sums(NO_METRICS, 0) else AddWindow(c, Totals(c, pairs[..|pairs| - 1]), pairs[|pairs| - 1])
  }

  function Finish(s: Sums): Metrics
    requires s.totals.windows > 0
  {
    var m, n := s.totals, s.totals.windows as real;
    m.(coverage := m.coverage / n, underpredictionRate := m.underpredictionRate / n,
       meanAbsoluteError := m.meanAbsoluteError / n, pinballLoss := m.pinballLoss / n,
       meanUnderprediction := m.meanUnderprediction / n,
       peakMeanUnderprediction := if s.peaks > 0 then m.peakMeanUnderprediction / s.peaks as real
         else m.peakMeanUnderprediction)
  }

  function Score(c: Scale, pairs: seq<Pair>): Metrics
    requires c.threshold > 0.0 && pairs != []
  {
    Finish(Totals(c, pairs))
  }

  // ----- the scores as sums over the windows

  function SumOf(pairs: seq<Pair>, f: Pair -> real): real {
    if pairs == [] then 0.0 else SumOf(pairs[..|pairs| - 1], f) + f(pairs[|pairs| - 1])
  }

  /** The windows whose observed maximum reaches the cutoff. */
  function Peaks(c: Scale, pairs: seq<Pair>): seq<Pair> {
    if pairs == [] then []
    else
      var rest := Peaks(c, pairs[..|pairs| - 1]);
      if c.peakCutoff <= pairs[|pairs| - 1].actual then rest + [pairs[|pairs| - 1]] else rest
  }

  function Late(): Pair -> real { (p: Pair) => Shortfall(p) }

  function Misses(): Pair -> real { (p: Pair) => if p.upper < p.actual then 1.0 else 0.0 }

  function Distance(): Pair -> real { (p: Pair) => MaxReal(p.actual, p.upper) - MinReal(p.actual, p.upper) }

  function PinballOf(c: Scale): Pair -> real {
    (p: Pair) => c.quantile * MaxReal(0.0, p.actual - p.upper) + (1.0 - c.quantile) * MaxReal(0.0, p.upper - p.actual)
  }

  /** Replicas asked for beyond those needed, for the length of the horizon. */
  function ExcessOf(c: Scale): Pair -> real
    requires c.threshold > 0.0
  {
    (p: Pair) =>
      MaxReal(0.0, (Ceil(p.upper / c.threshold) - Ceil(p.actual / c.threshold)) as real) * c.horizonMinutes
  }

  /** The largest shortfall relative to what was observed, at least to one. */
  ghost predicate IsWorstRelative(pairs: seq<Pair>, worst: real) {
    && (forall k :: 0 <= k < |pairs| ==> Shortfall(pairs[k]) / MaxReal(1.0, pairs[k].actual) <= worst)
    && (worst == 0.0 || exists k :: 0 <= k < |pairs| && worst == Shortfall(pairs[k]) / MaxReal(1.0, pairs[k].actual))
  }

  /** What every reported number is of the windows. */
  ghost predicate MeansOf(c: Scale, pairs: seq<Pair>, m: Metrics)
    requires c.threshold > 0.0
  {
    var n := |pairs| as real;
    && m.windows == |pairs|
    && m.underpredictionRate * n == SumOf(pairs, Misses())
    && m.coverage * n == n - SumOf(pairs, Misses())
    && m.meanAbsoluteError * n == SumOf(pairs, Distance())
    && m.pinballLoss * n == SumOf(pairs, PinballOf(c))
    && m.meanUnderprediction * n == SumOf(pairs, Late())
    && IsWorstRelative(pairs, m.maxRelativeUnderprediction)
    && m.peakMeanUnderprediction * |Peaks(c, pairs)| as real == SumOf(Peaks(c, pairs), Late())
    && (Peaks(c, pairs) == [] ==> m.peakMeanUnderprediction == 0.0)
    && m.excessReplicaMinutes == SumOf(pairs, ExcessOf(c))
  }

  ghost predicate SumsOf(c: Scale, pairs: seq<Pair>, s: Sums)
    requires c.threshold > 0.0
  {
    var m := s.totals;
    && m.windows == |pairs| && s.peaks == |Peaks(c, pairs)|
    && m.underpredictionRate == SumOf(pairs, Misses())
    && m.coverage == |pairs| as real - SumOf(pairs, Misses())
    && m.meanAbsoluteError == SumOf(pairs, Distance())
    && m.pinballLoss == SumOf(pairs, PinballOf(c))
    && m.meanUnderprediction == SumOf(pairs, Late())
    && m.peakMeanUnderprediction == SumOf(Peaks(c, pairs), Late())
    && m.excessReplicaMinutes == SumOf(pairs, ExcessOf(c))
  }

  lemma SumOfAppend(pairs: seq<Pair>, p: Pair, f: Pair -> real)
    ensures SumOf(pairs + [p], f) == SumOf(pairs, f) + f(p)
  {
    assert (pairs + [p])[..|pairs|] == pairs;
  }

  lemma OneWindow(c: Scale, p: Pair)
    requires c.threshold > 0.0
    ensures Pinball(c, p) == PinballOf(c)(p) && Excess(c, p) == ExcessOf(c)(p)
    ensures AbsReal(p.actual - p.upper) == Distance()(p)
    ensures Misses()(p) == (if Shortfall(p) > 0.0 then 1.0 else 0.0) && Late()(p) == Shortfall(p)
  {
  }

  lemma {:induction false} TotalsAreSums(c: Scale, pairs: seq<Pair>)
    requires c.threshold > 0.0
    ensures SumsOf(c, pairs, Totals(c, pairs))
  {
    hide Pinball, Excess, PinballOf, ExcessOf, Distance, Misses, Relative, Shortfall;
    if pairs != [] {
      var n := |pairs| - 1;
      var rest, p := pairs[..n], pairs[n];
      TotalsAreSums(c, rest);
      OneWindow(c, p);
      SumOfAppend(Peaks(c, rest), p, Late());
    }
  }

  lemma {:induction false} TotalsFindWorst(c: Scale, pairs: seq<Pair>)
    requires c.threshold > 0.0
    ensures Totals(c, pairs).totals.maxRelativeUnderprediction >= 0.0
    ensures IsWorstRelative(pairs, Totals(c, pairs).totals.maxRelativeUnderprediction)
  {
    hide Pinball, Excess, Shortfall;
    if pairs != [] {
      var n := |pairs| - 1;
      var rest := pairs[..n];
      TotalsFindWorst(c, rest);
      var before := Totals(c, rest).totals.maxRelativeUnderprediction;
      if before != 0.0 {
        var k :| 0 <= k < n && before == Shortfall(rest[k]) / MaxReal(1.0, rest[k].actual);
        assert pairs[k] == rest[k];
      }
      forall k | 0 <= k < |pairs| ensures Shortfall(pairs[k]) / MaxReal(1.0, pairs[k].actual)
          <= Totals(c, pairs).totals.maxRelativeUnderprediction {
        if k < n { assert pairs[k] == rest[k]; }
      }
    }
  }

  lemma TimesBack(x: real, n: real)
    requires n != 0.0
    ensures x / n * n == x
  {
  }

  /** The reported scores are what they are said to be: rates, means and a maximum
      over the windows, and the peak mean over exactly the peak windows. */
  lemma ScoreIsMeans(c: Scale, pairs: seq<Pair>)
    requires c.threshold > 0.0 && pairs != []
    ensures MeansOf(c, pairs, Score(c, pairs))
  {
    hide SumOf, Peaks, Totals, IsWorstRelative, PinballOf, ExcessOf;
    TotalsAreSums(c, pairs);
    TotalsFindWorst(c, pairs);
    var m, n := Totals(c, pairs).totals, |pairs| as real;
    TimesBack(m.coverage, n);
    TimesBack(m.underpredictionRate, n);
    TimesBack(m.meanAbsoluteError, n);
    TimesBack(m.pinballLoss, n);
    TimesBack(m.meanUnderprediction, n);
    if Totals(c, pairs).peaks > 0 {
      TimesBack(m.peakMeanUnderprediction, Totals(c, pairs).peaks as real);
    } else {
      assert SumOf(Peaks(c, pairs), Late()) == 0.0 by { NothingAdded(Late()); }
    }
  }

  lemma NothingAdded(f: Pair -> real)
    ensures SumOf([], f) == 0.0
  {
  }

  // ----- what the peak shortfall tells

  lemma {:induction false} PeaksAreThose(c: Scale, pairs: seq<Pair>)
    ensures forall p :: p in Peaks(c, pairs) <==> p in pairs && p.actual >= c.peakCutoff
    ensures (forall p :: p in pairs ==> p.actual >= c.peakCutoff) ==> Peaks(c, pairs) == pairs
  {
    if pairs != [] {
      var n := |pairs| - 1;
      PeaksAreThose(c, pairs[..n]);
      assert pairs == pairs[..n] + [pairs[n]];
    }
  }

  lemma {:induction false} NoShortfall(pairs: seq<Pair>)
    ensures SumOf(pairs, Late()) >= 0.0
    ensures SumOf(pairs, Late()) == 0.0 <==> forall p :: p in pairs ==> p.actual <= p.upper
  {
    if pairs != [] {
      var n := |pairs| - 1;
      NoShortfall(pairs[..n]);
      assert pairs == pairs[..n] + [pairs[n]];
    }
  }

  lemma ZeroProduct(x: real, n: real)
    requires n > 0.0
    ensures x * n == 0.0 <==> x == 0.0
  {
  }

  /** The peak shortfall is zero exactly when every peak was covered. */
  lemma PeaksCoveredExactly(c: Scale, pairs: seq<Pair>)
    requires c.threshold > 0.0 && pairs != []
    ensures Score(c, pairs).peakMeanUnderprediction == 0.0 <==>
              forall p :: p in pairs && p.actual >= c.peakCutoff ==> p.actual <= p.upper
  {
    hide SumOf, Peaks, Score, Late;
    ScoreIsMeans(c, pairs);
    PeaksAreThose(c, pairs);
    NoShortfall(Peaks(c, pairs));
    if Peaks(c, pairs) != [] { ZeroProduct(Score(c, pairs).peakMeanUnderprediction, |Peaks(c, pairs)| as real); }
  }

  /** Two forecasts of the same windows that differ nowhere at a peak have the same
      peak shortfall. */
  ghost predicate AgreeOnPeaks(c: Scale, a: seq<Pair>, b: seq<Pair>) {
    && |a| == |b|
    && forall k :: 0 <= k < |a| ==> a[k].actual == b[k].actual && (a[k].actual >= c.peakCutoff ==> a[k] == b[k])
  }

  lemma {:induction false} SamePeaks(c: Scale, a: seq<Pair>, b: seq<Pair>)
    requires AgreeOnPeaks(c, a, b)
    ensures Peaks(c, a) == Peaks(c, b)
  {
    if a != [] { SamePeaks(c, a[..|a| - 1], b[..|b| - 1]); }
  }

  lemma SameProduct(x: real, y: real, n: real)
    requires n > 0.0 && x * n == y * n
    ensures x == y
  {
    assert (x - y) * n == x * n - y * n;
    ZeroProduct(x - y, n);
  }

  lemma PeakShortfallIsAboutPeaks(c: Scale, a: seq<Pair>, b: seq<Pair>)
    requires c.threshold > 0.0 && a != [] && AgreeOnPeaks(c, a, b)
    ensures Score(c, a).peakMeanUnderprediction == Score(c, b).peakMeanUnderprediction
  {
    hide SumOf, Peaks, Score, Late, AgreeOnPeaks;
    assert b != [] by { assert |a| == |b| by { SameLength(c, a, b); } }
    ScoreIsMeans(c, a);
    ScoreIsMeans(c, b);
    SamePeaks(c, a, b);
    if Peaks(c, a) != [] {
      SameProduct(Score(c, a).peakMeanUnderprediction, Score(c, b).peakMeanUnderprediction, |Peaks(c, a)| as real);
    }
  }

  lemma SameLength(c: Scale, a: seq<Pair>, b: seq<Pair>)
    requires AgreeOnPeaks(c, a, b)
    ensures |a| == |b|
  {
  }

  /** When every window is a peak it is the mean shortfall. */
  lemma AllPeaks(c: Scale, pairs: seq<Pair>)
    requires c.threshold > 0.0 && pairs != [] && forall p :: p in pairs ==> p.actual >= c.peakCutoff
    ensures Score(c, pairs).peakMeanUnderprediction == Score(c, pairs).meanUnderprediction
  {
    hide SumOf, Peaks, Score, Late;
    ScoreIsMeans(c, pairs);
    PeaksAreThose(c, pairs);
    SameProduct(Score(c, pairs).peakMeanUnderprediction, Score(c, pairs).meanUnderprediction, |pairs| as real);
  }

  // ----- laws of the running sums

  /** Pinball loss is the shortfall weighted by q plus the surplus weighted by 1-q. */
  ghost predicate Balanced(q: real, pinball: real, shortfall: real, absolute: real) {
    pinball == q * shortfall + (1.0 - q) * (absolute - shortfall)
  }

  ghost predicate SumLaws(c: Scale, s: Sums) {
    var m := s.totals;
    && m.coverage + m.underpredictionRate == m.windows as real
    && m.coverage >= 0.0 && m.underpredictionRate >= 0.0
    && 0.0 <= m.meanUnderprediction <= m.meanAbsoluteError
    && Balanced(c.quantile, m.pinballLoss, m.meanUnderprediction, m.meanAbsoluteError)
    && 0.0 <= m.maxRelativeUnderprediction <= 1.0
    && 0.0 <= m.peakMeanUnderprediction <= m.meanUnderprediction
    && m.excessReplicaMinutes >= 0.0
    && s.peaks <= m.windows
  }

  /** One window: the pinball loss splits into its shortfall and its surplus. */
  lemma PinballSplits(c: Scale, p: Pair)
    ensures Pinball(c, p) == c.quantile * Shortfall(p)
            + (1.0 - c.quantile) * (AbsReal(p.actual - p.upper) - Shortfall(p))
  {
  }

  lemma LinearSplit(q: real, u: real, e: real, du: real, de: real)
    ensures q * (u + du) + (1.0 - q) * ((e + de) - (u + du))
         == (q * u + (1.0 - q) * (e - u)) + (q * du + (1.0 - q) * (de - du))
  {
  }

  lemma RelativeShortfall(p: Pair)
    requires ValidPair(p)
    ensures 0.0 <= Relative(p) <= 1.0
  {
    var x, y := Shortfall(p), MaxReal(1.0, p.actual);
    assert 0.0 <= x <= y && y >= 1.0;
    Fraction(x, y);
  }

  lemma MulOrder(a: real, b: real, n: real)
    requires n > 0.0
    ensures a * n <= b * n <==> a <= b
  {
    assert (b - a) * n == b * n - a * n;
    if a <= b { assert (b - a) * n >= 0.0; } else { assert (a - b) * n > 0.0; }
  }

  lemma Fraction(x: real, y: real)
    requires 0.0 <= x <= y && y > 0.0
    ensures 0.0 <= x / y <= 1.0
  {
    var f := x / y;
    assert f * y == x;
    MulOrder(f, 1.0, y);
    MulOrder(0.0, f, y);
  }

  lemma AddWindowLaws(c: Scale, s: Sums, p: Pair)
    requires ValidScale(c) && ValidPair(p) && SumLaws(c, s)
    ensures SumLaws(c, AddWindow(c, s, p))
  {
    hide Pinball, Excess, Relative;
    var m := s.totals;
    PinballSplits(c, p);
    LinearSplit(c.quantile, m.meanUnderprediction, m.meanAbsoluteError, Shortfall(p), AbsReal(p.actual - p.upper));
    RelativeShortfall(p);
    ExcessNonNegative(c, p);
  }

  lemma ExcessNonNegative(c: Scale, p: Pair)
    requires ValidScale(c)
    ensures Excess(c, p) >= 0.0
  {
    var d := MaxReal(0.0, (Ceil(p.upper / c.threshold) - Ceil(p.actual / c.threshold)) as real);
    assert d >= 0.0 && c.horizonMinutes > 0.0;
  }

  lemma {:induction false} TotalsLaws(c: Scale, pairs: seq<Pair>)
    requires ValidScale(c) && forall k :: 0 <= k < |pairs| ==> ValidPair(pairs[k])
    ensures SumLaws(c, Totals(c, pairs))
  {
    hide AddWindow, ValidPair, SumLaws;
    if pairs == [] {
      NothingSummed(c);
    } else {
      TotalsLaws(c, pairs[..|pairs| - 1]);
      AddWindowLaws(c, Totals(c, pairs[..|pairs| - 1]), pairs[|pairs| - 1]);
    }
  }

  lemma NothingSummed(c: Scale)
    ensures SumLaws(c, Sums(NO_METRICS, 0))
  {
  }

  /** Coverage is complete exactly when every forecast reached its observed
      maximum, and a window at the cutoff makes the peak set non-empty. */
  lemma {:induction false} CoverageAndPeaks(c: Scale, pairs: seq<Pair>)
    requires ValidScale(c)
    ensures Totals(c, pairs).totals.coverage <= |pairs| as real
    ensures Totals(c, pairs).totals.coverage == |pairs| as real <==>
            forall k :: 0 <= k < |pairs| ==> pairs[k].actual <= pairs[k].upper
    ensures Totals(c, pairs).peaks > 0 <==> exists k :: 0 <= k < |pairs| && pairs[k].actual >= c.peakCutoff
  {
    hide Pinball, Excess;
    if pairs != [] {
      var n := |pairs| - 1;
      var before := pairs[..n];
      CoverageAndPeaks(c, before);
      assert forall k :: 0 <= k < n ==> before[k] == pairs[k];
      assert forall k :: 0 <= k < |pairs| ==> k == n || pairs[k] == before[k];
    }
  }

  // ----- laws of the reported scores

  /** What every model's scores satisfy. */
  ghost predicate ScoreLaws(c: Scale, m: Metrics, windows: nat) {
    && m.windows == windows > 0
    && m.coverage + m.underpredictionRate == 1.0
    && 0.0 <= m.coverage <= 1.0 && 0.0 <= m.underpredictionRate <= 1.0
    && 0.0 <= m.meanUnderprediction <= m.meanAbsoluteError
    && Balanced(c.quantile, m.pinballLoss, m.meanUnderprediction, m.meanAbsoluteError)
    && m.pinballLoss >= 0.0
    && 0.0 <= m.maxRelativeUnderprediction <= 1.0
    && m.peakMeanUnderprediction >= 0.0
    && m.excessReplicaMinutes >= 0.0
  }

  lemma QuotientOf(x: real, n: real, y: real)
    requires n > 0.0 && x * n == y
    ensures y / n == x
  {
  }

  lemma ScaledSplit(q: real, a: real, b: real, n: real)
    ensures (q * a + (1.0 - q) * (b - a)) * n == q * (a * n) + (1.0 - q) * (b * n - a * n)
  {
  }

  lemma DivideLinear(q: real, u: real, e: real, n: real)
    requires n > 0.0
    ensures (q * u + (1.0 - q) * (e - u)) / n == q * (u / n) + (1.0 - q) * (e / n - u / n)
  {
    var a, b := u / n, e / n;
    assert a * n == u && b * n == e;
    ScaledSplit(q, a, b, n);
    QuotientOf(q * a + (1.0 - q) * (b - a), n, q * u + (1.0 - q) * (e - u));
  }

  lemma DivideOrder(a: real, b: real, n: real)
    requires n > 0.0 && a <= b
    ensures a / n <= b / n
  {
    var x, y := a / n, b / n;
    assert x * n == a && y * n == b;
    MulOrder(x, y, n);
  }

  lemma DivideSum(a: real, b: real, n: real)
    requires n > 0.0
    ensures (a + b) / n == a / n + b / n
  {
    var x, y := a / n, b / n;
    assert x * n == a && y * n == b;
    QuotientOf(x + y, n, a + b);
  }

  lemma PinballNonNegative(q: real, u: real, e: real)
    requires 0.0 < q < 1.0 && 0.0 <= u <= e
    ensures q * u + (1.0 - q) * (e - u) >= 0.0
  {
    var s := e - u;
    assert q * u >= 0.0;
    assert (1.0 - q) * s >= 0.0;
  }

  lemma RateLaws(covered: real, late: real, n: real)
    requires n > 0.0 && covered >= 0.0 && late >= 0.0 && covered + late == n
    ensures covered / n + late / n == 1.0 && 0.0 <= covered / n <= 1.0 && 0.0 <= late / n <= 1.0
  {
    DivideSum(covered, late, n);
    QuotientOf(1.0, n, n);
    Fraction(covered, n);
    Fraction(late, n);
  }

  lemma LossLaws(q: real, p: real, u: real, e: real, n: real)
    requires n > 0.0 && 0.0 < q < 1.0 && 0.0 <= u <= e && Balanced(q, p, u, e)
    ensures 0.0 <= u / n <= e / n && p / n >= 0.0
    ensures Balanced(q, p / n, u / n, e / n)
  {
    QuotientOf(0.0, n, 0.0);
    DivideOrder(0.0, u, n);
    DivideOrder(u, e, n);
    DivideLinear(q, u, e, n);
    PinballNonNegative(q, u / n, e / n);
  }

  lemma FinishLaws(c: Scale, s: Sums)
    requires ValidScale(c) && SumLaws(c, s) && s.totals.windows > 0
    ensures ScoreLaws(c, Finish(s), s.totals.windows)
  {
    hide Balanced;
    var m, n := s.totals, s.totals.windows as real;
    RateLaws(m.coverage, m.underpredictionRate, n);
    LossLaws(c.quantile, m.pinballLoss, m.meanUnderprediction, m.meanAbsoluteError, n);
    if s.peaks > 0 {
      QuotientOf(0.0, s.peaks as real, 0.0);
      DivideOrder(0.0, m.peakMeanUnderprediction, s.peaks as real);
    }
  }

  /** Every scored model obeys the laws, over the same number of windows. */
  lemma ScoringLaws(c: Scale, pairs: seq<Pair>)
    requires ValidScale(c) && pairs != [] && forall k :: 0 <= k < |pairs| ==> ValidPair(pairs[k])
    ensures ScoreLaws(c, Score(c, pairs), |pairs|)
  {
    hide SumLaws, ScoreLaws, Finish;
    TotalsLaws(c, pairs);
    FinishLaws(c, Totals(c, pairs));
  }

  /** validMetrics of internal/training/decision.go, without the finiteness
      checks that reals always pass. */
  predicate ValidMetrics(m: Metrics) {
    && m.windows > 0
    && 0.0 <= m.coverage <= 1.0 && 0.0 <= m.underpredictionRate <= 1.0
    && AbsReal(m.coverage + m.underpredictionRate - 1.0) < 0.000000001
    && m.meanAbsoluteError >= 0.0 && m.pinballLoss >= 0.0
  }

  /** Scores of a comparison always pass the promotion gate's validity check. */
  lemma ScoresAreValid(c: Scale, m: Metrics, windows: nat)
    requires ScoreLaws(c, m, windows)
    ensures ValidMetrics(m)
  {
  }
}
