/** CompareArtifacts of internal/forecast/comparison.go: every model is scored
    on the same disjoint, fully observed windows. */
module Comparison {
  import opened RealArithmetic
  import opened Wrappers
  import opened Observations
  import opened Sorting
  import opened Windows
  import opened Scoring

  /** The names under which the evaluation service compares artifacts. */
  datatype Role = Candidate | Champion | Baseline | Previous

  datatype Prediction = Prediction(p50: real, p95: real)

  /** A model is its engine name, its fixed input length if it has one, and
      what it predicts from an input history (None when it fails). */
  datatype Model = NilModel | Model(engine: string, lookback: Option<nat>, predict: seq<Sample> -> Option<Prediction>)

  datatype Request = Request(horizon: Duration, sampling: Duration, seasonal: Duration, quantile: real)

  datatype Options = Options(after: int, minDuration: Duration, minWindows: int, maxWindows: int, threshold: real,
                             historyWindow: Duration)

  datatype Evidence = Evidence(start: int, end: int, fingerprint: string, eligibleWindows: nat,
                               metrics: map<Role, Metrics>)

  /** DivisionByZero is the run-time panic of the even subsampling. */
  datatype Failure =
    | InvalidContract | InvalidObservations | MissingModel | InsufficientWindows | InsufficientDuration
    | DivisionByZero | PredictionFailed(name: Role) | InvalidPrediction(name: Role)

  predicate ValidContract(models: map<Role, Model>, r: Request, o: Options) {
    && r.sampling > 0 && r.horizon > 0 && r.horizon % r.sampling == 0
    && r.seasonal > 0 && r.seasonal % r.sampling == 0 && models != map[]
    && o.minWindows >= 1 && o.maxWindows >= o.minWindows && o.minDuration > 0 && o.threshold > 0.0
  }

  function OperationalQuantile(r: Request): (q: real)
    ensures 0.0 < q < 1.0
  {
    if 0.0 < r.quantile < 1.0 then r.quantile else 0.95
  }

  function Steps(span: Duration, interval: Duration): (n: nat)
    requires interval > 0 && span > 0 && span % interval == 0
    ensures n > 0
  {
    WholeQuotient(span, interval);
    span / interval
  }

  /** What one model needs before the cut. */
  function Need(m: Model, season: nat): nat {
    match m
    case NilModel => season
    case Model(engine, lookback, _) =>
      Max(season, Max(if lookback.Some? then lookback.value else 0, if engine == "holt-winters" then 2 * season else 0))
  }

  // ----- reading the observations

  predicate AnyNil(models: map<Role, Model>) {
    exists name :: name in models && models[name].NilModel?
  }

  /** One season, or more when some model needs it, and then no more than that. */
  ghost predicate IsLongest(models: map<Role, Model>, season: nat, history: nat) {
    && history >= season
    && (forall name :: name in models ==> Need(models[name], season) <= history)
    && (history == season || exists name :: name in models && Need(models[name], season) == history)
  }

  /** The longest history any of the models needs. */
  method HistoryNeeded(models: map<Role, Model>, season: nat) returns (r: Result<nat, Failure>)
    requires season > 0
    ensures r == Err(MissingModel) <==> AnyNil(models)
    ensures r.Err? ==> r == Err(MissingModel)
    ensures r.Ok? ==> IsLongest(models, season, r.value)
  {
    var history: nat := season;
    var pending := models.Keys;
    while pending != {}
      invariant pending <= models.Keys && history >= season
      invariant forall name :: name in models && name !in pending ==>
                  !models[name].NilModel? && Need(models[name], season) <= history
      invariant history == season || exists name :: name in models && Need(models[name], season) == history
      decreases |pending|
    {
      ghost var some := Member(pending);
      var name :| name in pending;
      pending := pending - {name};
      var model := models[name];
      if model.NilModel? { return Err(MissingModel); }
      ghost var before := history;
      if model.lookback.Some? { history := Max(history, model.lookback.value); }
      if model.engine == "holt-winters" { history := Max(history, 2 * season); }
      assert history == Max(before, Need(model, season));
    }
    r := Ok(history);
  }

  // ----- scoring one model

  /** The largest observed value of the target window. */
  function HorizonMax(s: seq<Sample>, cut: nat, steps: nat): (m: real)
    requires cut + steps <= |s|
    ensures m >= 0.0
    ensures forall j :: cut <= j < cut + steps ==> s[j].value <= m
    ensures m == 0.0 || exists j :: cut <= j < cut + steps && s[j].value == m
  {
    if steps == 0 then 0.0 else MaxReal(HorizonMax(s, cut, steps - 1), s[cut + steps - 1].value)
  }

  /** Where the input of a model starts, before the current gap-free run is
      taken into account. */
  function RequestedStart(m: Model, o: Options, interval: Duration, cut: nat): (start: nat)
    requires m.Model? && interval > 0
    ensures start <= cut
  {
    match m.lookback
    case Some(n) => Max(0, cut - n)
    case None =>
      if o.historyWindow > 0 then
        DivNonNegative(o.historyWindow, interval);
        Max(0, cut - o.historyWindow / interval)
      else 0
  }

  lemma DivNonNegative(a: int, n: int)
    requires a >= 0 && n > 0
    ensures a / n >= 0
  {
  }

  function InputOf(m: Model, o: Options, s: seq<Sample>, interval: Duration, cut: nat): (input: seq<Sample>)
    requires m.Model? && interval > 0 && 0 < cut <= |s|
    ensures |input| <= cut && input == s[cut - |input|..cut]
  {
    s[Max(RequestedStart(m, o, interval, cut), RunStart(s, interval, cut - 1))..cut]
  }

  /** No input of a model bridges a gap, and a model of fixed length is given
      exactly that many samples. */
  lemma InputsAreComplete(m: Model, o: Options, s: seq<Sample>, g: Grid, cut: nat)
    requires ValidGrid(g) && m.Model? && Eligible(s, g, cut)
    requires m.lookback.Some? ==> m.lookback.value <= g.history
    ensures var input := InputOf(m, o, s, g.interval, cut);
            && Complete(input, g.interval, 0, |input| - 1)
            && (m.lookback.Some? ==> |input| == m.lookback.value)
  {
    hide Slot;
    RunStartIsMaximal(s, g.interval, cut - 1);
    assert Complete(s, g.interval, cut - g.history, cut - 1);
    var start := cut - |InputOf(m, o, s, g.interval, cut)|;
    forall i | 0 < i < cut - start ensures Follows(s[start..cut], g.interval, i) {
      assert Follows(s, g.interval, start + i);
    }
  }

  /** An input reaches back as far as the gap-free run, the fixed length or else
      the history window allow. */
  lemma InputsReachBack(m: Model, o: Options, s: seq<Sample>, interval: Duration, cut: nat, a: nat)
    requires m.Model? && interval > 0 && a < cut <= |s|
    ensures cut - |InputOf(m, o, s, interval, cut)| <= a <==>
            && Complete(s, interval, a, cut - 1)
            && (m.lookback.Some? ==> cut - a <= m.lookback.value)
            && (m.lookback.None? && o.historyWindow > 0 ==> (cut - a) * interval <= o.historyWindow)
  {
    hide Complete, RunStart;
    RunStartIsMaximal(s, interval, cut - 1);
    StillComplete(s, interval, RunStart(s, interval, cut - 1), a, cut - 1);
    if m.lookback.None? && o.historyWindow > 0 { WholeSteps(cut - a, interval, o.historyWindow); }
  }

  lemma StillComplete(s: seq<Sample>, interval: Duration, start: nat, a: nat, end: nat)
    requires interval > 0 && end < |s| && Complete(s, interval, start, end)
    ensures start <= a ==> Complete(s, interval, a, end)
  {
  }

  lemma WholeSteps(k: int, interval: Duration, span: Duration)
    requires interval > 0
    ensures k * interval <= span <==> k <= span / interval
  {
    DivBounds(span, interval);
    var q := span / interval;
    assert (q - k) * interval == q * interval - k * interval;
    if k > q { AtLeastOne(k - q, interval); }
  }

  function Maxima(s: seq<Sample>, cuts: seq<int>, steps: nat): (m: seq<real>)
    requires forall k :: 0 <= k < |cuts| ==> 0 < cuts[k] && cuts[k] + steps <= |s|
    ensures |m| == |cuts|
  {
    seq(|cuts|, k requires 0 <= k < |cuts| => HorizonMax(s, cuts[k], steps))
  }

  function PeakRank(n: nat): (k: int)
    requires n > 0
    ensures 0 <= k < n && 10 * (n - k) >= n
  {
    (n - 1) * 9 / 10
  }

  /** Windows whose observed maximum reaches this value count as peaks. */
  function PeakCutoff(maxima: seq<real>): real
    requires maxima != []
  {
    Sorted(maxima)[PeakRank(|maxima|)]
  }

  /** At least a tenth of the windows, and one in any case, are peaks, and the
      cutoff is as high as that allows. */
  lemma PeaksAreTheTopTenth(maxima: seq<real>)
    requires maxima != []
    ensures PeakCutoff(maxima) in maxima
    ensures 10 * (|maxima| - Below(maxima, PeakCutoff(maxima))) >= |maxima|
    ensures 10 * AtMost(maxima, PeakCutoff(maxima)) > 9 * (|maxima| - 1)
  {
    hide Sorted, AtMost, Below;
    var k := PeakRank(|maxima|);
    SortedMember(maxima, k);
    SortedSorts(maxima);
    CountsInOrder(Sorted(maxima), k);
    SortedCounts(maxima, Sorted(maxima)[k]);
  }

  predicate ValidPrediction(p: Prediction) { 0.0 <= p.p50 <= p.p95 }

  /** The window pairs a model is scored on; a failed prediction has no pair. */
  function PairsOf(m: Model, o: Options, s: seq<Sample>, interval: Duration, steps: nat,
                   cuts: seq<int>): (pairs: seq<Pair>)
    requires m.Model? && interval > 0 && forall k :: 0 <= k < |cuts| ==> 0 < cuts[k] && cuts[k] + steps <= |s|
    ensures |pairs| == |cuts|
  {
    seq(|cuts|, k requires 0 <= k < |cuts| =>
      var p := m.predict(InputOf(m, o, s, interval, cuts[k]));
      Pair(HorizonMax(s, cuts[k], steps), if p.Some? then p.value.p95 else 0.0))
  }

  function ScaleOf(r: Request, o: Options, cutoff: real): Scale {
    Scale(OperationalQuantile(r), o.threshold, r.horizon as real / MINUTE as real, cutoff)
  }

  /** The model fails on the window, or predicts something that is no forecast. */
  predicate IsFault(m: Model, o: Options, s: seq<Sample>, interval: Duration, cut: int, failed: bool) {
    && m.Model? && interval > 0 && 0 < cut <= |s|
    && var p := m.predict(InputOf(m, o, s, interval, cut));
       if failed then p.None? else p.Some? && !ValidPrediction(p.value)
  }

  lemma WindowScores(r: Request, o: Options, cutoff: real, actual: real, upper: real)
    requires o.threshold > 0.0
    ensures var c, p := ScaleOf(r, o, cutoff), Pair(actual, upper);
            var excess := MaxReal(0.0, (Ceil(upper / o.threshold) - Ceil(actual / o.threshold)) as real);
            && c.threshold == o.threshold && c.peakCutoff == cutoff && Shortfall(p) == MaxReal(0.0, actual - upper)
            && (actual >= upper ==> Pinball(c, p) == Times(OperationalQuantile(r), actual - upper))
            && (actual < upper ==> Pinball(c, p) == Times(1.0 - OperationalQuantile(r), upper - actual))
            && Excess(c, p) == Times(excess, r.horizon as real / MINUTE as real)
            && MaxReal(1.0, actual) > 0.0
  {
  }

  method InputStart(m: Model, o: Options, interval: Duration, cut: nat, runStart: nat) returns (start: nat)
    requires m.Model? && interval > 0 && runStart <= cut
    ensures start == Max(RequestedStart(m, o, interval, cut), runStart) <= cut
  {
    start := 0;
    if o.historyWindow > 0 {
      DivNonNegative(o.historyWindow, interval);
      start := Max(0, cut - o.historyWindow / interval);
    }
    if m.lookback.Some? { start := Max(0, cut - m.lookback.value); }
    start := Max(start, runStart);
  }

  /** One window is added to the running sums. */
  method AddScore(r: Request, o: Options, cutoff: real, before: Metrics, peaks: nat, actual: real, upper: real)
    returns (metrics: Metrics, peakCount: nat)
    requires o.threshold > 0.0
    ensures Sums(metrics, peakCount) == AddWindow(ScaleOf(r, o, cutoff), Sums(before, peaks), Pair(actual, upper))
  {
    hide Pinball, Excess, Shortfall, ScaleOf, MaxReal, AbsReal, Times;
    WindowScores(r, o, cutoff, actual, upper);
    metrics, peakCount := before, peaks;
    var shortfall := MaxReal(0.0, actual - upper);
    metrics := metrics.(windows := metrics.windows + 1);
    if shortfall > 0.0 {
      metrics := metrics.(underpredictionRate := metrics.underpredictionRate + 1.0);
    } else {
      metrics := metrics.(coverage := metrics.coverage + 1.0);
    }
    var relative := shortfall / MaxReal(1.0, actual);
    metrics := metrics.(
      meanAbsoluteError := metrics.meanAbsoluteError + AbsReal(actual - upper),
      meanUnderprediction := metrics.meanUnderprediction + shortfall,
      maxRelativeUnderprediction := MaxReal(metrics.maxRelativeUnderprediction, relative));
    var q := if r.quantile > 0.0 && r.quantile < 1.0 then r.quantile else 0.95;
    var loss := if actual >= upper then Times(q, actual - upper) else Times(1.0 - q, upper - actual);
    var excess := MaxReal(0.0, (Ceil(upper / o.threshold) - Ceil(actual / o.threshold)) as real);
    var replicaMinutes := Times(excess, r.horizon as real / MINUTE as real);
    metrics := metrics.(
      pinballLoss := metrics.pinballLoss + loss,
      excessReplicaMinutes := metrics.excessReplicaMinutes + replicaMinutes);
    if actual >= cutoff {
      metrics := metrics.(peakMeanUnderprediction := metrics.peakMeanUnderprediction + shortfall);
      peakCount := peakCount + 1;
    }
  }

  method Averages(sums: Metrics, peakCount: nat) returns (metrics: Metrics)
    requires sums.windows > 0
    ensures metrics == Finish(Sums(sums, peakCount))
  {
    metrics := sums;
    var n := metrics.windows as real;
    metrics := metrics.(coverage := metrics.coverage / n, underpredictionRate := metrics.underpredictionRate / n);
    metrics := metrics.(meanAbsoluteError := metrics.meanAbsoluteError / n, pinballLoss := metrics.pinballLoss / n);
    metrics := metrics.(meanUnderprediction := metrics.meanUnderprediction / n);
    if peakCount > 0 {
      metrics := metrics.(peakMeanUnderprediction := metrics.peakMeanUnderprediction / peakCount as real);
    }
  }

  method ScoreModel(name: Role, m: Model, r: Request, o: Options, s: seq<Sample>, segmentStart: array<int>,
                    actuals: seq<real>, cutoff: real, cuts: seq<int>) returns (result: Result<Metrics, Failure>)
    requires m.Model? && r.sampling > 0 && r.horizon > 0 && r.horizon % r.sampling == 0 && o.threshold > 0.0
    requires segmentStart.Length == |s| && forall i: nat :: i < |s| ==> segmentStart[i] == RunStart(s, r.sampling, i)
    requires cuts != []
    requires forall k :: 0 <= k < |cuts| ==> 0 < cuts[k] && cuts[k] + Steps(r.horizon, r.sampling) <= |s|
    requires actuals == Maxima(s, cuts, Steps(r.horizon, r.sampling))
    ensures result.Ok? ==>
      var pairs := PairsOf(m, o, s, r.sampling, Steps(r.horizon, r.sampling), cuts);
      && result.value == Score(ScaleOf(r, o, cutoff), pairs) && MeansOf(ScaleOf(r, o, cutoff), pairs, result.value)
      && forall k :: 0 <= k < |pairs| ==> ValidPair(pairs[k])
    ensures result.Err? ==>
      && (result.error == PredictionFailed(name) || result.error == InvalidPrediction(name))
      && exists k :: 0 <= k < |cuts| && IsFault(m, o, s, r.sampling, cuts[k], result.error.PredictionFailed?)
  {
    hide RunStart, HorizonMax, Steps, ScaleOf, MeansOf, Finish, AddWindow, Totals;
    ghost var c := ScaleOf(r, o, cutoff);
    assert c.threshold > 0.0 by { OnThreshold(r, o, cutoff); }
    ghost var pairs := PairsOf(m, o, s, r.sampling, Steps(r.horizon, r.sampling), cuts);
    var metrics, peakCount := NO_METRICS, 0;
    FirstTotals(c, pairs);
    for index := 0 to |cuts|
      invariant Sums(metrics, peakCount) == Totals(c, pairs[..index])
      invariant forall k :: 0 <= k < index ==> ValidPair(pairs[k])
    {
      var cut := cuts[index];
      var start := InputStart(m, o, r.sampling, cut, segmentStart[cut - 1]);
      var prediction := m.predict(s[start..cut]);
      assert s[start..cut] == InputOf(m, o, s, r.sampling, cut);
      assert prediction.None? ==> IsFault(m, o, s, r.sampling, cuts[index], true);
      if prediction.None? { return Err(PredictionFailed(name)); }
      assert !ValidPrediction(prediction.value) ==> IsFault(m, o, s, r.sampling, cuts[index], false);
      if prediction.value.p50 < 0.0 || prediction.value.p95 < prediction.value.p50 {
        return Err(InvalidPrediction(name));
      }
      var pair := Pair(actuals[index], prediction.value.p95);
      assert pair == pairs[index];
      NextTotals(c, pairs, index);
      metrics, peakCount := AddScore(r, o, cutoff, metrics, peakCount, actuals[index], prediction.value.p95);
    }
    assert pairs[..|cuts|] == pairs;
    ScoreIsMeans(c, pairs);
    metrics := Averages(metrics, peakCount);
    result := Ok(metrics);
  }

  lemma FirstTotals(c: Scale, pairs: seq<Pair>)
    requires c.threshold > 0.0
    ensures Totals(c, pairs[..0]) == Sums(NO_METRICS, 0)
  {
  }

  lemma NextTotals(c: Scale, pairs: seq<Pair>, k: nat)
    requires c.threshold > 0.0 && k < |pairs|
    ensures Totals(c, pairs[..k + 1]) == AddWindow(c, Totals(c, pairs[..k]), pairs[k])
  {
    assert pairs[..k + 1][..k] == pairs[..k];
  }

  lemma OnThreshold(r: Request, o: Options, cutoff: real)
    ensures ScaleOf(r, o, cutoff).threshold == o.threshold
  {
  }

  // ----- the comparison

  /** e is the comparison of the models on the windows `cuts`. */
  ghost predicate IsComparison(models: map<Role, Model>, observed: seq<Sample>, r: Request, o: Options,
                               history: nat, cuts: seq<int>, cutoff: real, e: Evidence) {
    && ValidContract(models, r, o) && ValidObservations(observed)
    && IsLongest(models, Steps(r.seasonal, r.sampling), history)
    && e.eligibleWindows * r.horizon >= o.minDuration * 9 / 10
    && ScoresWindows(models, Dedup(observed, r.sampling), r, o,
                     Grid(r.sampling, history, Steps(r.horizon, r.sampling), o.after), cuts, cutoff, e)
  }

  ghost predicate ScoresWindows(models: map<Role, Model>, s: seq<Sample>, r: Request, o: Options, g: Grid,
                                cuts: seq<int>, cutoff: real, e: Evidence)
    requires ValidContract(models, r, o)
  {
    && ValidGrid(g) && g.interval == r.sampling
    && SelectsWindows(models, s, o, g, cuts, e.eligibleWindows)
    && Spans(s, o, g, cuts, e.start, e.end)
    && (forall k :: 0 <= k < |cuts| ==> 0 < cuts[k] && cuts[k] + g.steps <= |s|)
      && cutoff == PeakCutoff(Maxima(s, cuts, g.steps))
    && e.metrics.Keys == models.Keys
    && forall name :: name in models ==> Scored(models[name], s, r, o, g, cuts, cutoff, e.metrics[name])
  }

  /** What the greedy scan yields: eligible disjoint windows, the first possible
      one each time, so that they overlap every eligible window. */
  ghost predicate IsScan(s: seq<Sample>, g: Grid, indexes: seq<int>)
    requires ValidGrid(g)
  {
    && AllEligible(s, g, indexes) && Spaced(indexes, g.steps)
    && forall c :: Eligible(s, g, c) ==> Covers(indexes, g.steps, c)
  }

  /** The scored windows are all the scan found, or an even sample of them. */
  ghost predicate IsCapped(scan: seq<int>, maximum: int, cuts: seq<int>) {
    if |scan| <= maximum then cuts == scan else maximum >= 2 && cuts == EvenSample(scan, maximum)
  }

  ghost predicate CutsFrom(s: seq<Sample>, g: Grid, maximum: int, cuts: seq<int>, eligible: nat)
    requires ValidGrid(g)
  {
    exists scan :: IsScan(s, g, scan) && |scan| == eligible && IsCapped(scan, maximum, cuts)
  }

  /** The windows are complete, disjoint, long enough for every model, and come
      from a largest possible family of such windows. */
  ghost predicate SelectsWindows(models: map<Role, Model>, s: seq<Sample>, o: Options, g: Grid, cuts: seq<int>,
                                 eligible: nat)
    requires ValidGrid(g)
  {
    && (forall name :: name in models ==>
        models[name].Model?
        && (models[name].lookback.Some? ==> models[name].lookback.value <= g.history))
    && AllEligible(s, g, cuts) && Spaced(cuts, g.steps) && 1 <= |cuts| <= eligible
    && |cuts| == Min(eligible, o.maxWindows) && o.minWindows <= eligible && CutsFrom(s, g, o.maxWindows, cuts, eligible)
    && forall family: set<int> :: Disjoint(family, g.steps) && (forall c :: c in family ==> Eligible(s, g, c)) ==>
         |family| <= eligible
  }

  /** Start and End are the origin of the first and the end of the last scored window. */
  ghost predicate Spans(s: seq<Sample>, o: Options, g: Grid, cuts: seq<int>, start: int, end: int)
    requires ValidGrid(g) && AllEligible(s, g, cuts) && cuts != []
  {
    && Eligible(s, g, cuts[0]) && Eligible(s, g, cuts[|cuts| - 1])
    && start == s[cuts[0] - 1].at && end == s[cuts[|cuts| - 1] + g.steps - 1].at
    && end - start >= o.minDuration
  }

  ghost predicate Scored(m: Model, s: seq<Sample>, r: Request, o: Options, g: Grid, cuts: seq<int>, cutoff: real,
                         score: Metrics)
    requires ValidGrid(g) && g.interval == r.sampling && AllEligible(s, g, cuts) && cuts != [] && o.threshold > 0.0
  {
    && m.Model?
    && (forall k :: 0 <= k < |cuts| ==> Eligible(s, g, cuts[k]))
    && var pairs := PairsOf(m, o, s, g.interval, g.steps, cuts);
    && score == Score(ScaleOf(r, o, cutoff), pairs) && MeansOf(ScaleOf(r, o, cutoff), pairs, score)
    && ScoreLaws(ScaleOf(r, o, cutoff), score, |cuts|)
  }

  lemma MinutesPositive(d: Duration)
    requires d > 0
    ensures d as real / MINUTE as real > 0.0
  {
  }

  /** No family of disjoint eligible windows is larger than the scan's. */
  lemma LargestFamily(s: seq<Sample>, g: Grid, indexes: seq<int>)
    requires ValidGrid(g) && Spaced(indexes, g.steps)
    requires forall cut :: Eligible(s, g, cut) ==> Covers(indexes, g.steps, cut)
    ensures forall family: set<int> :: Disjoint(family, g.steps) && (forall c :: c in family ==> Eligible(s, g, c)) ==>
              |family| <= |indexes|
  {
    hide Eligible, Covers, Disjoint, Spaced;
    forall family: set<int> | Disjoint(family, g.steps) && (forall c :: c in family ==> Eligible(s, g, c))
      ensures |family| <= |indexes|
    {
      NoLargerFamily(indexes, g.steps, family);
    }
  }

  /** The observed horizon maxima of the windows, accumulated from zero. */
  method Actuals(s: seq<Sample>, cuts: seq<int>, steps: nat) returns (actuals: seq<real>)
    requires forall k :: 0 <= k < |cuts| ==> 0 < cuts[k] && cuts[k] + steps <= |s|
    ensures actuals == Maxima(s, cuts, steps)
  {
    var maxima := new real[|cuts|](_ => 0.0);
    for i := 0 to |cuts|
      invariant forall k :: 0 <= k < i ==> maxima[k] == HorizonMax(s, cuts[k], steps)
      invariant forall k :: i <= k < |cuts| ==> maxima[k] == 0.0
    {
      var cut := cuts[i];
      for j := cut to cut + steps
        invariant maxima[i] == HorizonMax(s, cut, j - cut)
        invariant forall k :: 0 <= k < i ==> maxima[k] == HorizonMax(s, cuts[k], steps)
        invariant forall k :: i < k < |cuts| ==> maxima[k] == 0.0
      {
        maxima[i] := MaxReal(maxima[i], s[j].value);
      }
    }
    actuals := maxima[..];
  }

  lemma EligibleBounds(s: seq<Sample>, g: Grid, cuts: seq<int>)
    requires ValidGrid(g) && AllEligible(s, g, cuts)
    ensures forall k :: 0 <= k < |cuts| ==> 0 < cuts[k] && cuts[k] + g.steps <= |s|
  {
  }

  lemma FaultIsSomewhere(m: Model, s: seq<Sample>, o: Options, g: Grid, cuts: seq<int>, failed: bool)
    requires ValidGrid(g) && AllEligible(s, g, cuts)
    requires exists k :: 0 <= k < |cuts| && IsFault(m, o, s, g.interval, cuts[k], failed)
    ensures FailsSomewhere(m, s, o, g, failed)
  {
    hide Eligible, IsFault;
    var k :| 0 <= k < |cuts| && IsFault(m, o, s, g.interval, cuts[k], failed);
    assert Eligible(s, g, cuts[k]);
  }

  /** Scores every model on the same windows. */
  method ScoreModels(models: map<Role, Model>, r: Request, o: Options, s: seq<Sample>, g: Grid,
                     segmentStart: array<int>,
                     cuts: seq<int>) returns (result: Result<map<Role, Metrics>, Failure>, cutoff: real)
    requires ValidContract(models, r, o) && ValidGrid(g) && g.interval == r.sampling
             && g.steps == Steps(r.horizon, r.sampling)
    requires forall name :: name in models ==> models[name].Model?
    requires segmentStart.Length == |s| && forall i: nat :: i < |s| ==> segmentStart[i] == RunStart(s, r.sampling, i)
    requires AllEligible(s, g, cuts) && cuts != []
    ensures (forall k :: 0 <= k < |cuts| ==> 0 < cuts[k] && cuts[k] + g.steps <= |s|)
            && cutoff == PeakCutoff(Maxima(s, cuts, g.steps))
    ensures result.Ok? ==> result.value.Keys == models.Keys
    ensures result.Ok? ==> forall name :: name in models ==>
            Scored(models[name], s, r, o, g, cuts, cutoff, result.value[name])
    ensures result.Err? ==>
      && (result.error.PredictionFailed? || result.error.InvalidPrediction?) && result.error.name in models
      && FailsSomewhere(models[result.error.name], s, o, g, result.error.PredictionFailed?)
  {
    hide RunStart, HorizonMax, Score, ScoreLaws, MeansOf, PairsOf, Eligible, Maxima, Sorted, IsFault;
    EligibleBounds(s, g, cuts);
    var actuals := Actuals(s, cuts, g.steps);
    assert 0 <= (|actuals| - 1) * 9 / 10 == PeakRank(|actuals|) < |actuals|;
    cutoff := Sorted(actuals)[(|actuals| - 1) * 9 / 10];
    var metrics: map<Role, Metrics> := map[];
    var pending := models.Keys;
    while pending != {}
      invariant pending <= models.Keys && metrics.Keys == models.Keys - pending
      invariant forall name :: name in metrics ==> Scored(models[name], s, r, o, g, cuts, cutoff, metrics[name])
      decreases |pending|
    {
      ghost var some := Member(pending);
      var name :| name in pending;
      pending := pending - {name};
      var score := ScoreModel(name, models[name], r, o, s, segmentStart, actuals, cutoff, cuts);
      if score.Err? {
        FaultIsSomewhere(models[name], s, o, g, cuts, score.error.PredictionFailed?);
        return Err(score.error), cutoff;
      }
      MinutesPositive(r.horizon);
      ScoringLaws(ScaleOf(r, o, cutoff), PairsOf(models[name], o, s, r.sampling, g.steps, cuts));
      assert Scored(models[name], s, r, o, g, cuts, cutoff, score.value);
      metrics := metrics[name := score.value];
    }
    result := Ok(metrics);
  }

  /** The windows span too little time, from the first origin to the last
      target, or cover too little of it. */
  ghost predicate TooBrief(s: seq<Sample>, g: Grid, indexes: seq<int>, o: Options, horizon: Duration)
    requires ValidGrid(g)
  {
    && indexes != [] && Eligible(s, g, indexes[0]) && Eligible(s, g, indexes[|indexes| - 1])
    && (s[indexes[|indexes| - 1] + g.steps - 1].at - s[indexes[0] - 1].at < o.minDuration
        || |indexes| * horizon < o.minDuration * 9 / 10)
  }

  ghost predicate BriefScan(s: seq<Sample>, g: Grid, o: Options, horizon: Duration)
    requires ValidGrid(g)
  {
    exists indexes :: IsScan(s, g, indexes) && TooBrief(s, g, indexes, o, horizon)
  }

  /** Every family of disjoint eligible windows has fewer than n members. */
  ghost predicate LargestBelow(s: seq<Sample>, g: Grid, n: int)
    requires ValidGrid(g)
  {
    forall family: set<int> :: Disjoint(family, g.steps) && (forall c :: c in family ==> Eligible(s, g, c)) ==>
      |family| < n
  }

  lemma ScanIsLargest(s: seq<Sample>, g: Grid, indexes: seq<int>, n: int)
    requires ValidGrid(g) && IsScan(s, g, indexes)
    ensures LargestBelow(s, g, n) <==> |indexes| < n
  {
    hide Eligible, Covers;
    LargestFamily(s, g, indexes);
    var family := Members(indexes, g.steps);
    forall c | c in family ensures Eligible(s, g, c) {
      var k :| 0 <= k < |indexes| && indexes[k] == c;
    }
    MembersAreDisjoint(indexes, g.steps, family);
  }

  /** The selected windows as a family. */
  lemma {:induction false} Members(indexes: seq<int>, steps: nat) returns (family: set<int>)
    requires Spaced(indexes, steps) && steps > 0
    ensures |family| == |indexes| && forall c :: c in family <==> c in indexes
  {
    if indexes == [] {
      family := {};
    } else {
      var n := |indexes| - 1;
      var rest := Members(indexes[..n], steps);
      family := rest + {indexes[n]};
      forall k | 0 <= k < n ensures indexes[k] < indexes[n] {
        assert indexes[k] + steps <= indexes[n];
      }
      assert indexes[n] !in indexes[..n] && |family| == |rest| + 1;
      assert indexes == indexes[..n] + [indexes[n]];
    }
  }

  lemma MembersAreDisjoint(indexes: seq<int>, steps: nat, family: set<int>)
    requires Spaced(indexes, steps) && forall c :: c in family <==> c in indexes
    ensures Disjoint(family, steps)
  {
    forall a, b | a in family && b in family && a < b ensures a + steps <= b {
      var j :| 0 <= j < |indexes| && indexes[j] == a;
      var k :| 0 <= k < |indexes| && indexes[k] == b;
      assert j < k || k < j;
    }
  }

  lemma NextAgrees(a: seq<int>, b: seq<int>, steps: nat, n: nat)
    requires Spaced(a, steps) && Spaced(b, steps) && n < |a| && n <= |b| && forall k :: 0 <= k < n ==> a[k] == b[k]
    requires Covers(b, steps, a[n]) && (n < |b| ==> Covers(a, steps, b[n]))
    ensures n < |b| && a[n] == b[n]
  {
    var k :| 0 <= k < |b| && b[k] <= a[n] < b[k] + steps;
    assert k >= n;
    var j :| 0 <= j < |a| && a[j] <= b[n] < a[j] + steps;
    assert j >= n;
  }

  lemma {:induction false} ScansAgree(s: seq<Sample>, g: Grid, a: seq<int>, b: seq<int>, n: nat)
    requires ValidGrid(g) && IsScan(s, g, a) && IsScan(s, g, b) && n <= |a|
    ensures n <= |b| && forall k :: 0 <= k < n ==> a[k] == b[k]
  {
    hide Eligible, Covers, Spaced;
    if n > 0 {
      ScansAgree(s, g, a, b, n - 1);
      NextAgrees(a, b, g.steps, n - 1);
    }
  }

  /** There is only one greedy scan. */
  lemma ScanIsUnique(s: seq<Sample>, g: Grid, a: seq<int>, b: seq<int>)
    requires ValidGrid(g) && IsScan(s, g, a) && IsScan(s, g, b)
    ensures a == b
  {
    hide IsScan;
    ScansAgree(s, g, a, b, |a|);
    ScansAgree(s, g, b, a, |b|);
    assert a[..|a|] == a && b[..|b|] == b;
  }

  lemma BriefExactly(s: seq<Sample>, g: Grid, indexes: seq<int>, o: Options, horizon: Duration)
    requires ValidGrid(g) && IsScan(s, g, indexes)
    ensures BriefScan(s, g, o, horizon) <==> TooBrief(s, g, indexes, o, horizon)
  {
    hide IsScan, TooBrief;
    if BriefScan(s, g, o, horizon) {
      var other :| IsScan(s, g, other) && TooBrief(s, g, other, o, horizon);
      ScanIsUnique(s, g, indexes, other);
    }
  }

  datatype Selection = Selection(start: int, end: int, eligible: nat, cuts: seq<int>)

  /** The windows to score: the greedy scan, the evidence limits, the cap. */
  method SelectWindows(models: map<Role, Model>, r: Request, o: Options, s: seq<Sample>, g: Grid, gaps: array<int>)
    returns (result: Result<Selection, Failure>)
    requires ValidContract(models, r, o) && ValidGrid(g) && StrictlyOrdered(s) && gaps.Length == |s|
    requires forall i: nat :: i < |s| ==> gaps[i] == Breaks(s, g.interval, i)
    requires forall name :: name in models ==> models[name].Model? && Need(models[name], 0) <= g.history
    ensures result.Ok? ==> var w := result.value;
            SelectsWindows(models, s, o, g, w.cuts, w.eligible)
            && Spans(s, o, g, w.cuts, w.start, w.end)
    ensures result.Ok? ==> result.value.eligible * r.horizon >= o.minDuration * 9 / 10
    ensures result.Ok? && o.maxWindows == 1 ==> result.value.eligible == 1
    ensures result == Err(InsufficientWindows) <==> LargestBelow(s, g, o.minWindows)
    ensures result == Err(InsufficientDuration) <==> !LargestBelow(s, g, o.minWindows) && BriefScan(s, g, o, r.horizon)
    ensures result == Err(DivisionByZero) <==>
            o.maxWindows == 1 && !LargestBelow(s, g, 2)
            && !BriefScan(s, g, o, r.horizon)
    ensures result.Err? ==> result.error in {InsufficientWindows, InsufficientDuration, DivisionByZero}
  {
    hide Eligible, Covers, Disjoint, Complete, Spaced;
    var indexes := ScanWindows(s, g, gaps);
    ghost var scan := indexes;
    LargestFamily(s, g, indexes);
    EligibleBounds(s, g, indexes);
    var eligible := |indexes|;
    ScanIsLargest(s, g, indexes, o.minWindows);
    ScanIsLargest(s, g, indexes, 2);
    BriefExactly(s, g, indexes, o, r.horizon);
    if eligible < o.minWindows { return Err(InsufficientWindows); }
    var start, end := s[indexes[0] - 1].at, s[indexes[eligible - 1] + g.steps - 1].at;
    if end - start < o.minDuration || eligible * r.horizon < o.minDuration * 9 / 10 {
      assert IsScan(s, g, indexes) && TooBrief(s, g, indexes, o, r.horizon);
      return Err(InsufficientDuration);
    }
    if eligible > o.maxWindows {
      if o.maxWindows == 1 { return Err(DivisionByZero); }
      var all := indexes;
      indexes := Subsample(all, o.maxWindows);
      SubsetEligible(s, g, all, indexes);
    }
    assert CutsFrom(s, g, o.maxWindows, indexes, eligible) by { assert IsScan(s, g, scan); }
    result := Ok(Selection(start, end, eligible, indexes));
  }

  /** The contract, the observations and the models are in order, so the windows
      are looked at. */
  predicate Reaches(models: map<Role, Model>, observed: seq<Sample>, r: Request, o: Options) {
    ValidContract(models, r, o) && ValidObservations(observed) && !AnyNil(models)
  }

  /** The fact about the input that each failure reports. */
  ghost predicate IsJustified(models: map<Role, Model>, observed: seq<Sample>, r: Request, o: Options, f: Failure) {
    match f
    case InvalidContract => !ValidContract(models, r, o)
    case InvalidObservations => ValidContract(models, r, o) && !ValidObservations(observed)
    case MissingModel => ValidContract(models, r, o) && ValidObservations(observed) && AnyNil(models)
    case _ => Reaches(models, observed, r, o) &&
              exists history :: IsLongest(models, Steps(r.seasonal, r.sampling), history) && history > 0 &&
                IsWindowFailure(models, Dedup(observed, r.sampling), r, o,
                                Grid(r.sampling, history, Steps(r.horizon, r.sampling), o.after), f)
  }

  ghost predicate IsWindowFailure(models: map<Role, Model>, s: seq<Sample>, r: Request, o: Options, g: Grid, f: Failure)
    requires ValidGrid(g)
  {
    match f
    case InsufficientWindows => LargestBelow(s, g, o.minWindows)
    case InsufficientDuration => !LargestBelow(s, g, o.minWindows) && BriefScan(s, g, o, r.horizon)
    case DivisionByZero => o.maxWindows == 1 && !LargestBelow(s, g, 2) && !BriefScan(s, g, o, r.horizon)
    case PredictionFailed(name) => name in models && FailsSomewhere(models[name], s, o, g, true)
    case InvalidPrediction(name) => name in models && FailsSomewhere(models[name], s, o, g, false)
    case _ => false
  }

  /** Failures that leave no choice of a model to blame. */
  predicate AboutWindows(f: Failure) { f in {InsufficientWindows, InsufficientDuration, DivisionByZero} }

  /** The model fails on some window that may be scored. */
  ghost predicate FailsSomewhere(m: Model, s: seq<Sample>, o: Options, g: Grid, failed: bool)
    requires ValidGrid(g)
  {
    exists cut :: Eligible(s, g, cut) && IsFault(m, o, s, g.interval, cut, failed)
  }

  /** From the deduplicated samples on: gaps, windows, scores. */
  method CompareOn(models: map<Role, Model>, r: Request, o: Options, s: seq<Sample>, g: Grid, fingerprint: string)
    returns (result: Result<Evidence, Failure>)
    requires ValidContract(models, r, o) && ValidGrid(g) && StrictlyOrdered(s)
    requires g.interval == r.sampling && g.steps == Steps(r.horizon, r.sampling)
    requires forall name :: name in models ==> models[name].Model? && Need(models[name], 0) <= g.history
    ensures result.Ok? ==> exists cuts, cutoff :: ScoresWindows(models, s, r, o, g, cuts, cutoff, result.value)
    ensures result.Ok? ==>
            result.value.fingerprint == fingerprint
            && result.value.eligibleWindows * r.horizon >= o.minDuration * 9 / 10
    ensures result.Ok? && o.maxWindows == 1 ==> result.value.eligibleWindows == 1
    ensures result.Err? ==>
            IsWindowFailure(models, s, r, o, g, result.error)
            && result.error !in {InvalidContract, InvalidObservations, MissingModel}
    ensures forall f :: AboutWindows(f) ==> (result == Err(f) <==> IsWindowFailure(models, s, r, o, g, f))
  {
    hide LargestBelow, BriefScan, IsFault, Scored, StrictlyOrdered, Breaks, RunStart, Spans, SelectsWindows,
      FailsSomewhere, Need;
    var gaps, segmentStart := CountGaps(s, r.sampling);
    var selected := SelectWindows(models, r, o, s, g, gaps);
    if selected.Err? { return Err(selected.error); }
    var w := selected.value;
    SelectedWindows(models, s, o, g, w.cuts, w.eligible);
    var scores, cutoff := ScoreModels(models, r, o, s, g, segmentStart, w.cuts);
    if scores.Err? { return Err(scores.error); }
    var e := Evidence(w.start, w.end, fingerprint, w.eligible, scores.value);
    assert ScoresWindows(models, s, r, o, g, w.cuts, cutoff, e);
    result := Ok(e);
  }

  lemma SelectedWindows(models: map<Role, Model>, s: seq<Sample>, o: Options, g: Grid, cuts: seq<int>, eligible: nat)
    requires ValidGrid(g) && SelectsWindows(models, s, o, g, cuts, eligible)
    ensures AllEligible(s, g, cuts) && cuts != []
  {
    hide Eligible, Disjoint, Spaced;
  }

  method CompareArtifacts(models: map<Role, Model>, observed: seq<Sample>, r: Request, o: Options,
                          digest: seq<Sample> -> string) returns (result: Result<Evidence, Failure>)
    ensures result == Err(InvalidContract) <==> !ValidContract(models, r, o)
    ensures result == Err(InvalidObservations) <==> ValidContract(models, r, o) && !ValidObservations(observed)
    ensures result.Ok? ==> exists history, cuts, cutoff ::
            IsComparison(models, observed, r, o, history, cuts, cutoff, result.value)
    ensures result.Ok? ==> result.value.fingerprint == digest(Dedup(observed, r.sampling))
    ensures result == Err(MissingModel) <==>
            ValidContract(models, r, o) && ValidObservations(observed)
            && AnyNil(models)
    ensures result.Err? ==> IsJustified(models, observed, r, o, result.error)
    ensures forall f :: AboutWindows(f) ==> (result == Err(f) <==> IsJustified(models, observed, r, o, f))
    ensures result.Ok? && o.maxWindows == 1 ==> result.value.eligibleWindows == 1
  {
    hide IsWindowFailure, ScoresWindows, ValidObservations, StrictlyOrdered;
    var interval := r.sampling;
    if interval <= 0 || r.horizon <= 0 || r.horizon % interval != 0 || r.seasonal <= 0 || r.seasonal % interval != 0
      || |models| == 0 || o.minWindows < 1 || o.maxWindows < o.minWindows || o.minDuration <= 0 || o.threshold <= 0.0
    {
      return Err(InvalidContract);
    }
    var slots := KeepLatest(observed, r.sampling, true);
    if slots.None? { return Err(InvalidObservations); }
    var s := slots.value;
    OrderedDedup(observed, r.sampling);
    var needed := HistoryNeeded(models, Steps(r.seasonal, r.sampling));
    if needed.Err? { return Err(MissingModel); }
    var g := Grid(r.sampling, needed.value, Steps(r.horizon, r.sampling), o.after);
    result := CompareOn(models, r, o, s, g, digest(s));
    forall f | AboutWindows(f) && IsJustified(models, observed, r, o, f)
      ensures IsWindowFailure(models, s, r, o, g, f)
    {
      OneHistory(models, observed, r, o, f, needed.value);
    }
    if result.Ok? {
      ghost var cuts, cutoff :| ScoresWindows(models, s, r, o, g, cuts, cutoff, result.value);
      assert IsComparison(models, observed, r, o, needed.value, cuts, cutoff, result.value);
    }
  }

  lemma OneHistory(models: map<Role, Model>, observed: seq<Sample>, r: Request, o: Options, f: Failure, history: nat)
    requires AboutWindows(f) && IsJustified(models, observed, r, o, f) && Reaches(models, observed, r, o)
    requires IsLongest(models, Steps(r.seasonal, r.sampling), history) && history > 0
    ensures IsWindowFailure(models, Dedup(observed, r.sampling), r, o,
                            Grid(r.sampling, history, Steps(r.horizon, r.sampling), o.after), f)
  {
    hide IsWindowFailure, Need, Dedup;
  }

  lemma SubsetEligible(s: seq<Sample>, g: Grid, all: seq<int>, cuts: seq<int>)
    requires ValidGrid(g) && AllEligible(s, g, all) && forall k :: 0 <= k < |cuts| ==> cuts[k] in all
    ensures AllEligible(s, g, cuts)
  {
    hide Eligible;
    forall k | 0 <= k < |cuts| ensures Eligible(s, g, cuts[k]) {
      var j :| 0 <= j < |all| && all[j] == cuts[k];
    }
  }

  lemma OrderedDedup(observed: seq<Sample>, interval: Duration)
    requires interval > 0 && ValidObservations(observed)
    ensures StrictlyOrdered(Dedup(observed, interval))
  {
    DedupSlotsIncrease(observed, interval);
  }

  // ----- the division by zero

  /** Three samples, two windows of one slot each, and room for one. */
  lemma OneWindowDivides(model: Model, q: real)
    requires model.Model? && model.lookback.None? && model.engine != "holt-winters"
    ensures var observed := [Sample(MINUTE, 1.0), Sample(2 * MINUTE, 1.0), Sample(3 * MINUTE, 1.0)];
            IsJustified(map[Candidate := model], observed, Request(MINUTE, MINUTE, MINUTE, q),
                        Options(0, MINUTE, 1, 1, 1.0, MINUTE), DivisionByZero)
  {
    hide Dedup, LargestBelow, BriefScan, IsScan, Eligible;
    var observed := [Sample(MINUTE, 1.0), Sample(2 * MINUTE, 1.0), Sample(3 * MINUTE, 1.0)];
    var models, r, o := map[Candidate := model], Request(MINUTE, MINUTE, MINUTE, q),
      Options(0, MINUTE, 1, 1, 1.0, MINUTE);
    var g := Grid(MINUTE, 1, 1, 0);
    TwoWindows(observed, g);
    OwnSlots(observed);
    ScanIsLargest(observed, g, [1, 2], 2);
    BriefExactly(observed, g, [1, 2], o, MINUTE);
    OneStep();
    assert Need(model, 1) == 1 && !AnyNil(models);
    assert IsLongest(models, 1, 1);
    assert Candidate in models;
    assert ValidContract(models, r, o);
    assert g == Grid(r.sampling, 1, Steps(r.horizon, r.sampling), o.after);
    assert !TooBrief(observed, g, [1, 2], o, MINUTE);
    assert IsWindowFailure(models, observed, r, o, g, DivisionByZero);
  }

  lemma OneStep()
    ensures MINUTE % MINUTE == 0 && Steps(MINUTE, MINUTE) == 1
  {
  }

  lemma OwnSlots(s: seq<Sample>)
    requires s == [Sample(MINUTE, 1.0), Sample(2 * MINUTE, 1.0), Sample(3 * MINUTE, 1.0)]
    ensures Dedup(s, MINUTE) == s && ValidObservations(s)
  {
    assert ValidObservations(s);
    MinuteSlots();
    assert s[..2][..1] == [s[0]] && s[..2][..1][..0] == [];
    assert Dedup(s[..1], MINUTE) == s[..1] by { assert s[..1][..0] == []; }
    assert s[..2][..1] == s[..1];
    assert Dedup(s[..2], MINUTE) == s[..2];
  }

  lemma MinuteSlots()
    ensures Slot(MINUTE, MINUTE) == 1 && Slot(2 * MINUTE, MINUTE) == 2 && Slot(3 * MINUTE, MINUTE) == 3
  {
  }

  lemma TwoWindows(s: seq<Sample>, g: Grid)
    requires s == [Sample(MINUTE, 1.0), Sample(2 * MINUTE, 1.0), Sample(3 * MINUTE, 1.0)] && g == Grid(MINUTE, 1, 1, 0)
    ensures IsScan(s, g, [1, 2]) && Eligible(s, g, 1) && Eligible(s, g, 2)
  {
    MinuteSlots();
    hide Slot;
    var cuts := [1, 2];
    assert Follows(s, MINUTE, 1) && Follows(s, MINUTE, 2);
    forall c | Eligible(s, g, c) ensures Covers(cuts, 1, c) {
      if c == 1 { assert cuts[0] <= c < cuts[0] + 1; } else { assert cuts[1] <= c < cuts[1] + 1; }
    }
  }

  // ----- what a comparison establishes

  /** Evidence never uses a target observed before the cutoff, spans at least
      the minimum duration, and gives every model valid scores over the same
      windows. */
  lemma EvidenceIsSound(models: map<Role, Model>, observed: seq<Sample>, r: Request, o: Options,
                        history: nat, cuts: seq<int>, cutoff: real, e: Evidence)
    requires IsComparison(models, observed, r, o, history, cuts, cutoff, e)
    ensures o.after <= e.start && e.start + o.minDuration <= e.end
    ensures e.metrics.Keys == models.Keys
    ensures forall name :: name in models ==> ValidMetrics(e.metrics[name]) && e.metrics[name].windows == |cuts|
  {
    hide Score, PairsOf, HorizonMax, Complete;
    forall name | name in models ensures ValidMetrics(e.metrics[name]) && e.metrics[name].windows == |cuts| {
      ScoresAreValid(ScaleOf(r, o, cutoff), e.metrics[name], |cuts|);
    }
  }
}
