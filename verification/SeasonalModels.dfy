/** The two seasonal reference models, Holt-Winters smoothing
    (internal/forecast/holt_winters.go) and the seasonal-naive baseline
    (internal/forecast/baseline.go), and where they must agree. */
module SeasonalModels {
  import opened RealArithmetic
  import opened Observations
  import opened Wrappers

  datatype Request = Request(horizon: Duration, interval: Duration, period: Duration)

  datatype Failure = InvalidRequest | ShortHistory

  datatype Parameters = Parameters(alpha: real, beta: real, gamma: real)

  /** A parameter of zero means its default. */
  function Defaulted(p: Parameters): Parameters {
    Parameters(if p.alpha == 0.0 then 0.3 else p.alpha,
               if p.beta == 0.0 then 0.1 else p.beta,
               if p.gamma == 0.0 then 0.2 else p.gamma)
  }

  predicate WholeSteps(r: Request) {
    r.horizon > 0 && r.interval > 0 && r.period > 0 && r.horizon % r.interval == 0 && r.period % r.interval == 0
  }

  lemma WholeStepsArePositive(r: Request)
    requires WholeSteps(r)
    ensures r.horizon / r.interval >= 1 && r.period / r.interval >= 1
  {
    WholeQuotient(r.horizon, r.interval);
    WholeQuotient(r.period, r.interval);
  }

  // ----- the highest value of a horizon

  function Highest(s: seq<real>): (m: real)
    requires s != []
  {
    if |s| == 1 then s[0] else MaxReal(Highest(s[..|s| - 1]), s[|s| - 1])
  }

  lemma {:induction false} HighestIsMaximum(s: seq<real>)
    requires s != []
    ensures Highest(s) in s && forall i :: 0 <= i < |s| ==> s[i] <= Highest(s)
  {
    if |s| > 1 {
      HighestIsMaximum(s[..|s| - 1]);
      assert forall i :: 0 <= i < |s| - 1 ==> s[i] == s[..|s| - 1][i];
    }
  }

  lemma HighestGrows(s: seq<real>, x: real)
    ensures Highest(s + [x]) == if s == [] then x else MaxReal(Highest(s), x)
  {
    assert (s + [x])[..|s|] == s;
  }

  // ----- seasonal naive

  /** The last season, repeated over the horizon. */
  function Repeated(history: seq<real>, p: nat, steps: nat): (r: seq<real>)
    requires 1 <= p <= |history|
    ensures |r| == steps
  {
    seq(steps, k requires 0 <= k < steps => history[|history| - p + k % p])
  }

  method PredictHorizonMax(history: seq<real>, p: int, steps: int) returns (r: Result<real, Failure>)
    ensures r == Err(InvalidRequest) <==> p < 1 || steps < 1
    ensures r == Err(ShortHistory) <==> p >= 1 && steps >= 1 && |history| < p
    ensures r.Ok? <==> 1 <= p <= |history| && steps >= 1
    ensures r.Ok? ==> r.value == Highest(Repeated(history, p, steps))
  {
    if p < 1 || steps < 1 { return Err(InvalidRequest); }
    if |history| < p { return Err(ShortHistory); }
    var maximum := 0.0;
    hide Highest;
    for step := 0 to steps
      invariant step > 0 ==> maximum == Highest(Repeated(history, p, step))
    {
      var value := history[|history| - p + step % p];
      HighestGrows(Repeated(history, p, step), value);
      assert Repeated(history, p, step) + [value] == Repeated(history, p, step + 1);
      if step == 0 || value > maximum { maximum := value; }
    }
    r := Ok(maximum);
  }

  /** The seasonal-naive forecast of a request. */
  function NaiveForecast(samples: seq<Sample>, q: Request): (r: Result<real, Failure>)
    ensures r == Err(InvalidRequest) <==> !WholeSteps(q)
    ensures r == Err(ShortHistory) <==> WholeSteps(q) && |samples| < q.period / q.interval
  {
    if !WholeSteps(q) then Err(InvalidRequest)
    else
      WholeStepsArePositive(q);
      if |samples| < q.period / q.interval then Err(ShortHistory)
      else Ok(Highest(Repeated(Values(samples), q.period / q.interval, q.horizon / q.interval)))
  }

  method PredictNaive(samples: seq<Sample>, q: Request) returns (r: Result<real, Failure>)
    ensures r == NaiveForecast(samples, q)
  {
    hide Highest, Repeated;
    if q.horizon <= 0 || q.interval <= 0 || q.period <= 0 { return Err(InvalidRequest); }
    if q.horizon % q.interval != 0 || q.period % q.interval != 0 { return Err(InvalidRequest); }
    WholeStepsArePositive(q);
    r := PredictHorizonMax(Values(samples), q.period / q.interval, q.horizon / q.interval);
  }

  // ----- Holt-Winters

  datatype Smoothing = Smoothing(level: real, trend: real, seasonals: seq<real>)

  function Mean(v: seq<real>): real
    requires v != []
  {
    Sum(v) / |v| as real
  }

  /** Level and trend from the first two seasons, residuals from the first. */
  function Start(v: seq<real>, p: nat): (s: Smoothing)
    requires 1 <= p && 2 * p <= |v|
    ensures |s.seasonals| == p
  {
    var level := Mean(v[..p]);
    Smoothing(level, (Mean(v[p..2 * p]) - level) / p as real, seq(p, i requires 0 <= i < p => v[i] - level))
  }

  /** A weighted mean of what is seen and what was expected. */
  function Blend(w: real, seen: real, expected: real): real { w * seen + (1.0 - w) * expected }

  /** The weight says how far to go from what was expected to what is seen. */
  lemma BlendExactly(w: real, seen: real, expected: real)
    ensures Blend(1.0, seen, expected) == seen && Blend(0.0, seen, expected) == expected
    ensures Blend(w, seen, expected) - expected == w * (seen - expected)
  {
  }

  function Update(s: Smoothing, value: real, index: nat, m: Parameters): (r: Smoothing)
    requires index < |s.seasonals|
    ensures |r.seasonals| == |s.seasonals|
  {
    var level := Blend(m.alpha, value - s.seasonals[index], s.level + s.trend);
    Smoothing(level, Blend(m.beta, level - s.level, s.trend),
              s.seasonals[index := Blend(m.gamma, value - level, s.seasonals[index])])
  }

  /** What the extreme weights take over of a value: all of it, so that level and
      seasonal meet it, or nothing. */
  lemma UpdateExactly(s: Smoothing, value: real, index: nat, m: Parameters)
    requires index < |s.seasonals|
    ensures var r := Update(s, value, index, m);
            && (m.alpha == 1.0 ==> r.level + s.seasonals[index] == value)
            && (m.alpha == 0.0 ==> r.level == s.level + s.trend)
            && (m.beta == 1.0 ==> r.trend == r.level - s.level)
            && (m.beta == 0.0 ==> r.trend == s.trend)
            && (m.gamma == 1.0 ==> r.level + r.seasonals[index] == value)
            && (m.gamma == 0.0 ==> r.seasonals[index] == s.seasonals[index])
            && forall i :: 0 <= i < |s.seasonals| && i != index ==> r.seasonals[i] == s.seasonals[i]
  {
    hide Blend;
    BlendExactly(m.alpha, value - s.seasonals[index], s.level + s.trend);
    var r := Update(s, value, index, m);
    BlendExactly(m.beta, r.level - s.level, s.trend);
    BlendExactly(m.gamma, value - r.level, s.seasonals[index]);
  }

  lemma {:induction false} SumRises(v: seq<real>, w: seq<real>, rise: real)
    requires |v| == |w| && forall i :: 0 <= i < |v| ==> w[i] == v[i] + rise
    ensures Sum(w) == Sum(v) + |v| as real * rise
  {
    if v != [] {
      var n := |v| - 1;
      SumRises(v[..n], w[..n], rise);
      assert (n + 1) as real * rise == n as real * rise + rise;
    }
  }

  /** When the second season repeats the first one higher, the trend is the rise
      per sample, and level and seasonals together are the first season. */
  lemma StartFindsTheSlope(v: seq<real>, p: nat, slope: real)
    requires 1 <= p && 2 * p <= |v| && forall i :: 0 <= i < p ==> v[p + i] == v[i] + p as real * slope
    ensures Start(v, p).trend == slope
    ensures forall i :: 0 <= i < p ==> Start(v, p).level + Start(v, p).seasonals[i] == v[i]
  {
    hide Sum;
    var first, second, n := v[..p], v[p..2 * p], p as real;
    SumRises(first, second, n * slope);
    assert Mean(first) == Sum(first) / n && Mean(second) == (Sum(first) + n * (n * slope)) / n;
    MeanRises(Sum(first), n, slope);
  }

  lemma MeanRises(sum: real, n: real, slope: real)
    requires n > 0.0
    ensures ((sum + n * (n * slope)) / n - sum / n) / n == slope
  {
    assert (sum + n * (n * slope)) / n - sum / n == n * slope;
  }

  /** The state after the values before position n. */
  function Smoothed(v: seq<real>, p: nat, m: Parameters, n: nat): (s: Smoothing)
    requires 1 <= p && 2 * p <= |v| && p <= n <= |v|
    ensures |s.seasonals| == p
  {
    if n == p then Start(v, p) else Update(Smoothed(v, p, m, n - 1), v[n - 1], (n - 1) % p, m)
  }

  function Drift(step: nat, trend: real): real { step as real * trend }

  function Projection(s: Smoothing, n: nat, step: nat): real
    requires s.seasonals != []
  {
    s.level + Drift(step, s.trend) + s.seasonals[(n + step) % |s.seasonals|]
  }

  /** One value a step, from the first step after the n observations. */
  function Projected(s: Smoothing, n: nat, steps: nat): (r: seq<real>)
    requires s.seasonals != [] && n > 0
    ensures |r| == steps
  {
    seq(steps, k requires 0 <= k < steps => Projection(s, n - 1, k + 1))
  }

  method MeanOf(v: seq<real>) returns (mean: real)
    requires v != []
    ensures mean == Mean(v)
  {
    var sum := 0.0;
    for i := 0 to |v|
      invariant sum == Sum(v[..i])
    {
      assert v[..i + 1][..i] == v[..i];
      sum := sum + v[i];
    }
    assert v[..|v|] == v;
    mean := sum / |v| as real;
  }

  method Smooth(v: seq<real>, p: nat, m: Parameters) returns (level: real, trend: real, seasonals: array<real>)
    requires 1 <= p && 2 * p <= |v|
    ensures Smoothing(level, trend, seasonals[..]) == Smoothed(v, p, m, |v|)
  {
    hide Mean, Blend;
    level := MeanOf(v[..p]);
    var nextLevel := MeanOf(v[p..2 * p]);
    trend := (nextLevel - level) / p as real;
    seasonals := new real[p](i requires 0 <= i < p => v[i] - level);
    assert seasonals[..] == Start(v, p).seasonals;
    hide Start;
    for i := p to |v|
      invariant Smoothing(level, trend, seasonals[..]) == Smoothed(v, p, m, i)
    {
      ghost var before := seasonals[..];
      var index := i % p;
      var previousLevel := level;
      level := Blend(m.alpha, v[i] - seasonals[index], level + trend);
      trend := Blend(m.beta, level - previousLevel, trend);
      seasonals[index] := Blend(m.gamma, v[i] - level, seasonals[index]);
      assert seasonals[..] == before[index := seasonals[index]];
    }
  }

  /** The Holt-Winters forecast of a request. */
  function HoltWintersForecast(samples: seq<Sample>, q: Request, model: Parameters): (r: Result<real, Failure>)
    ensures r == Err(InvalidRequest) <==> !WholeSteps(q)
    ensures r == Err(ShortHistory) <==> WholeSteps(q) && |samples| < 2 * (q.period / q.interval)
  {
    if !WholeSteps(q) then Err(InvalidRequest)
    else
      WholeStepsArePositive(q);
      var v, p := Values(samples), q.period / q.interval;
      if |samples| < 2 * p then Err(ShortHistory)
      else Ok(MaxReal(0.0, Highest(Projected(Smoothed(v, p, Defaulted(model), |v|), |v|, q.horizon / q.interval))))
  }

  method PredictHoltWinters(samples: seq<Sample>, q: Request, model: Parameters) returns (r: Result<real, Failure>)
    ensures r == HoltWintersForecast(samples, q, model)
  {
    if q.horizon <= 0 || q.interval <= 0 || q.period <= 0 || q.horizon % q.interval != 0 || q.period % q.interval != 0 {
      return Err(InvalidRequest);
    }
    WholeStepsArePositive(q);
    var p := q.period / q.interval;
    if |samples| < 2 * p { return Err(ShortHistory); }
    var values := Values(samples);
    var alpha, beta, gamma := model.alpha, model.beta, model.gamma;
    if alpha == 0.0 { alpha := 0.3; }
    if beta == 0.0 { beta := 0.1; }
    if gamma == 0.0 { gamma := 0.2; }
    var level, trend, seasonals := Smooth(values, p, Parameters(alpha, beta, gamma));
    assert Parameters(alpha, beta, gamma) == Defaulted(model);
    hide Highest, Smoothed, Defaulted, Projected;
    var maximum := HorizonMax(level, trend, seasonals, |values|, q.horizon / q.interval);
    r := Ok(MaxReal(0.0, maximum));
  }

  method HorizonMax(level: real, trend: real, seasonals: array<real>, n: nat, steps: nat) returns (maximum: real)
    requires seasonals.Length > 0 && n > 0 && steps > 0
    ensures maximum == Highest(Projected(Smoothing(level, trend, seasonals[..]), n, steps))
  {
    hide Highest;
    ghost var s := Smoothing(level, trend, seasonals[..]);
    maximum := 0.0;
    for step := 1 to steps + 1
      invariant step > 1 ==> maximum == Highest(Projected(s, n, step - 1))
    {
      var value := level + step as real * trend + seasonals[(n - 1 + step) % seasonals.Length];
      HighestGrows(Projected(s, n, step - 1), value);
      assert Projected(s, n, step - 1) + [value] == Projected(s, n, step);
      if step == 1 || value > maximum { maximum := value; }
    }
  }

  // ----- where the two agree

  /** The series repeats itself every p samples. */
  predicate Periodic(v: seq<real>, p: nat)
    requires p >= 1
  {
    forall i :: 0 <= i < |v| ==> v[i] == v[i % p]
  }

  lemma {:induction false} SmoothingStays(v: seq<real>, p: nat, m: Parameters, n: nat)
    requires 1 <= p && 2 * p <= |v| && p <= n <= |v| && Periodic(v, p)
    ensures Smoothed(v, p, m, n) == Start(v, p)
    ensures Start(v, p).trend == 0.0
  {
    hide Mean, Blend;
    assert v[p..2 * p] == v[..p] by {
      forall i | 0 <= i < p ensures v[p + i] == v[i] { ModAddMultiple(i, 1, p); }
    }
    ZeroOver(p);
    if n > p {
      SmoothingStays(v, p, m, n - 1);
      var s, index := Start(v, p), (n - 1) % p;
      assert v[n - 1] == v[index];
      BlendSame(m.alpha, s.level);
      BlendSame(m.beta, 0.0);
      BlendSame(m.gamma, s.seasonals[index]);
    }
  }

  lemma ZeroOver(p: nat)
    requires p >= 1
    ensures 0.0 / p as real == 0.0
  {
  }

  lemma BlendSame(w: real, x: real)
    ensures Blend(w, x, x) == x
  {
  }

  /** On an exactly periodic series Holt-Winters projects, at every step and for
      every choice of smoothing parameters, the value the seasonal-naive model
      repeats. */
  lemma ModelsAgreeOnPeriodicSeries(v: seq<real>, p: nat, m: Parameters, steps: nat)
    requires 1 <= p && 2 * p <= |v| && Periodic(v, p)
    ensures Projected(Smoothed(v, p, m, |v|), |v|, steps) == Repeated(v, p, steps)
  {
    hide Smoothed, Mean;
    var n := |v|;
    SmoothingStays(v, p, m, n);
    var s := Start(v, p);
    forall k | 0 <= k < steps ensures Projection(s, n - 1, k + 1) == v[n - p + k % p] {
      var i := (n + k) % p;
      NoDrift(k + 1);
      assert Projection(s, n - 1, k + 1) == s.level + s.seasonals[i] == v[i];
      assert k == k / p * p + k % p;
      LastSeason(n, k, p);
    }
  }

  lemma NoDrift(step: nat)
    ensures Drift(step, 0.0) == 0.0
  {
  }

  lemma LastSeason(n: nat, k: nat, p: nat)
    requires p >= 1
    ensures (n - p + k % p) % p == (n + k) % p
  {
    assert k == k / p * p + k % p;
    assert (k / p + 1) * p == k / p * p + p;
    ModAddMultiple(n - p + k % p, k / p + 1, p);
  }

  /** Hence the predictions coincide: exactly for demand that is never negative,
      and otherwise up to the floor at zero. */
  lemma PredictionsCoincide(v: seq<real>, p: nat, m: Parameters, steps: nat)
    requires 1 <= p && 2 * p <= |v| && Periodic(v, p) && steps >= 1
    ensures Highest(Projected(Smoothed(v, p, m, |v|), |v|, steps)) == Highest(Repeated(v, p, steps))
    ensures (forall i :: 0 <= i < |v| ==> v[i] >= 0.0) ==>
              MaxReal(0.0, Highest(Projected(Smoothed(v, p, m, |v|), |v|, steps))) == Highest(Repeated(v, p, steps))
  {
    hide Smoothed, Highest, Periodic;
    ModelsAgreeOnPeriodicSeries(v, p, m, steps);
    HighestIsMaximum(Repeated(v, p, steps));
  }

  /** Both models answer a request alike on two seasons or more of periodic demand
      that is never negative. */
  lemma ForecastsCoincide(samples: seq<Sample>, q: Request, model: Parameters)
    requires WholeSteps(q) && q.period / q.interval >= 1 && |samples| >= 2 * (q.period / q.interval)
    requires Periodic(Values(samples), q.period / q.interval)
    requires forall i :: 0 <= i < |samples| ==> samples[i].value >= 0.0
    ensures NaiveForecast(samples, q).Ok? && HoltWintersForecast(samples, q, model) == NaiveForecast(samples, q)
  {
    hide Smoothed, Highest, Periodic, Projected, Repeated, Defaulted;
    WholeStepsArePositive(q);
    PredictionsCoincide(Values(samples), q.period / q.interval, Defaulted(model), q.horizon / q.interval);
  }
}
