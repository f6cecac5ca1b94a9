/** internal/scaledobject/parser.go: from the triggers of one ScaledObject to at
    most one workload per predictive trigger. Text that a library parses
    (numbers, durations, booleans, URLs, time zones) is given by what the
    library makes of it. */
module Parser {
  import opened Observations
  import opened Wrappers

  /** A metadata value after parsing: blank, not parsable, or a value. */
  datatype Text<T> = Blank | Malformed | Parsed(value: T)

  datatype Trigger = Trigger(
    kind: string, name: string, scalerAddress: string, sourceTrigger: string,
    server: Text<string>, query: string, threshold: Text<real>,
    horizon: Text<Duration>, training: Text<Duration>, interval: Text<Duration>, startup: Text<Duration>,
    buffer: Text<Duration>,
    quantile: Text<real>, immediate: Text<bool>, clear: Text<bool>, engine: string, timezone: Text<string>)

  datatype Input = Input(namespace: string, name: string, scaleTarget: string, min: Option<int>, max: Option<int>,
                         triggers: seq<Trigger>)

  datatype Options = Options(cluster: string, scalers: set<string>, defaultMin: int, defaultMax: int,
                             minimumTraining: Duration)

  datatype Parent = Parent(cluster: string, namespace: string, name: string)

  datatype Key = Key(parent: Parent, trigger: string)

  datatype Source = Source(trigger: string, server: string, query: string, threshold: real)

  datatype Bounds = Bounds(min: int, max: int)

  datatype Forecast = Forecast(
    horizon: Duration, quantile: real, training: Duration, interval: Duration, engine: string, timezone: string,
    startup: Duration, buffer: Duration, immediate: bool, clear: bool)

  /** What the policy revision is a hash of. */
  datatype Revision = Revision(server: string, query: string, threshold: real, bounds: Bounds, forecast: Forecast)

  datatype Spec = Spec(key: Key, target: string, bounds: Bounds, source: Source, forecast: Forecast, revision: Revision)

  datatype Violation =
    | NameRequired | NameShared
    | SourceRequired | SourceShared | SourceUnresolved | SourceNotPrometheus
    | BadServer | NoQuery | BadThreshold
    | BadHorizon | BadTraining | BadInterval | BadStartup | BadBuffer | BadImmediate | BadClear | BadQuantile
    | UnknownEngine | TrainingOutOfRange | TrainingNotSeconds | IntervalNotSeconds | TrainingNotWhole | DecisionNotWhole
    | HorizonNotSeconds | UnknownTimezone
    | NegativeMinimum | NoMaximum | BoundsCrossed
    | TopLevelMissing | ClusterMissing | NamespaceMissing | ObjectNameMissing | TargetMissing

  datatype Candidate = Candidate(name: string, violations: seq<Violation>, spec: Option<Spec>)

  // ----- text

  predicate IsSpace(c: char) {
    c in " \t\n\r" || c == '\U{000B}' || c == '\U{000C}' || c == '\U{0085}' || c == '\U{00A0}' || c == '\U{1680}' ||
    ('\U{2000}' <= c <= '\U{200A}') || c == '\U{2028}' || c == '\U{2029}' || c == '\U{202F}' || c == '\U{205F}'
      || c == '\U{3000}'
  }

  /** Unicode's white space, by code point. */
  lemma SpacesExactly(c: char)
    ensures IsSpace(c) <==>
            var n := c as int;
            || n in {0x20, 0x85, 0xA0, 0x1680, 0x2028, 0x2029, 0x202F, 0x205F, 0x3000}
            || 0x09 <= n <= 0x0D || 0x2000 <= n <= 0x200A
  {
  }

  /** strings.TrimSpace */
  function Trim(s: string): (r: string)
    ensures |r| <= |s|
    ensures r != "" ==> !IsSpace(r[0])
  {
    if s == "" then s
    else if IsSpace(s[0]) then Trim(s[1..])
    else if IsSpace(s[|s| - 1]) then Trim(s[..|s| - 1])
    else s
  }

  predicate AllSpace(s: string) { forall i :: 0 <= i < |s| ==> IsSpace(s[i]) }

  /** Only white space is cut off, on both sides, and none of it is left there. */
  lemma {:induction false} TrimExactly(s: string) returns (before: string, after: string)
    ensures s == before + Trim(s) + after && AllSpace(before) && AllSpace(after)
    ensures Trim(s) == "" <==> AllSpace(s)
    ensures Trim(s) != "" ==> !IsSpace(Trim(s)[0]) && !IsSpace(Trim(s)[|Trim(s)| - 1])
  {
    hide IsSpace;
    if s == "" {
      before, after := "", "";
    } else if IsSpace(s[0]) {
      before, after := TrimExactly(s[1..]);
      before := [s[0]] + before;
    } else if IsSpace(s[|s| - 1]) {
      before, after := TrimExactly(s[..|s| - 1]);
      after := after + [s[|s| - 1]];
    } else {
      before, after := "", "";
    }
  }

  // ----- counting names

  function Occurrences(names: seq<string>, x: string): nat {
    if names == [] then 0 else Occurrences(names[..|names| - 1], x) + if names[|names| - 1] == x then 1 else 0
  }

  /** x stands at position k and nowhere else. */
  predicate OnlyAt(names: seq<string>, k: nat)
    requires k < |names|
  {
    forall j :: 0 <= j < |names| && j != k ==> names[j] != names[k]
  }

  lemma {:induction false} OccursAtLeast(names: seq<string>, k: nat)
    requires k < |names|
    ensures Occurrences(names, names[k]) >= 1
  {
    if k < |names| - 1 { OccursAtLeast(names[..|names| - 1], k); }
  }

  lemma {:induction false} OccursNowhere(names: seq<string>, x: string)
    ensures Occurrences(names, x) == 0 <==> x !in names
  {
    if names != [] {
      var n := |names| - 1;
      OccursNowhere(names[..n], x);
      assert names == names[..n] + [names[n]];
    }
  }

  /** A count above one is how a repeated name is found. */
  lemma {:induction false} CountedOnce(names: seq<string>, k: nat)
    requires k < |names|
    ensures Occurrences(names, names[k]) <= 1 <==> OnlyAt(names, k)
  {
    var n := |names| - 1;
    var rest := names[..n];
    if k == n {
      OccursNowhere(rest, names[n]);
      if names[n] in rest {
        var j :| 0 <= j < n && rest[j] == names[n];
        assert names[j] == names[k];
      }
      forall j | 0 <= j < n && names[j] == names[n] ensures names[n] in rest { assert rest[j] == names[n]; }
    } else {
      CountedOnce(rest, k);
      OccursAtLeast(rest, k);
      if OnlyAt(rest, k) && names[n] != names[k] {
        forall j | 0 <= j < |names| && j != k ensures names[j] != names[k] { if j < n { assert rest[j] == names[j]; } }
      }
      if OnlyAt(names, k) { assert forall j :: 0 <= j < n && j != k ==> rest[j] == names[j] != names[k]; }
    }
  }

  // ----- which triggers

  predicate IsPredictive(t: Trigger, o: Options) {
    t.kind == "external" && Trim(t.scalerAddress) in o.scalers
  }

  function Predictive(ts: seq<Trigger>, o: Options): (r: seq<Trigger>) {
    if ts == [] then [] else
      var n := |ts| - 1;
      if IsPredictive(ts[n], o) then Predictive(ts[..n], o) + [ts[n]] else Predictive(ts[..n], o)
  }

  function Named(ts: seq<Trigger>, name: string): (r: seq<Trigger>) {
    if ts == [] then [] else
      var n := |ts| - 1;
      if ts[n].name == name then Named(ts[..n], name) + [ts[n]] else Named(ts[..n], name)
  }

  lemma {:induction false} NamedMembers(ts: seq<Trigger>, name: string)
    ensures forall t :: t in Named(ts, name) <==> t in ts && t.name == name
  {
    if ts != [] {
      NamedMembers(ts[..|ts| - 1], name);
      assert ts == ts[..|ts| - 1] + [ts[|ts| - 1]];
    }
  }

  function Names(ts: seq<Trigger>): (r: seq<string>)
    ensures |r| == |ts|
  {
    seq(|ts|, i requires 0 <= i < |ts| => ts[i].name)
  }

  function Sources(ts: seq<Trigger>): (r: seq<string>)
    ensures |r| == |ts|
  {
    seq(|ts|, i requires 0 <= i < |ts| => Trim(ts[i].sourceTrigger))
  }

  // ----- one value at a time

  function PositiveOr(t: Text<Duration>, default: Duration): (d: Duration)
    requires default > 0
    ensures d > 0
  {
    if t.Parsed? && t.value > 0 then t.value else default
  }

  predicate BadPositive(t: Text<Duration>) { t.Malformed? || (t.Parsed? && t.value <= 0) }

  function NonNegative(t: Text<Duration>): (d: Duration)
    ensures d >= 0
  {
    if t.Parsed? && t.value >= 0 then t.value else 0
  }

  predicate BadNonNegative(t: Text<Duration>) { t.Malformed? || (t.Parsed? && t.value < 0) }

  predicate BadQuantileText(t: Text<real>) { t.Malformed? || (t.Parsed? && !(0.0 < t.value < 1.0)) }

  function QuantileOf(t: Text<real>): (q: real)
    ensures 0.0 < q < 1.0
  {
    if t.Parsed? && 0.0 < t.value < 1.0 then t.value else 0.95
  }

  function Flag(t: Text<bool>): bool { t.Parsed? && t.value }

  const ENGINES := {"xgboost", "seasonal-baseline", "rolling-quantile", "holt-winters", "gru"}

  function ForecastOf(t: Trigger): (f: Forecast)
    ensures f.horizon > 0 && f.interval > 0 && f.training > 0 && f.startup >= 0 && f.buffer >= 0
    ensures 0.0 < f.quantile < 1.0 && f.timezone != "" && !IsSpace(f.timezone[0])
  {
    Forecast(
      PositiveOr(t.horizon, 10 * MINUTE),
      QuantileOf(t.quantile),
      PositiveOr(t.training, 30 * DAY), PositiveOr(t.interval, MINUTE),
      if Trim(t.engine) == "" then "xgboost" else Trim(t.engine), TimezoneOf(t.timezone),
      NonNegative(t.startup), NonNegative(t.buffer), Flag(t.immediate), Flag(t.clear))
  }

  function TimezoneOf(t: Text<string>): (r: string)
    ensures r != "" && !IsSpace(r[0])
  {
    if t.Parsed? && Trim(t.value) != "" then Trim(t.value) else "UTC"
  }

  /** What 64 bits hold of a sum of durations. */
  function Wrap64(x: int): (r: int)
    ensures -0x8000_0000_0000_0000 <= r < 0x8000_0000_0000_0000 && (x - r) % 0x1_0000_0000_0000_0000 == 0
  { (x + 0x8000_0000_0000_0000) % 0x1_0000_0000_0000_0000 - 0x8000_0000_0000_0000 }

  function DecisionHorizon(f: Forecast): Duration { Wrap64(f.horizon + f.startup + f.buffer) }

  function MinimumTraining(o: Options): Duration { if o.minimumTraining <= 0 then 7 * DAY else o.minimumTraining }

  predicate ReadableForecast(t: Trigger) {
    && !BadPositive(t.horizon) && !BadPositive(t.training) && !BadPositive(t.interval)
    && !BadNonNegative(t.startup) && !BadNonNegative(t.buffer)
    && !t.immediate.Malformed? && !t.clear.Malformed? && !BadQuantileText(t.quantile)
  }

  predicate AllowedForecast(f: Forecast, o: Options)
    requires f.interval > 0
  {
    && f.engine in ENGINES
    && MinimumTraining(o) <= f.training <= 90 * DAY
    && f.training % SECOND == 0 && f.interval % SECOND == 0 && f.horizon % SECOND == 0
    && f.training % f.interval == 0
    && DecisionHorizon(f) > 0 && DecisionHorizon(f) % f.interval == 0
  }

  function When(c: bool, v: Violation): (r: seq<Violation>)
    ensures r == [] <==> !c
  {
    if c then [v] else []
  }

  function ReadingViolations(t: Trigger): (r: seq<Violation>)
    ensures r == [] <==> ReadableForecast(t)
  {
    When(BadPositive(t.horizon), BadHorizon) + When(BadPositive(t.training), BadTraining)
      + When(BadPositive(t.interval), BadInterval)
    + When(BadNonNegative(t.startup), BadStartup) + When(BadNonNegative(t.buffer), BadBuffer)
    + When(t.immediate.Malformed?, BadImmediate) + When(t.clear.Malformed?, BadClear)
      + When(BadQuantileText(t.quantile), BadQuantile)
  }

  function PolicyViolations(f: Forecast, o: Options): (r: seq<Violation>)
    requires f.interval > 0
    ensures r == [] <==> AllowedForecast(f, o)
  {
    When(f.engine !in ENGINES, UnknownEngine)
    + When(f.training < MinimumTraining(o) || f.training > 90 * DAY, TrainingOutOfRange)
    + When(f.training % SECOND != 0, TrainingNotSeconds)
    + When(f.interval % SECOND != 0, IntervalNotSeconds)
    + When(f.training % f.interval != 0, TrainingNotWhole)
    + When(DecisionHorizon(f) <= 0 || DecisionHorizon(f) % f.interval != 0, DecisionNotWhole)
    + When(f.horizon % SECOND != 0, HorizonNotSeconds)
  }

  /** What is wrong with the forecast settings, in the order it is found. */
  function ForecastViolations(t: Trigger, o: Options): (r: seq<Violation>)
    ensures r == [] <==> ReadableForecast(t) && AllowedForecast(ForecastOf(t), o) && !t.timezone.Malformed?
  {
    ReadingViolations(t) + PolicyViolations(ForecastOf(t), o) + When(t.timezone.Malformed?, UnknownTimezone)
  }

  function BoundsOf(i: Input, o: Options): Bounds {
    Bounds(if i.min.Some? then i.min.value else o.defaultMin, if i.max.Some? then i.max.value else o.defaultMax)
  }

  predicate GoodBounds(b: Bounds) { 0 <= b.min <= b.max && b.max > 0 }

  function BoundsViolations(b: Bounds): (r: seq<Violation>)
    ensures r == [] <==> GoodBounds(b)
  {
    When(b.min < 0, NegativeMinimum) + When(b.max <= 0, NoMaximum) + When(b.min > b.max, BoundsCrossed)
  }

  predicate UsableSource(t: Trigger) {
    t.server.Parsed? && Trim(t.query) != "" && t.threshold.Parsed? && t.threshold.value > 0.0
  }

  function SourceViolations(t: Trigger): (r: seq<Violation>)
    ensures r == [] <==> UsableSource(t)
  {
    When(!t.server.Parsed?, BadServer) + When(Trim(t.query) == "", NoQuery)
    + When(!t.threshold.Parsed? || t.threshold.value <= 0.0, BadThreshold)
  }

  function SourceOf(t: Trigger): Source
    requires UsableSource(t)
  {
    Source(t.name, t.server.value, Trim(t.query), t.threshold.value)
  }

  predicate TopLevelPresent(i: Input, o: Options) {
    Trim(o.cluster) != "" && Trim(i.namespace) != "" && Trim(i.name) != "" && Trim(i.scaleTarget) != ""
  }

  function TopLevelViolations(i: Input, o: Options): (r: seq<Violation>)
    ensures r == [] <==> TopLevelPresent(i, o)
    ensures ClusterMissing in r <==> Trim(o.cluster) == ""
    ensures NamespaceMissing in r <==> Trim(i.namespace) == ""
    ensures ObjectNameMissing in r <==> Trim(i.name) == ""
    ensures TargetMissing in r <==> Trim(i.scaleTarget) == ""
  {
    When(Trim(o.cluster) == "", ClusterMissing) + When(Trim(i.namespace) == "", NamespaceMissing)
    + When(Trim(i.name) == "", ObjectNameMissing) + When(Trim(i.scaleTarget) == "", TargetMissing)
  }

  // ----- what is accepted

  /** Predictive trigger k has a name and a source of its own, and the source is
      the one trigger of that name. */
  predicate WellNamed(i: Input, o: Options, k: nat)
    requires k < |Predictive(i.triggers, o)|
  {
    var ps := Predictive(i.triggers, o);
    var t := ps[k];
    var named := Named(i.triggers, Trim(t.sourceTrigger));
    && t.name != "" && OnlyAt(Names(ps), k)
    && Trim(t.sourceTrigger) != "" && OnlyAt(Sources(ps), k)
    && |named| == 1 && named[0].kind == "prometheus" && UsableSource(named[0])
  }

  function NameViolations(shared: bool, name: string): (r: seq<Violation>)
    ensures r == [] <==> name != "" && !shared
  {
    When(name == "", NameRequired) + When(shared, NameShared)
  }

  function SourceNameViolations(shared: bool, named: seq<Trigger>): (r: seq<Violation>)
    ensures r == [] <==> !shared && |named| == 1 && named[0].kind == "prometheus" && UsableSource(named[0])
  {
    When(shared, SourceShared) + When(|named| != 1, SourceUnresolved)
    + if |named| != 1 then []
      else if named[0].kind != "prometheus" then [SourceNotPrometheus]
      else SourceViolations(named[0])
  }

  function NamingViolations(i: Input, o: Options, k: nat): (r: seq<Violation>)
    requires k < |Predictive(i.triggers, o)|
    ensures r == [] <==> WellNamed(i, o, k)
  {
    var ps := Predictive(i.triggers, o);
    var source := Trim(ps[k].sourceTrigger);
    NameViolations(!OnlyAt(Names(ps), k), ps[k].name)
    + if source == "" then [SourceRequired]
      else SourceNameViolations(!OnlyAt(Sources(ps), k), Named(i.triggers, source))
  }

  /** It is usable when besides that every setting is allowed. */
  predicate Acceptable(i: Input, o: Options, k: nat)
    requires k < |Predictive(i.triggers, o)|
  {
    var t := Predictive(i.triggers, o)[k];
    && WellNamed(i, o, k)
    && ReadableForecast(t) && AllowedForecast(ForecastOf(t), o) && !t.timezone.Malformed?
    && GoodBounds(BoundsOf(i, o))
    && TopLevelPresent(i, o)
  }

  /** Every reason why it is not, counted out by position and not by use counts. */
  function Violations(i: Input, o: Options, k: nat): (r: seq<Violation>)
    requires k < |Predictive(i.triggers, o)|
    ensures r == [] <==> Acceptable(i, o, k)
  {
    var t := Predictive(i.triggers, o)[k];
    NamingViolations(i, o, k) + ForecastViolations(t, o)
    + BoundsViolations(BoundsOf(i, o)) + When(!TopLevelPresent(i, o), TopLevelMissing)
  }

  function SpecOf(i: Input, o: Options, t: Trigger, source: Trigger): Spec
    requires UsableSource(source)
  {
    var s, b, f := SourceOf(source), BoundsOf(i, o), ForecastOf(t);
    Spec(Key(Parent(o.cluster, i.namespace, i.name), t.name), i.scaleTarget, b, s, f,
         Revision(s.server, s.query, s.threshold, b, f))
  }

  ghost predicate IsCandidate(i: Input, o: Options, k: nat, c: Candidate)
    requires k < |Predictive(i.triggers, o)|
  {
    var t := Predictive(i.triggers, o)[k];
    && c.name == t.name
    && c.violations == Violations(i, o, k)
    && (c.violations == [] <==> Acceptable(i, o, k))
    && (c.spec.Some? <==> c.violations == [])
    && (c.spec.Some? ==> c.spec.value == SpecOf(i, o, t, Named(i.triggers, Trim(t.sourceTrigger))[0]))
  }

  function Count(m: map<string, int>, x: string): int { if x in m then m[x] else 0 }

  function Lookup(m: map<string, seq<Trigger>>, x: string): seq<Trigger> { if x in m then m[x] else [] }

  /** The three tables built before any candidate is judged. */
  ghost predicate Tables(i: Input, o: Options, named: map<string, seq<Trigger>>, seen: map<string, int>,
                         sources: map<string, int>) {
    var ps := Predictive(i.triggers, o);
    && (forall x :: x != "" ==> Lookup(named, x) == Named(i.triggers, x))
    && "" !in named && "" !in sources
    && (forall x :: Count(seen, x) == Occurrences(Names(ps), x))
    && (forall x :: x != "" ==> Count(sources, x) == Occurrences(Sources(ps), x))
  }

  method JudgeName(uses: int, name: string) returns (violations: seq<Violation>)
    ensures violations == NameViolations(uses > 1, name)
  {
    violations := [];
    if name == "" { violations := violations + [NameRequired]; }
    if uses > 1 { violations := violations + [NameShared]; }
  }

  method JudgeSource(uses: int, sourceName: string, candidates: seq<Trigger>)
    returns (source: Source, violations: seq<Violation>)
    requires sourceName == "" ==> uses == 0 && candidates == []
    ensures violations == if sourceName == "" then [SourceRequired] else SourceNameViolations(uses > 1, candidates)
    ensures violations == [] ==> UsableSource(candidates[0]) && source == SourceOf(candidates[0])
  {
    hide SourceViolations;
    source, violations := Source("", "", "", 0.0), [];
    if sourceName == "" { violations := violations + [SourceRequired]; }
    if uses > 1 { violations := violations + [SourceShared]; }
    if sourceName != "" && |candidates| != 1 { violations := violations + [SourceUnresolved]; }
    if |candidates| == 1 {
      if candidates[0].kind != "prometheus" {
        violations := violations + [SourceNotPrometheus];
      } else {
        var onSource;
        source, onSource := ReadSource(candidates[0]);
        violations := violations + onSource;
      }
    }
  }

  method IsReplicaSense(t: Trigger, o: Options) returns (predictive: bool)
    ensures predictive == IsPredictive(t, o)
  {
    hide Trim;
    if t.kind != "external" || |o.scalers| == 0 { return false; }
    predictive := Trim(t.scalerAddress) in o.scalers;
  }

  method ReadSource(t: Trigger) returns (source: Source, violations: seq<Violation>)
    ensures violations == SourceViolations(t) && (violations == [] ==> source == SourceOf(t))
  {
    hide Trim;
    violations := [];
    var server, threshold := "", 0.0;
    if t.server.Parsed? { server := t.server.value; } else { violations := violations + [BadServer]; }
    var query := Trim(t.query);
    if query == "" { violations := violations + [NoQuery]; }
    if t.threshold.Parsed? { threshold := t.threshold.value; }
    if !t.threshold.Parsed? || threshold <= 0.0 { violations := violations + [BadThreshold]; }
    source := Source(t.name, server, query, threshold);
  }

  method ReadBounds(i: Input, o: Options) returns (bounds: Bounds, violations: seq<Violation>)
    ensures bounds == BoundsOf(i, o) && violations == BoundsViolations(bounds)
  {
    var min, max := o.defaultMin, o.defaultMax;
    if i.min.Some? { min := i.min.value; }
    if i.max.Some? { max := i.max.value; }
    violations := [];
    if min < 0 { violations := violations + [NegativeMinimum]; }
    if max <= 0 { violations := violations + [NoMaximum]; }
    if min > max { violations := violations + [BoundsCrossed]; }
    bounds := Bounds(min, max);
  }

  method ReadDuration(t: Text<Duration>, default: Duration, bad: Violation)
    returns (d: Duration, violations: seq<Violation>)
    requires default > 0
    ensures d == PositiveOr(t, default) && violations == When(BadPositive(t), bad)
  {
    if t.Blank? { return default, []; }
    if t.Malformed? || t.value <= 0 { return default, [bad]; }
    d, violations := t.value, [];
  }

  method ReadNonNegative(t: Text<Duration>, bad: Violation) returns (d: Duration, violations: seq<Violation>)
    ensures d == NonNegative(t) && violations == When(BadNonNegative(t), bad)
  {
    if t.Blank? { return 0, []; }
    if t.Malformed? || t.value < 0 { return 0, [bad]; }
    d, violations := t.value, [];
  }

  method ReadFlag(t: Text<bool>, bad: Violation) returns (flag: bool, violations: seq<Violation>)
    ensures flag == Flag(t) && violations == When(t.Malformed?, bad)
  {
    if t.Blank? { return false, []; }
    if t.Malformed? { return false, [bad]; }
    flag, violations := t.value, [];
  }

  method ReadQuantile(t: Text<real>) returns (q: real, violations: seq<Violation>)
    ensures q == QuantileOf(t) && violations == When(BadQuantileText(t), BadQuantile)
  {
    if t.Blank? { return 0.95, []; }
    if t.Malformed? || t.value <= 0.0 || t.value >= 1.0 { return 0.95, [BadQuantile]; }
    q, violations := t.value, [];
  }

  /** The settings, and what cannot be read or is not allowed of them. */
  method ReadForecast(t: Trigger, o: Options) returns (f: Forecast, violations: seq<Violation>)
    ensures f == ForecastOf(t) && violations == ForecastViolations(t, o)
  {
    hide Trim, When, PolicyViolations, BadPositive, BadNonNegative, BadQuantileText, PositiveOr, NonNegative,
      QuantileOf,
      Flag, AllowedForecast, ReadableForecast;
    var horizon, a := ReadDuration(t.horizon, 10 * MINUTE, BadHorizon);
    var training, b := ReadDuration(t.training, 30 * DAY, BadTraining);
    var interval, c := ReadDuration(t.interval, MINUTE, BadInterval);
    var startup, d := ReadNonNegative(t.startup, BadStartup);
    var buffer, e := ReadNonNegative(t.buffer, BadBuffer);
    var immediate, g := ReadFlag(t.immediate, BadImmediate);
    var clear, h := ReadFlag(t.clear, BadClear);
    var quantile, q := ReadQuantile(t.quantile);
    var engine := Trim(t.engine);
    if engine == "" { engine := "xgboost"; }
    var timezone := "UTC";
    if t.timezone.Parsed? && Trim(t.timezone.value) != "" { timezone := Trim(t.timezone.value); }
    f := Forecast(horizon, quantile, training, interval, engine, timezone, startup, buffer, immediate, clear);
    var onPolicy := JudgePolicy(f, o);
    violations := a + b + c + d + e + g + h + q + onPolicy + When(t.timezone.Malformed?, UnknownTimezone);
  }

  method JudgePolicy(f: Forecast, o: Options) returns (violations: seq<Violation>)
    requires f.interval > 0
    ensures violations == PolicyViolations(f, o)
  {
    hide When, Wrap64, AllowedForecast;
    var engine := f.engine;
    var supported := engine == "xgboost" || engine == "seasonal-baseline" || engine == "rolling-quantile"
      || engine == "holt-winters" || engine == "gru";
    var minimum := o.minimumTraining;
    if minimum <= 0 { minimum := 7 * 24 * HOUR; }
    var decision := Wrap64(f.horizon + f.startup + f.buffer);
    violations := When(!supported, UnknownEngine)
      + When(f.training < minimum || f.training > 90 * 24 * HOUR, TrainingOutOfRange)
      + When(f.training % SECOND != 0, TrainingNotSeconds)
      + When(f.interval % SECOND != 0, IntervalNotSeconds)
      + When(f.interval > 0 && f.training % f.interval != 0, TrainingNotWhole)
      + When(f.interval <= 0 || decision <= 0 || decision % f.interval != 0, DecisionNotWhole)
      + When(f.horizon % SECOND != 0, HorizonNotSeconds);
  }

  method ParseCandidate(i: Input, o: Options, ghost k: nat, t: Trigger, named: map<string, seq<Trigger>>,
                        seen: map<string, int>, sources: map<string, int>)
    returns (c: Candidate)
    requires k < |Predictive(i.triggers, o)| && t == Predictive(i.triggers, o)[k]
    requires Tables(i, o, named, seen, sources)
    ensures IsCandidate(i, o, k, c)
  {
    hide Predictive, Named, Occurrences, Trim, UsableSource, ReadableForecast, AllowedForecast, GoodBounds, OnlyAt,
      SpecOf, ForecastOf;
    hide NameViolations, SourceNameViolations, ForecastViolations, BoundsViolations, When;
    ghost var ps := Predictive(i.triggers, o);
    CountedOnce(Names(ps), k);
    CountedOnce(Sources(ps), k);
    var sourceName := Trim(t.sourceTrigger);
    var onName := JudgeName(Count(seen, t.name), t.name);
    var source, onSource := JudgeSource(Count(sources, sourceName), sourceName, Lookup(named, sourceName));
    var forecast, onForecast := ReadForecast(t, o);
    var bounds, onBounds := ReadBounds(i, o);
    var incomplete := Trim(o.cluster) == "" || Trim(i.namespace) == "" || Trim(i.name) == ""
      || Trim(i.scaleTarget) == "";
    assert incomplete == !TopLevelPresent(i, o);
    var violations := onName + onSource + onForecast + onBounds + When(incomplete, TopLevelMissing);
    assert violations == Violations(i, o, k);
    if |violations| > 0 { return Candidate(t.name, violations, None); }
    SpecIs(i, o, t, Lookup(named, sourceName)[0], source, bounds, forecast);
    var key := Key(Parent(o.cluster, i.namespace, i.name), t.name);
    var revision := Revision(source.server, source.query, source.threshold, bounds, forecast);
    c := Candidate(t.name, [], Some(Spec(key, i.scaleTarget, bounds, source, forecast, revision)));
  }

  lemma SpecIs(i: Input, o: Options, t: Trigger, trigger: Trigger, source: Source, bounds: Bounds, forecast: Forecast)
    requires UsableSource(trigger) && source == SourceOf(trigger)
    requires bounds == BoundsOf(i, o) && forecast == ForecastOf(t)
    ensures var revision := Revision(source.server, source.query, source.threshold, bounds, forecast);
            SpecOf(i, o, t, trigger) == Spec(Key(Parent(o.cluster, i.namespace, i.name), t.name), i.scaleTarget, bounds,
                                             source, forecast, revision)
  {
  }

  method GroupByName(ts: seq<Trigger>) returns (named: map<string, seq<Trigger>>)
    ensures "" !in named && forall x :: x != "" ==> Lookup(named, x) == Named(ts, x)
  {
    named := map[];
    for n := 0 to |ts|
      invariant "" !in named && forall x :: x != "" ==> Lookup(named, x) == Named(ts[..n], x)
    {
      assert ts[..n + 1][..n] == ts[..n];
      if ts[n].name != "" { named := named[ts[n].name := Lookup(named, ts[n].name) + [ts[n]]]; }
    }
    assert ts[..|ts|] == ts;
  }

  method CountUses(ts: seq<Trigger>, o: Options) returns (seen: map<string, int>, sources: map<string, int>)
    ensures "" !in sources
    ensures forall x :: Count(seen, x) == Occurrences(Names(Predictive(ts, o)), x)
    ensures forall x :: x != "" ==> Count(sources, x) == Occurrences(Sources(Predictive(ts, o)), x)
  {
    hide IsPredictive, Trim, Occurrences, Names, Sources, Predictive;
    seen, sources := map[], map[];
    NothingSeen(ts, o);
    for n := 0 to |ts|
      invariant "" !in sources
      invariant forall x :: Count(seen, x) == Occurrences(Names(Predictive(ts[..n], o)), x)
      invariant forall x :: x != "" ==> Count(sources, x) == Occurrences(Sources(Predictive(ts[..n], o)), x)
    {
      PredictiveGrows(ts, o, n);
      var predictive := IsReplicaSense(ts[n], o);
      if !predictive { continue; }
      NamesGrow(Predictive(ts[..n], o), ts[n]);
      seen := seen[ts[n].name := Count(seen, ts[n].name) + 1];
      var source := Trim(ts[n].sourceTrigger);
      if source != "" { sources := sources[source := Count(sources, source) + 1]; }
    }
    assert ts[..|ts|] == ts;
  }

  lemma NothingSeen(ts: seq<Trigger>, o: Options)
    ensures Predictive(ts[..0], o) == []
    ensures forall x ::
            Occurrences(Names(Predictive(ts[..0], o)), x) == 0
            && Occurrences(Sources(Predictive(ts[..0], o)), x) == 0
  {
  }

  lemma PredictiveGrows(ts: seq<Trigger>, o: Options, n: nat)
    requires n < |ts|
    ensures Predictive(ts[..n + 1], o) ==
            if IsPredictive(ts[n], o) then Predictive(ts[..n], o) + [ts[n]] else Predictive(ts[..n], o)
  {
    hide IsPredictive;
    assert ts[..n + 1][..n] == ts[..n];
  }

  method CheckTopLevel(i: Input, o: Options) returns (violations: seq<Violation>)
    ensures violations == TopLevelViolations(i, o)
  {
    hide Trim;
    violations := [];
    if Trim(o.cluster) == "" { violations := violations + [ClusterMissing]; }
    if Trim(i.namespace) == "" { violations := violations + [NamespaceMissing]; }
    if Trim(i.name) == "" { violations := violations + [ObjectNameMissing]; }
    if Trim(i.scaleTarget) == "" { violations := violations + [TargetMissing]; }
  }

  method Parse(i: Input, o: Options) returns (violations: seq<Violation>, candidates: seq<Candidate>)
    ensures violations == TopLevelViolations(i, o)
    ensures |candidates| == |Predictive(i.triggers, o)|
    ensures forall k :: 0 <= k < |candidates| ==> IsCandidate(i, o, k, candidates[k])
  {
    hide IsCandidate, IsPredictive, Trim, Named, Occurrences, Names, Sources, Predictive, TopLevelViolations;
    violations := CheckTopLevel(i, o);
    var named := GroupByName(i.triggers);
    var seen, sources := CountUses(i.triggers, o);
    var ts := i.triggers;
    NothingSeen(ts, o);
    candidates := [];
    for n := 0 to |ts|
      invariant |candidates| == |Predictive(ts[..n], o)|
      invariant Predictive(ts[..n], o) <= Predictive(ts, o)
      invariant forall k :: 0 <= k < |candidates| ==> IsCandidate(i, o, k, candidates[k])
    {
      PredictiveGrows(ts, o, n);
      PredictivePrefix(ts, o, n + 1);
      var predictive := IsReplicaSense(ts[n], o);
      if !predictive { continue; }
      var c := ParseCandidate(i, o, |candidates|, ts[n], named, seen, sources);
      candidates := candidates + [c];
    }
    assert ts[..|ts|] == ts;
  }

  lemma NamesGrow(ps: seq<Trigger>, t: Trigger)
    ensures forall x :: Occurrences(Names(ps + [t]), x) == Occurrences(Names(ps), x) + if t.name == x then 1 else 0
    ensures forall x :: Occurrences(Sources(ps + [t]), x) ==
                        Occurrences(Sources(ps), x) + if Trim(t.sourceTrigger) == x then 1 else 0
  {
    hide Trim;
    assert Names(ps + [t])[..|ps|] == Names(ps) && Sources(ps + [t])[..|ps|] == Sources(ps);
  }

  lemma {:induction false} PredictivePrefix(ts: seq<Trigger>, o: Options, n: nat)
    requires n <= |ts|
    ensures Predictive(ts[..n], o) <= Predictive(ts, o)
    decreases |ts|
  {
    hide IsPredictive;
    if n < |ts| {
      PredictivePrefix(ts[..|ts| - 1], o, n);
      assert ts[..|ts| - 1][..n] == ts[..n];
    } else {
      assert ts[..n] == ts;
    }
  }

  // ----- what the repository is handed

  /** The workloads of the candidates that were accepted. */
  function Desired(candidates: seq<Candidate>): (r: seq<Spec>) {
    if candidates == [] then [] else
      var n := |candidates| - 1;
      Desired(candidates[..n]) + if candidates[n].spec.Some? then [candidates[n].spec.value] else []
  }

  /** Desired workloads belong to one ScaledObject and share neither a
      predictive trigger nor a source. */
  ghost predicate Coherent(parent: Parent, desired: seq<Spec>) {
    && (forall d :: d in desired ==> d.key.parent == parent && Consistent(d))
    && (forall j, k :: 0 <= j < k < |desired| ==>
        desired[j].key != desired[k].key
        && desired[j].source.trigger != desired[k].source.trigger)
  }

  /** The parts of a workload agree with each other and with every rule. */
  ghost predicate Consistent(d: Spec) {
    && d.revision == Revision(d.source.server, d.source.query, d.source.threshold, d.bounds, d.forecast)
    && GoodBounds(d.bounds) && d.source.threshold > 0.0
    && ConsistentForecast(d.forecast)
  }

  ghost predicate ConsistentForecast(f: Forecast) {
    && f.horizon > 0 && f.interval > 0 && f.training > 0 && f.startup >= 0 && f.buffer >= 0
    && f.horizon % SECOND == 0 && f.interval % SECOND == 0 && f.training % SECOND == 0
    && DecisionHorizon(f) > 0 && DecisionHorizon(f) % f.interval == 0
    && 0.0 < f.quantile < 1.0
    && f.timezone != "" && !IsSpace(f.timezone[0])
  }

  /** The source of an accepted workload is the trigger it names. */
  lemma AcceptedSource(i: Input, o: Options, k: nat, c: Candidate)
    requires k < |Predictive(i.triggers, o)| && IsCandidate(i, o, k, c) && c.spec.Some?
    ensures c.spec.value.key == Key(Parent(o.cluster, i.namespace, i.name), Predictive(i.triggers, o)[k].name)
    ensures c.spec.value.source.trigger == Trim(Predictive(i.triggers, o)[k].sourceTrigger)
    ensures Consistent(c.spec.value)
    ensures OnlyAt(Names(Predictive(i.triggers, o)), k) && OnlyAt(Sources(Predictive(i.triggers, o)), k)
  {
    hide Trim, Predictive, OnlyAt, Named;
    var t := Predictive(i.triggers, o)[k];
    var named := Named(i.triggers, Trim(t.sourceTrigger));
    NamedMembers(i.triggers, Trim(t.sourceTrigger));
    assert named[0] in named;
  }

  /** Where each desired workload comes from among the candidates. */
  lemma {:induction false} DesiredFrom(candidates: seq<Candidate>) returns (origin: seq<nat>)
    ensures IsOrigin(candidates, Desired(candidates), origin)
  {
    hide Desired;
    DesiredUnfolds(candidates);
    if candidates == [] {
      origin := [];
    } else {
      var n := |candidates| - 1;
      var rest := DesiredFrom(candidates[..n]);
      origin := if candidates[n].spec.Some? then rest + [n] else rest;
      OriginStep(candidates, Desired(candidates[..n]), rest);
    }
  }

  lemma DesiredUnfolds(candidates: seq<Candidate>)
    ensures Desired(candidates) ==
            if candidates == [] then [] else
              var last := candidates[|candidates| - 1];
              Desired(candidates[..|candidates| - 1]) + if last.spec.Some? then [last.spec.value] else []
  {
  }

  ghost predicate IsOrigin(candidates: seq<Candidate>, desired: seq<Spec>, origin: seq<nat>) {
    && |origin| == |desired|
    && (forall j :: 0 <= j < |origin| ==> origin[j] < |candidates| && candidates[origin[j]].spec == Some(desired[j]))
    && (forall j, k :: 0 <= j < k < |origin| ==> origin[j] < origin[k])
    && (forall k :: 0 <= k < |candidates| && candidates[k].spec.Some? ==> k in origin)
  }

  lemma OriginStep(candidates: seq<Candidate>, desired: seq<Spec>, origin: seq<nat>)
    requires candidates != [] && IsOrigin(candidates[..|candidates| - 1], desired, origin)
    ensures var n := |candidates| - 1;
            if candidates[n].spec.Some? then IsOrigin(candidates, desired + [candidates[n].spec.value], origin + [n])
            else IsOrigin(candidates, desired, origin)
  {
    var n := |candidates| - 1;
    assert forall k :: 0 <= k < n ==> candidates[..n][k] == candidates[k];
    assert candidates[n].spec.Some? ==> n in origin + [n];
  }

  /** Whatever the triggers say, what is handed on is coherent. */
  lemma ParsedIsCoherent(i: Input, o: Options, candidates: seq<Candidate>)
    requires |candidates| == |Predictive(i.triggers, o)|
    requires forall k :: 0 <= k < |candidates| ==> IsCandidate(i, o, k, candidates[k])
    ensures Coherent(Parent(o.cluster, i.namespace, i.name), Desired(candidates))
    ensures |Desired(candidates)| <= |candidates|
  {
    hide IsCandidate, Predictive, Trim, Consistent, Desired;
    var ps, desired := Predictive(i.triggers, o), Desired(candidates);
    var origin := DesiredFrom(candidates);
    forall j | 0 <= j < |desired|
      ensures desired[j].key.parent == Parent(o.cluster, i.namespace, i.name) && Consistent(desired[j])
    {
      AcceptedSource(i, o, origin[j], candidates[origin[j]]);
    }
    forall j, k | 0 <= j < k < |desired|
      ensures desired[j].key != desired[k].key && desired[j].source.trigger != desired[k].source.trigger
    {
      AcceptedSource(i, o, origin[j], candidates[origin[j]]);
      AcceptedSource(i, o, origin[k], candidates[origin[k]]);
      assert Names(ps)[origin[j]] != Names(ps)[origin[k]];
      assert Sources(ps)[origin[j]] != Sources(ps)[origin[k]];
    }
    DesiredIsFewer(candidates);
  }

  lemma {:induction false} DesiredIsFewer(candidates: seq<Candidate>)
    ensures |Desired(candidates)| <= |candidates|
  {
    if candidates != [] { DesiredIsFewer(candidates[..|candidates| - 1]); }
  }
}
