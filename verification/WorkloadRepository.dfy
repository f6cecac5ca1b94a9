/** internal/postgres/workload_repository.go: one transaction brings the stored
    workloads of a ScaledObject to its desired state. Every transaction is one
    atomic step on the tables. */
module WorkloadRepository {
  import opened Observations
  import opened Wrappers
  import opened Parser

  /** A workload row. The id stands for the generated UUID, and a trigger sets
      updatedAt whenever the row is updated. */
  datatype Row = Row(id: nat, uid: string, generation: int, spec: Spec, active: bool, deactivatedAt: Option<int>,
                     updatedAt: int)

  datatype Run = Run(workload: nat, model: Option<nat>)

  /** Workloads by logical key, models by id with their workload, training
      runs, and the first id that was never given out. */
  datatype Tables = Tables(rows: map<Key, Row>, models: map<nat, nat>, runs: map<nat, Run>, nextId: nat)

  datatype Request = Request(parent: Parent, uid: string, generation: int, desired: seq<Spec>)

  /** Primary and foreign keys. */
  ghost predicate WellFormed(t: Tables) {
    && (forall k :: k in t.rows ==> t.rows[k].id < t.nextId)
    && (forall j, k :: j in t.rows && k in t.rows && t.rows[j].id == t.rows[k].id ==> j == k)
    && (forall m :: m in t.models ==> t.models[m] < t.nextId)
    && (forall m :: m in t.runs ==> t.runs[m].workload < t.nextId)
  }

  // ----- what the table accepts and what it keeps

  /** int64(d / time.Second), read back as a duration. */
  function WholeSeconds(d: Duration): Duration { Seconds(d) * SECOND }

  /** Go's integer division truncates toward zero. */
  function Seconds(d: Duration): int { if d >= 0 then d / SECOND else -((-d) / SECOND) }

  /** What a NUMERIC(6,5) column keeps of a positive number: five decimals, a
      half rounds up. */
  function Rounded(q: real): real { (q * 100000.0 + 0.5).Floor as real / 100000.0 }

  /** The workload that the columns hold. The revision stays the hash of the
      accepted one. */
  function Saved(d: Spec): Spec {
    var f := d.forecast;
    d.(forecast := f.(horizon := WholeSeconds(f.horizon), training := WholeSeconds(f.training),
                      interval := WholeSeconds(f.interval), startup := WholeSeconds(f.startup),
                      buffer := WholeSeconds(f.buffer), quantile := Rounded(f.quantile)))
  }

  /** The table's CHECK constraints. */
  predicate Storable(d: Spec) {
    var f := Saved(d).forecast;
    && 0 <= d.bounds.min <= d.bounds.max && d.bounds.max > 0
    && f.horizon / SECOND > 0 && f.training / SECOND > 0 && f.interval / SECOND > 0
    && (f.horizon / SECOND) % (f.interval / SECOND) == 0
    && 0.0 < f.quantile < 1.0
    && (exists n :: 0 <= n < |f.timezone| && f.timezone[n] != ' ')
    && f.startup >= 0 && f.buffer >= 0
  }

  predicate AllStorable(ds: seq<Spec>) {
    forall d :: d in ds ==> Storable(d)
  }

  lemma ScaledDivision(a: int, b: int, n: int)
    requires b > 0 && n > 0
    ensures (a * n) % (b * n) == (a % b) * n
    ensures (a % b) * n == 0 <==> a % b == 0
  {
    DivBounds(a, b);
    var q, r := a / b, a % b;
    Products(q, b, r, n);
    DivUnique(a * n, b * n, q);
    if r > 0 { AtLeastOne(r, n); }
  }

  lemma Products(q: int, b: int, r: int, n: int)
    requires 0 <= r < b && n > 0
    ensures b * n > 0 && q * (b * n) <= (q * b + r) * n < q * (b * n) + b * n
    ensures (q * b + r) * n - q * (b * n) == r * n
  {
    assert (q * b + r) * n == q * (b * n) + r * n;
    AtLeastOne(b - r, n);
    assert (b - r) * n == b * n - r * n;
    assert r * n >= 0;
    assert b * n > 0;
  }

  /** Rounding to five decimals stays inside the unit interval on all but its
      outermost two hundred-thousandths. */
  lemma RoundedInside(q: real)
    requires 0.0 < q < 1.0
    ensures 0.0 < Rounded(q) < 1.0 <==> 0.000005 <= q < 0.999995
  {
    var n := (q * 100000.0 + 0.5).Floor;
    assert n >= 1 <==> q * 100000.0 + 0.5 >= 1.0;
    assert n < 100000 <==> q * 100000.0 + 0.5 < 100000.0;
  }

  /** What the column keeps has five decimals and is off by no more than half of the
      last one, upwards at a half. */
  lemma RoundedExactly(q: real)
    ensures FiveDecimals(Rounded(q)) && -0.000005 < Rounded(q) - q <= 0.000005
  {
    var n := (q * 100000.0 + 0.5).Floor;
    assert Rounded(q) * 100000.0 == n as real;
  }

  lemma WholeSecondsKept(f: Forecast)
    requires ConsistentForecast(f)
    ensures WholeSeconds(f.horizon) == f.horizon && WholeSeconds(f.training) == f.training
            && WholeSeconds(f.interval) == f.interval
    ensures f.horizon / SECOND > 0 && f.training / SECOND > 0 && f.interval / SECOND > 0
    ensures WholeSeconds(f.startup) == f.startup - f.startup % SECOND
            && WholeSeconds(f.buffer) == f.buffer - f.buffer % SECOND
  {
  }

  /** Of the workloads the parser lets through, the CHECK constraints accept
      exactly those whose own horizon, without startup and buffer, is a whole
      number of sampling intervals and whose quantile does not round to zero or
      one. */
  lemma StorableExactly(d: Spec)
    requires Consistent(d)
    ensures Storable(d) <==> d.forecast.horizon % d.forecast.interval == 0 && 0.000005 <= d.forecast.quantile < 0.999995
  {
    hide Rounded, WholeSeconds, DecisionHorizon;
    var f := d.forecast;
    WholeSecondsKept(f);
    RoundedInside(f.quantile);
    assert f.horizon == f.horizon / SECOND * SECOND && f.interval == f.interval / SECOND * SECOND;
    ScaledDivision(f.horizon / SECOND, f.interval / SECOND, SECOND);
    assert f.timezone[0] != ' ';
  }

  /** The parser's rule is about the decision horizon, so it lets through what
      the table refuses: here 90s of horizon and 30s of startup on a one-minute
      grid. */
  lemma ParserIsMoreLenient(d: Spec, o: Options)
    requires d.forecast == Forecast(90 * SECOND, 0.95, 30 * DAY, MINUTE, "xgboost", "UTC", 30 * SECOND, 0, false, false)
    requires d.revision == Revision(d.source.server, d.source.query, d.source.threshold, d.bounds, d.forecast)
    requires GoodBounds(d.bounds) && d.source.threshold > 0.0 && MinimumTraining(o) <= 30 * DAY
    ensures AllowedForecast(d.forecast, o) && Consistent(d) && !Storable(d)
  {
    StorableExactly(d);
  }

  /** It also lets through a quantile that the column rounds to one. */
  lemma QuantileRoundsToOne(d: Spec, o: Options)
    requires d.forecast == Forecast(60 * SECOND, 0.999999, 30 * DAY, MINUTE, "xgboost", "UTC", 0, 0, false, false)
    requires d.revision == Revision(d.source.server, d.source.query, d.source.threshold, d.bounds, d.forecast)
    requires GoodBounds(d.bounds) && d.source.threshold > 0.0 && MinimumTraining(o) <= 30 * DAY
    ensures AllowedForecast(d.forecast, o) && Consistent(d) && !Storable(d)
    ensures d.forecast.horizon % d.forecast.interval == 0
  {
    StorableExactly(d);
  }

  predicate FiveDecimals(q: real) { (q * 100000.0).Floor as real == q * 100000.0 }

  lemma RoundedKeeps(q: real)
    ensures Rounded(q) == q <==> FiveDecimals(q)
  {
    var n := (q * 100000.0 + 0.5).Floor;
    if Rounded(q) == q { assert q * 100000.0 == n as real; }
    if FiveDecimals(q) {
      var m := (q * 100000.0).Floor;
      assert m as real + 0.5 == q * 100000.0 + 0.5;
      assert n == m;
    }
  }

  /** Storing and reading back returns the accepted workload exactly when startup
      and buffer are whole seconds and the quantile has five decimals. */
  lemma SavedExactly(d: Spec)
    requires Consistent(d)
    ensures Saved(d) == d <==>
            d.forecast.startup % SECOND == 0 && d.forecast.buffer % SECOND == 0
            && FiveDecimals(d.forecast.quantile)
  {
    hide Rounded, FiveDecimals, WholeSeconds, DecisionHorizon;
    WholeSecondsKept(d.forecast);
    RoundedKeeps(d.forecast.quantile);
    var f := Saved(d).forecast;
    assert Saved(d) == d <==> f == d.forecast;
  }

  function LostSeconds(f: Forecast): Duration { f.startup % SECOND + f.buffer % SECOND }

  /** The decision horizon of what is read back is shorter by the parts of a
      second that startup and buffer lose. */
  lemma SavedDecisionHorizon(d: Spec)
    requires ConsistentForecast(d.forecast)
    ensures DecisionHorizon(Saved(d).forecast) == DecisionHorizon(d.forecast) - LostSeconds(d.forecast)
  {
    hide Rounded, WholeSeconds;
    WholeSecondsKept(d.forecast);
    WrapBack(d.forecast.horizon + d.forecast.startup + d.forecast.buffer, LostSeconds(d.forecast));
  }

  lemma WrapBack(x: int, lost: int)
    requires Wrap64(x) > 0 && 0 <= lost < 2 * SECOND
    ensures Wrap64(x - lost) == Wrap64(x) - lost
  {
    var m, h := 0x1_0000_0000_0000_0000, 0x8000_0000_0000_0000;
    DivBounds(x + h, m);
    DivUnique(x - lost + h, m, (x + h) / m);
  }

  /** So the parser's own rule still holds of what is read back exactly when
      nothing was lost, or a whole second on a grid of one second. */
  lemma SavedStaysOnGrid(d: Spec)
    requires ConsistentForecast(d.forecast)
    ensures DecisionHorizon(Saved(d).forecast) % d.forecast.interval == 0 <==>
            LostSeconds(d.forecast) == 0 || (LostSeconds(d.forecast) == SECOND && d.forecast.interval == SECOND)
  {
    hide Saved, DecisionHorizon;
    var i, lost, whole := d.forecast.interval, LostSeconds(d.forecast), DecisionHorizon(d.forecast);
    SavedDecisionHorizon(d);
    assert i >= SECOND;
    DivBounds(whole, i);
    var q := whole / i;
    assert whole == q * i;
    if lost == i {
      assert whole - lost == (q - 1) * i;
      DivUnique(whole - lost, i, q - 1);
    } else if 0 < lost < i {
      assert whole - lost == (q - 1) * i + (i - lost);
      DivUnique(whole - lost, i, q - 1);
    } else if lost > i {
      assert i == SECOND;
      assert whole - lost == (q - 2) * i + (2 * i - lost);
      DivUnique(whole - lost, i, q - 2);
    }
  }

  /** Half a second of startup and the rest of the minute as buffer: accepted and
      stored, but what is read back has a decision horizon off the grid. */
  lemma AcceptedThenOffGrid(d: Spec, o: Options)
    requires d.forecast == Forecast(10 * MINUTE, 0.95, 30 * DAY, MINUTE, "xgboost", "UTC", SECOND / 2,
                                    MINUTE - SECOND / 2, false, false)
    requires d.revision == Revision(d.source.server, d.source.query, d.source.threshold, d.bounds, d.forecast)
    requires GoodBounds(d.bounds) && d.source.threshold > 0.0 && MinimumTraining(o) <= 30 * DAY
    ensures AllowedForecast(d.forecast, o) && Consistent(d) && Storable(d)
    ensures DecisionHorizon(Saved(d).forecast) % d.forecast.interval != 0
  {
    hide Rounded, WholeSeconds, Storable, Saved;
    StorableExactly(d);
    SavedStaysOnGrid(d);
    assert LostSeconds(d.forecast) == SECOND;
  }

  // ----- the transaction

  /** One upsert: insert under a new id, or overwrite everything but the id. */
  function Upserted(t: Tables, r: Request, d: Spec, now: int): Tables {
    var existed := d.key in t.rows;
    var id := if existed then t.rows[d.key].id else t.nextId;
    var rows := t.rows[d.key := Row(id, r.uid, r.generation, Saved(d), true, None, now)];
    var stored := Tables(rows, t.models, t.runs, if existed then t.nextId else t.nextId + 1);
    if d.forecast.clear && (!existed || t.rows[d.key].spec.revision != d.revision) then Cleared(stored, id) else stored
  }

  /** Every model of the workload goes; its runs stay without their model. */
  function Cleared(t: Tables, workload: nat): Tables {
    t.(models := map m | m in t.models && t.models[m] != workload :: t.models[m],
       runs := map m | m in t.runs :: if t.runs[m].workload == workload then t.runs[m].(model := None) else t.runs[m])
  }

  function UpsertedAll(t: Tables, r: Request, ds: seq<Spec>, now: int): Tables {
    if ds == [] then t else Upserted(UpsertedAll(t, r, ds[..|ds| - 1], now), r, ds[|ds| - 1], now)
  }

  function Off(row: Row, now: int): Row {
    row.(active := false, deactivatedAt := if row.deactivatedAt.Some? then row.deactivatedAt else Some(now),
         updatedAt := now)
  }

  function Deactivated(t: Tables, parent: Parent, kept: set<string>, now: int): Tables {
    t.(rows := map k | k in t.rows ::
         if k.parent == parent && t.rows[k].active && k.trigger !in kept then Off(t.rows[k], now) else t.rows[k])
  }

  function TriggerNames(ds: seq<Spec>): set<string> { set d | d in ds :: d.key.trigger }

  function Reconciled(t: Tables, r: Request, now: int): Tables {
    Deactivated(UpsertedAll(t, r, r.desired, now), r.parent, TriggerNames(r.desired), now)
  }

  /** The CHECK constraints, one after the other, on what the columns hold. */
  method CheckConstraints(d: Spec) returns (ok: bool)
    ensures ok == Storable(d)
  {
    hide Rounded;
    var f := d.forecast;
    if d.bounds.min < 0 || d.bounds.max <= 0 || d.bounds.max < d.bounds.min { return false; }
    var horizon, training, interval := Seconds(f.horizon), Seconds(f.training), Seconds(f.interval);
    KeptSeconds(f.horizon);
    KeptSeconds(f.training);
    KeptSeconds(f.interval);
    if horizon <= 0 || training <= 0 || interval <= 0 || horizon % interval != 0 { return false; }
    var quantile := Rounded(f.quantile);
    if quantile <= 0.0 || quantile >= 1.0 { return false; }
    KeptSeconds(f.startup);
    KeptSeconds(f.buffer);
    if Seconds(f.startup) < 0 || Seconds(f.buffer) < 0 { return false; }
    for n := 0 to |f.timezone|
      invariant forall k :: 0 <= k < n ==> f.timezone[k] == ' '
    {
      if f.timezone[n] != ' ' { return true; }
    }
    ok := false;
  }

  lemma KeptSeconds(d: Duration)
    ensures WholeSeconds(d) / SECOND == Seconds(d) && (WholeSeconds(d) >= 0 <==> Seconds(d) >= 0)
  {
    MultipleMod(Seconds(d), SECOND);
  }

  class Repository {
    var rows: map<Key, Row>
    var models: map<nat, nat>
    var runs: map<nat, Run>
    var nextId: nat

    constructor ()
      ensures Value() == Tables(map[], map[], map[], 0)
    {
      rows, models, runs, nextId := map[], map[], map[], 0;
    }

    function Value(): Tables
      reads this
    {
      Tables(rows, models, runs, nextId)
    }

    method UpsertWorkload(r: Request, d: Spec, now: int) returns (ok: bool)
      modifies this
      ensures ok <==> Storable(d)
      ensures Value() == if ok then Upserted(old(Value()), r, d, now) else old(Value())
    {
      var existed := d.key in rows;
      var storable := CheckConstraints(d);
      if !storable { return false; }
      var id := nextId;
      var previous := None;
      if existed {
        id := rows[d.key].id;
        previous := Some(rows[d.key].spec.revision);
      } else {
        nextId := nextId + 1;
      }
      rows := rows[d.key := Row(id, r.uid, r.generation, Saved(d), true, None, now)];
      if d.forecast.clear && (!existed || previous != Some(d.revision)) {
        runs := map m | m in runs :: if runs[m].workload == id then runs[m].(model := None) else runs[m];
        models := map m | m in models && models[m] != id :: models[m];
      }
      ok := true;
    }

    /** The transaction either reaches its commit or leaves every table as it
        was. */
    method Reconcile(r: Request, now: int) returns (ok: bool)
      modifies this
      ensures ok <==> AllStorable(r.desired)
      ensures Value() == if ok then Reconciled(old(Value()), r, now) else old(Value())
    {
      hide Upserted, Deactivated, Storable;
      ghost var before := Value();
      var savedRows, savedModels, savedRuns, savedId := rows, models, runs, nextId;
      var names: set<string> := {};
      for i := 0 to |r.desired|
        invariant AllStorable(r.desired[..i]) && names == TriggerNames(r.desired[..i])
        invariant Value() == UpsertedAll(before, r, r.desired[..i], now)
      {
        var stored := UpsertWorkload(r, r.desired[i], now);
        assert r.desired[i] in r.desired;
        if !stored {
          rows, models, runs, nextId := savedRows, savedModels, savedRuns, savedId;
          return false;
        }
        assert r.desired[..i + 1][..i] == r.desired[..i];
        assert r.desired[..i + 1] == r.desired[..i] + [r.desired[i]];
        names := names + {r.desired[i].key.trigger};
      }
      assert r.desired[..|r.desired|] == r.desired;
      DeactivateWorkloads(r.parent, names, now);
      ok := true;
    }

    method DeactivateWorkloads(parent: Parent, kept: set<string>, now: int)
      modifies this`rows
      ensures Value() == Deactivated(old(Value()), parent, kept, now)
    {
      rows := map k | k in rows ::
        if k.parent == parent && rows[k].active && k.trigger !in kept then
          rows[k].(active := false,
                   deactivatedAt := if rows[k].deactivatedAt.Some? then rows[k].deactivatedAt else Some(now),
                   updatedAt := now)
        else rows[k];
    }

    method DeactivateParent(parent: Parent, now: int)
      modifies this`rows
      ensures Value() == Deactivated(old(Value()), parent, {}, now)
    {
      DeactivateWorkloads(parent, {}, now);
    }
  }

  // ----- what a reconciliation achieves

  ghost predicate Wanted(ds: seq<Spec>, key: Key) {
    exists d :: d in ds && d.key == key
  }

  ghost predicate DistinctKeys(ds: seq<Spec>) {
    forall i, j :: 0 <= i < j < |ds| ==> ds[i].key != ds[j].key
  }

  /** The workload at this key gives up its models when d is stored. */
  predicate Clears(t: Tables, d: Spec, workload: nat) {
    d.key in t.rows && t.rows[d.key].id == workload && d.forecast.clear && t.rows[d.key].spec.revision != d.revision
  }

  ghost predicate ClearedBy(t: Tables, ds: seq<Spec>, workload: nat) {
    exists d :: d in ds && Clears(t, d, workload)
  }

  /** The upserts store each desired workload, keep every id and leave all
      other rows alone. */
  ghost predicate RowsEffect(t: Tables, u: Tables, r: Request, ds: seq<Spec>) {
    && t.nextId <= u.nextId
    && (forall k :: k in u.rows <==> k in t.rows || Wanted(ds, k))
    && (forall k :: k in t.rows ==> u.rows[k].id == t.rows[k].id)
    && (forall k :: k in u.rows && k !in t.rows ==> t.nextId <= u.rows[k].id)
    && (forall k :: k in t.rows && !Wanted(ds, k) ==> u.rows[k] == t.rows[k])
    && (forall d :: d in ds ==> Stored(u, r, d))
  }

  predicate Stored(t: Tables, r: Request, d: Spec) {
    && d.key in t.rows
    && t.rows[d.key] == Row(t.rows[d.key].id, r.uid, r.generation, Saved(d), true, None, t.rows[d.key].updatedAt)
  }

  /** Exactly the models of workloads that ask for it and whose policy changes
      are removed, and their runs forget them. */
  ghost predicate ModelsEffect(t: Tables, u: Tables, ds: seq<Spec>) {
    && (forall m :: m in u.models <==> m in t.models && !ClearedBy(t, ds, t.models[m]))
    && (forall m :: m in u.models ==> u.models[m] == t.models[m])
    && u.runs.Keys == t.runs.Keys
    && (forall m :: m in t.runs ==> u.runs[m] == RunAfter(t, ds, m))
  }

  ghost function RunAfter(t: Tables, ds: seq<Spec>, m: nat): Run
    requires m in t.runs
  {
    if ClearedBy(t, ds, t.runs[m].workload) then t.runs[m].(model := None) else t.runs[m]
  }

  lemma WantedGrows(ds: seq<Spec>, d: Spec, key: Key)
    ensures Wanted(ds + [d], key) <==> Wanted(ds, key) || d.key == key
  {
    assert d in ds + [d];
    if Wanted(ds, key) {
      var e :| e in ds && e.key == key;
      assert e in ds + [d];
    }
  }

  lemma ClearedGrows(t: Tables, ds: seq<Spec>, d: Spec, workload: nat)
    ensures ClearedBy(t, ds + [d], workload) <==> ClearedBy(t, ds, workload) || Clears(t, d, workload)
  {
    hide Clears;
    assert d in ds + [d];
    if ClearedBy(t, ds, workload) {
      var e :| e in ds && Clears(t, e, workload);
      assert e in ds + [d];
    }
  }

  /** The rows after one upsert, whatever becomes of the models. */
  lemma UpsertedRows(u: Tables, r: Request, d: Spec, now: int)
    ensures var v := Upserted(u, r, d, now);
            && v.nextId == (if d.key in u.rows then u.nextId else u.nextId + 1)
            && var id := if d.key in u.rows then u.rows[d.key].id else u.nextId;
            && v.rows == u.rows[d.key := Row(id, r.uid, r.generation, Saved(d), true, None, now)]
            && v.runs.Keys == u.runs.Keys
            && (forall m :: m in v.models ==> m in u.models && v.models[m] == u.models[m])
            && (forall m :: m in v.runs ==> v.runs[m].workload == u.runs[m].workload)
  {
  }

  lemma RowsStep(t: Tables, u: Tables, r: Request, ds: seq<Spec>, d: Spec, now: int)
    requires RowsEffect(t, u, r, ds) && WellFormed(u) && !Wanted(ds, d.key)
    ensures RowsEffect(t, Upserted(u, r, d, now), r, ds + [d])
  {
    hide WellFormed, Wanted, Upserted, Saved;
    UpsertedRows(u, r, d, now);
    forall k ensures Wanted(ds + [d], k) <==> Wanted(ds, k) || d.key == k { WantedGrows(ds, d, k); }
    forall e | e in ds ensures e.key != d.key { WantedMember(ds, e); }
  }

  lemma WantedMember(ds: seq<Spec>, d: Spec)
    requires d in ds
    ensures Wanted(ds, d.key)
  {
  }

  lemma KeepsWellFormed(u: Tables, r: Request, d: Spec, now: int)
    requires WellFormed(u)
    ensures WellFormed(Upserted(u, r, d, now))
  {
    hide Upserted;
    UpsertedRows(u, r, d, now);
  }

  /** Until it is stored, a desired workload is judged against the row that was
      there before the transaction. */
  lemma SameRow(t: Tables, u: Tables, r: Request, ds: seq<Spec>, d: Spec)
    requires RowsEffect(t, u, r, ds) && !Wanted(ds, d.key)
    ensures d.key in u.rows <==> d.key in t.rows
    ensures d.key in t.rows ==> u.rows[d.key] == t.rows[d.key]
  {
    hide Wanted;
  }

  /** What one upsert removes, seen from before the transaction. */
  lemma UpsertClears(t: Tables, u: Tables, r: Request, ds: seq<Spec>, d: Spec, workload: nat)
    requires RowsEffect(t, u, r, ds) && !Wanted(ds, d.key) && workload < t.nextId
    ensures var id := if d.key in u.rows then u.rows[d.key].id else u.nextId;
            Clears(t, d, workload) <==>
              d.forecast.clear
              && (d.key !in u.rows || u.rows[d.key].spec.revision != d.revision) && workload == id
  {
    hide Wanted;
    SameRow(t, u, r, ds, d);
  }

  lemma ClearedAfterUpsert(t: Tables, u: Tables, r: Request, ds: seq<Spec>, d: Spec, workload: nat)
    requires RowsEffect(t, u, r, ds) && !Wanted(ds, d.key) && workload < t.nextId
    ensures var id := if d.key in u.rows then u.rows[d.key].id else u.nextId;
            ClearedBy(t, ds + [d], workload) <==>
              || ClearedBy(t, ds, workload)
              || (d.forecast.clear && (d.key !in u.rows || u.rows[d.key].spec.revision != d.revision) && workload == id)
  {
    hide RowsEffect, Wanted, Clears, ClearedBy;
    ClearedGrows(t, ds, d, workload);
    UpsertClears(t, u, r, ds, d, workload);
  }

  lemma ModelsStep(t: Tables, u: Tables, r: Request, ds: seq<Spec>, d: Spec, now: int)
    requires WellFormed(t) && RowsEffect(t, u, r, ds) && ModelsEffect(t, u, ds) && !Wanted(ds, d.key)
    ensures ModelsEffect(t, Upserted(u, r, d, now), ds + [d])
  {
    hide RowsEffect, Wanted, Clears, ClearedBy, Saved;
    var v := Upserted(u, r, d, now);
    var id := if d.key in u.rows then u.rows[d.key].id else u.nextId;
    forall w: nat | w < t.nextId
      ensures ClearedBy(t, ds + [d], w) <==>
              || ClearedBy(t, ds, w)
              || (d.forecast.clear && (d.key !in u.rows || u.rows[d.key].spec.revision != d.revision) && w == id)
    {
      ClearedAfterUpsert(t, u, r, ds, d, w);
    }
    forall m | m in t.runs ensures v.runs[m] == RunAfter(t, ds + [d], m) {
      assert u.runs[m] == RunAfter(t, ds, m);
    }
  }

  lemma {:induction false} UpsertsEffect(t: Tables, r: Request, ds: seq<Spec>, now: int)
    requires WellFormed(t) && DistinctKeys(ds)
    ensures WellFormed(UpsertedAll(t, r, ds, now))
    ensures RowsEffect(t, UpsertedAll(t, r, ds, now), r, ds)
    ensures ModelsEffect(t, UpsertedAll(t, r, ds, now), ds)
  {
    hide WellFormed, RowsEffect, ModelsEffect, Upserted, Wanted;
    if ds == [] {
      NothingUpserted(t, r);
    } else {
      var n := |ds| - 1;
      UpsertsEffect(t, r, ds[..n], now);
      var u := UpsertedAll(t, r, ds[..n], now);
      NotYetWanted(ds);
      RowsStep(t, u, r, ds[..n], ds[n], now);
      KeepsWellFormed(u, r, ds[n], now);
      ModelsStep(t, u, r, ds[..n], ds[n], now);
      assert ds[..n] + [ds[n]] == ds;
    }
  }

  lemma NotYetWanted(ds: seq<Spec>)
    requires ds != [] && DistinctKeys(ds)
    ensures !Wanted(ds[..|ds| - 1], ds[|ds| - 1].key) && DistinctKeys(ds[..|ds| - 1])
  {
  }

  lemma NothingUpserted(t: Tables, r: Request)
    ensures RowsEffect(t, t, r, []) && ModelsEffect(t, t, [])
  {
  }

  /** Rows of the parent are active exactly when their workload is desired, and
      then hold what the columns keep of it. */
  ghost predicate Serves(t: Tables, parent: Parent, desired: seq<Spec>) {
    && (forall k: Key :: k.parent == parent ==> ((k in t.rows && t.rows[k].active) <==> Wanted(desired, k)))
    && (forall d :: d in desired ==> d.key in t.rows && t.rows[d.key].spec == Saved(d))
  }

  ghost predicate OthersUnchanged(t: Tables, u: Tables, parent: Parent) {
    forall k: Key :: k.parent != parent ==> (k in u.rows <==> k in t.rows) && (k in t.rows ==> u.rows[k] == t.rows[k])
  }

  ghost predicate IdsKept(t: Tables, u: Tables) {
    forall k :: k in t.rows ==> k in u.rows && u.rows[k].id == t.rows[k].id
  }

  lemma DesiredKeys(parent: Parent, ds: seq<Spec>, k: Key)
    requires Coherent(parent, ds)
    ensures Wanted(ds, k) <==> k.parent == parent && k.trigger in TriggerNames(ds)
    ensures DistinctKeys(ds)
  {
    if k.parent == parent && k.trigger in TriggerNames(ds) {
      var d :| d in ds && d.key.trigger == k.trigger;
      assert d.key == k;
    }
  }

  /** One reconciliation: the active workloads of the ScaledObject become the
      desired ones, ids survive, other ScaledObjects are untouched, and only
      the models of workloads that ask for it and change policy are removed. */
  lemma ReconciledEffect(t: Tables, r: Request, now: int)
    requires WellFormed(t) && Coherent(r.parent, r.desired)
    ensures var u := Reconciled(t, r, now);
            && WellFormed(u) && IdsKept(t, u)
            && Serves(u, r.parent, r.desired)
            && OthersUnchanged(t, u, r.parent)
            && ModelsEffect(t, u, r.desired)
  {
    hide ModelsEffect, RowsEffect, Wanted, Coherent, UpsertedAll, WellFormed, Serves, IdsKept, OthersUnchanged;
    forall k
      ensures Wanted(r.desired, k) <==> k.parent == r.parent && k.trigger in TriggerNames(r.desired)
    {
      DesiredKeys(r.parent, r.desired, k);
    }
    DesiredKeys(r.parent, r.desired, Key(r.parent, ""));
    UpsertsEffect(t, r, r.desired, now);
    var u := UpsertedAll(t, r, r.desired, now);
    SwitchedOffKeepsKeys(u, r.parent, TriggerNames(r.desired), now);
    SwitchedOffServes(t, u, r, now);
    SwitchedOffElsewhere(t, u, r, now);
    SameModels(t, u, Reconciled(t, r, now), r.desired);
  }

  lemma SwitchedOffKeepsKeys(u: Tables, parent: Parent, kept: set<string>, now: int)
    requires WellFormed(u)
    ensures WellFormed(Deactivated(u, parent, kept, now))
  {
  }

  lemma SwitchedOffServes(t: Tables, u: Tables, r: Request, now: int)
    requires RowsEffect(t, u, r, r.desired)
    requires forall k :: Wanted(r.desired, k) <==> k.parent == r.parent && k.trigger in TriggerNames(r.desired)
    ensures Serves(Deactivated(u, r.parent, TriggerNames(r.desired), now), r.parent, r.desired)
  {
    hide Wanted, TriggerNames;
    forall d | d in r.desired ensures Wanted(r.desired, d.key) && Stored(u, r, d) { WantedMember(r.desired, d); }
    forall k: Key | Wanted(r.desired, k) ensures k in u.rows && u.rows[k].active { WantedIsStored(u, r, k); }
  }

  lemma WantedIsStored(u: Tables, r: Request, k: Key)
    requires Wanted(r.desired, k) && forall d :: d in r.desired ==> Stored(u, r, d)
    ensures k in u.rows && u.rows[k].active
  {
  }

  lemma SwitchedOffElsewhere(t: Tables, u: Tables, r: Request, now: int)
    requires RowsEffect(t, u, r, r.desired)
    requires forall k :: Wanted(r.desired, k) <==> k.parent == r.parent && k.trigger in TriggerNames(r.desired)
    ensures OthersUnchanged(t, Deactivated(u, r.parent, TriggerNames(r.desired), now), r.parent)
    ensures IdsKept(t, Deactivated(u, r.parent, TriggerNames(r.desired), now))
  {
    hide Wanted, TriggerNames, Stored;
  }

  lemma SameModels(t: Tables, u: Tables, v: Tables, ds: seq<Spec>)
    requires ModelsEffect(t, u, ds) && v.models == u.models && v.runs == u.runs
    ensures ModelsEffect(t, v, ds)
  {
    hide ClearedBy;
  }

  /** The rows at these keys were updated at this time. */
  function Touched(t: Tables, keys: set<Key>, now: int): Tables {
    t.(rows := map k | k in t.rows :: if k in keys then t.rows[k].(updatedAt := now) else t.rows[k])
  }

  function Keys(ds: seq<Spec>): set<Key> { set d | d in ds :: d.key }

  /** Reconciling the same state again, at any later time, changes no id, no
      contents, no model and no run. Only the time of the last update moves on,
      and only in the rows that are desired. */
  lemma ReconcileIsIdempotent(t: Tables, r: Request, now: int, later: int)
    requires WellFormed(t) && Coherent(r.parent, r.desired)
    ensures Reconciled(Reconciled(t, r, now), r, later) == Touched(Reconciled(t, r, now), Keys(r.desired), later)
  {
    hide UpsertedAll, Wanted, Coherent, ModelsEffect, WellFormed, IdsKept, OthersUnchanged, Touched, Stored,
      TriggerNames, Keys, Deactivated;
    var u := Reconciled(t, r, now);
    ReconciledEffect(t, r, now);
    ReconciledStores(t, r, now);
    AlreadyStored(u, r, r.desired, later);
    forall k: Key | k in u.rows && k.parent == r.parent && u.rows[k].active
      ensures k.trigger in TriggerNames(r.desired)
    {
      DesiredKeys(r.parent, r.desired, k);
    }
    NothingToSwitchOff(u, r.parent, TriggerNames(r.desired), Keys(r.desired), later);
  }

  lemma NothingToSwitchOff(u: Tables, parent: Parent, kept: set<string>, keys: set<Key>, now: int)
    requires forall k: Key :: k in u.rows && k.parent == parent && u.rows[k].active ==> k.trigger in kept
    ensures Deactivated(Touched(u, keys, now), parent, kept, now) == Touched(u, keys, now)
  {
    var v := Touched(u, keys, now);
    assert Deactivated(v, parent, kept, now).rows == v.rows;
  }

  lemma ReconciledStores(t: Tables, r: Request, now: int)
    requires WellFormed(t) && Coherent(r.parent, r.desired)
    ensures forall d :: d in r.desired ==> Stored(Reconciled(t, r, now), r, d)
  {
    hide UpsertedAll, Wanted, Coherent, ModelsEffect;
    DesiredKeys(r.parent, r.desired, Key(r.parent, ""));
    UpsertsEffect(t, r, r.desired, now);
    forall d | d in r.desired ensures d.key.parent == r.parent && d.key.trigger in TriggerNames(r.desired) {
      WantedMember(r.desired, d);
      DesiredKeys(r.parent, r.desired, d.key);
    }
  }

  lemma {:induction false} AlreadyStored(u: Tables, r: Request, ds: seq<Spec>, now: int)
    requires forall d :: d in ds ==> Stored(u, r, d)
    ensures UpsertedAll(u, r, ds, now) == Touched(u, Keys(ds), now)
  {
    if ds == [] {
      assert Touched(u, Keys(ds), now).rows == u.rows;
    } else {
      var n := |ds| - 1;
      var d := ds[n];
      assert d in ds && ds[..n] <= ds;
      AlreadyStored(u, r, ds[..n], now);
      assert Keys(ds) == Keys(ds[..n]) + {d.key} by { assert ds == ds[..n] + [d]; }
      StoredAgain(u, r, Keys(ds[..n]), d, now);
    }
  }

  lemma StoredAgain(u: Tables, r: Request, keys: set<Key>, d: Spec, now: int)
    requires Stored(u, r, d)
    ensures Upserted(Touched(u, keys, now), r, d, now) == Touched(u, keys + {d.key}, now)
  {
    assert Upserted(Touched(u, keys, now), r, d, now).rows == Touched(u, keys + {d.key}, now).rows;
  }

  lemma DeactivatedEffect(t: Tables, parent: Parent, now: int)
    requires WellFormed(t)
    ensures var u := Deactivated(t, parent, {}, now);
            WellFormed(u) && IdsKept(t, u) && Serves(u, parent, []) && OthersUnchanged(t, u, parent)
              && u.models == t.models && u.runs == t.runs
  {
  }
}
