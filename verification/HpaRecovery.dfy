/** The recovery loop of internal/controller/hpa_recovery.go: which HPAs are
    probed in a scan, and how attempts are spaced over whole runs of scans. */
module HpaRecovery {
  import opened Observations
  import opened Wrappers

  datatype Key = Key(namespace: string, name: string)

  /** The zero nextAttempt of a fresh state is in the past of every scan. */
  datatype State = State(uid: string, attempts: int, nextAttempt: Option<int>)

  /** What a scan finds for one ScaledObject: no predictive metrics expected, an
      HPA that cannot be read, is absent or belongs to someone else, or an HPA
      with the external metrics it has now. */
  datatype Finding =
    | NothingExpected | ReadFailed | NoHpa | NotOwned
    | Hpa(uid: string, present: set<string>, expected: seq<string>)

  datatype Found = Found(key: Key, finding: Finding)

  // ----- backoff

  function Power2(n: nat): (p: int)
    ensures p >= 1
  {
    if n == 0 then 1 else 2 * Power2(n - 1)
  }

  lemma {:induction false} Power2Grows(m: nat, n: nat)
    requires m <= n
    ensures Power2(m) <= Power2(n)
  {
    if m < n { Power2Grows(m, n - 1); }
  }

  function Ceiling(interval: Duration): Duration { Max(5 * MINUTE, interval) }

  /** The documented delay: doubled with every attempt, up to the ceiling. */
  function Delay(interval: Duration, attempt: int): Duration
    requires interval > 0
  {
    Min(interval * Power2(if attempt < 1 then 0 else attempt - 1), Ceiling(interval))
  }

  lemma Doubled(interval: Duration, k: nat)
    ensures interval * Power2(k + 1) == 2 * (interval * Power2(k))
  {
  }

  lemma PowerOrdered(interval: Duration, a: int, b: int)
    requires interval > 0 && a <= b
    ensures interval * a <= interval * b
  {
    assert interval * b - interval * a == interval * (b - a);
  }

  lemma FirstDelay(interval: Duration)
    ensures interval * Power2(0) == interval
  {
  }

  lemma CeilingReached(interval: Duration, k: nat, attempt: int)
    requires interval > 0 && k <= attempt - 1 && interval * Power2(k) >= Ceiling(interval)
    ensures Delay(interval, attempt) == Ceiling(interval)
  {
    hide Power2, Ceiling;
    Power2Grows(k, attempt - 1);
    PowerOrdered(interval, Power2(k), Power2(attempt - 1));
  }

  method Backoff(interval: Duration, attempt: int) returns (delay: Duration)
    requires interval > 0
    ensures delay == Delay(interval, attempt)
  {
    hide Power2;
    delay := interval;
    var maximum := 5 * MINUTE;
    if maximum < delay { maximum := delay; }
    var i := 1;
    FirstDelay(interval);
    while i < attempt && delay < maximum
      invariant 1 <= i && (attempt >= 1 ==> i <= attempt) && (attempt < 1 ==> i == 1)
      invariant delay == interval * Power2(i - 1) && delay <= maximum
    {
      Doubled(interval, i - 1);
      if delay > maximum / 2 {
        CeilingReached(interval, i, attempt);
        return maximum;
      }
      delay := delay * 2;
      i := i + 1;
    }
    if i < attempt { CeilingReached(interval, i - 1, attempt); }
  }

  /** Waiting never gets shorter, is at least the scan interval and at most the
      ceiling. */
  lemma DelayIsMonotone(interval: Duration, a: int, b: int)
    requires interval > 0 && a <= b
    ensures interval <= Delay(interval, a) <= Delay(interval, b) <= Ceiling(interval)
  {
    hide Power2;
    var m, n := if a < 1 then 0 else a - 1, if b < 1 then 0 else b - 1;
    FirstDelay(interval);
    Power2Grows(0, m);
    Power2Grows(m, n);
    PowerOrdered(interval, Power2(0), Power2(m));
    PowerOrdered(interval, Power2(m), Power2(n));
  }

  // ----- one HPA in one scan

  /** The expected metrics the HPA does not have, in order. */
  function Missing(present: set<string>, expected: seq<string>): seq<string> {
    if expected == [] then [] else
      var rest := Missing(present, expected[..|expected| - 1]);
      if expected[|expected| - 1] in present then rest else rest + [expected[|expected| - 1]]
  }

  lemma {:induction false} MissingIsExact(present: set<string>, expected: seq<string>)
    ensures forall x :: x in Missing(present, expected) <==> x in expected && x !in present
  {
    if expected != [] {
      MissingIsExact(present, expected[..|expected| - 1]);
      assert expected == expected[..|expected| - 1] + [expected[|expected| - 1]];
    }
  }

  predicate Lacks(f: Finding) { f.Hpa? && Missing(f.present, f.expected) != [] }

  /** The state the scan starts from: another HPA of the same name starts over. */
  function Known(before: Option<State>, uid: string): State {
    if before.Some? && before.value.uid == uid then before.value else State(uid, 0, None)
  }

  predicate Waits(s: State, now: int) { s.nextAttempt.Some? && now < s.nextAttempt.value }

  predicate Probes(before: Option<State>, f: Finding, now: int) {
    Lacks(f) && !Waits(Known(before, f.uid), now)
  }

  /** The state after a scan that found f: none unless the HPA was seen. */
  function Advance(before: Option<State>, f: Finding, now: int, interval: Duration): Option<State>
    requires interval > 0
  {
    if !f.Hpa? then None
    else if !Lacks(f) then Some(State(f.uid, 0, None))
    else
      var known := Known(before, f.uid);
      if Waits(known, now) then before
      else
        var attempts := if known.attempts < 10 then known.attempts + 1 else known.attempts;
        Some(State(f.uid, attempts, Some(now + Delay(interval, attempts))))
  }

  function Entry(states: map<Key, State>, key: Key): Option<State> { if key in states then Some(states[key]) else None }

  predicate DistinctKeys(found: seq<Found>) {
    forall i, j :: 0 <= i < j < |found| ==> found[i].key != found[j].key
  }

  ghost predicate Probed(states: map<Key, State>, found: seq<Found>, now: int, key: Key) {
    exists i :: 0 <= i < |found| && found[i].key == key && Probes(Entry(states, key), found[i].finding, now)
  }

  class Recovery {
    const interval: Duration
    var states: map<Key, State>

    constructor (d: Duration)
      ensures states == map[] && interval == if d > 0 then d else 30 * SECOND
    {
      interval := if d > 0 then d else 30 * SECOND;
      states := map[];
    }

    /** One HPA that was seen: its next state, and whether it is probed now. */
    method Examine(key: Key, f: Finding, now: int) returns (after: State, attempt: bool)
      requires interval > 0 && f.Hpa?
      ensures Advance(Entry(states, key), f, now, interval) == Some(after)
      ensures attempt <==> Probes(Entry(states, key), f, now)
    {
      hide Delay, Missing;
      var missing := MissingOf(f.present, f.expected);
      var state := if key in states then states[key] else State("", 0, None);
      if key !in states || state.uid != f.uid { state := State(f.uid, 0, None); }
      if |missing| == 0 { return State(f.uid, 0, None), false; }
      if state.nextAttempt.Some? && now < state.nextAttempt.value { return state, false; }
      var attempts := state.attempts;
      if attempts < 10 { attempts := attempts + 1; }
      var delay := Backoff(interval, attempts);
      return State(f.uid, attempts, Some(now + delay)), true;
    }

    /** One completed scan. Afterwards the states are those of the HPAs it saw,
        each advanced by one step; `repairs` holds the HPAs whose probe and patch
        both succeeded. */
    method Check(found: seq<Found>, now: int, probe: Key -> bool, patch: Key -> bool)
      returns (probed: seq<Key>, repairs: seq<Key>)
      requires interval > 0 && DistinctKeys(found)
      modifies this`states
      ensures forall i :: 0 <= i < |found| ==>
              Entry(states, found[i].key) ==
              Advance(old(Entry(states, found[i].key)), found[i].finding, now, interval)
      ensures forall key :: key in states ==> exists i :: 0 <= i < |found| && found[i].key == key
      ensures forall key :: key in probed <==> Probed(old(states), found, now, key)
      ensures forall key :: key in repairs <==> key in probed && probe(key) && patch(key)
    {
      hide Probes, Advance, Probed;
      ghost var before := states;
      var seen: set<Key> := {};
      probed, repairs := [], [];
      NothingProbed(states, found, now);
      for n := 0 to |found|
        invariant forall key :: key in seen ==> key in states && exists i :: 0 <= i < n && found[i].key == key
        invariant forall i :: 0 <= i < n ==>
                  Kept(states, seen, found[i].key) ==
                  Advance(Entry(before, found[i].key), found[i].finding, now, interval)
        invariant forall i :: n <= i < |found| ==>
                  Entry(states, found[i].key) == Entry(before, found[i].key)
                  && found[i].key !in seen
        invariant forall key :: key in probed <==> Probed(before, found[..n], now, key)
        invariant forall key :: key in repairs <==> key in probed && probe(key) && patch(key)
      {
        var key, f := found[n].key, found[n].finding;
        ProbedGrows(before, found, n, now);
        NotSeen(Entry(before, key), f, now, interval);
        if !f.Hpa? { continue; }
        var after, attempt := Examine(key, f, now);
        seen := seen + {key};
        states := states[key := after];
        if !attempt { continue; }
        probed := probed + [key];
        if !probe(key) { continue; }
        if !patch(key) { continue; }
        repairs := repairs + [key];
      }
      assert found[..|found|] == found;
      states := map key | key in states && key in seen :: states[key];
    }
  }

  /** The entry that survives the clean-up after a scan. */
  function Kept(states: map<Key, State>, seen: set<Key>, key: Key): Option<State> {
    if key in seen then Entry(states, key) else None
  }

  lemma NotSeen(before: Option<State>, f: Finding, now: int, interval: Duration)
    requires interval > 0
    ensures !f.Hpa? ==> Advance(before, f, now, interval) == None && !Probes(before, f, now)
  {
  }

  lemma NothingProbed(states: map<Key, State>, found: seq<Found>, now: int)
    ensures forall key :: !Probed(states, found[..0], now, key)
  {
  }

  method MissingOf(present: set<string>, expected: seq<string>) returns (missing: seq<string>)
    ensures missing == Missing(present, expected)
  {
    missing := [];
    for n := 0 to |expected|
      invariant missing == Missing(present, expected[..n])
    {
      assert expected[..n + 1][..n] == expected[..n];
      if expected[n] !in present { missing := missing + [expected[n]]; }
    }
    assert expected[..|expected|] == expected;
  }

  lemma ProbedGrows(states: map<Key, State>, found: seq<Found>, n: nat, now: int)
    requires n < |found|
    ensures forall key :: Probed(states, found[..n + 1], now, key) <==>
              Probed(states, found[..n], now, key)
                || (found[n].key == key && Probes(Entry(states, key), found[n].finding, now))
  {
    hide Probes, Entry;
    var longer, shorter := found[..n + 1], found[..n];
    forall key ensures Probed(states, longer, now, key) <==>
        Probed(states, shorter, now, key) || (found[n].key == key && Probes(Entry(states, key), found[n].finding, now))
    {
      if Probed(states, shorter, now, key) {
        var i :| 0 <= i < n && shorter[i].key == key && Probes(Entry(states, key), shorter[i].finding, now);
        assert longer[i] == shorter[i];
      }
      if Probed(states, longer, now, key) {
        var i :| 0 <= i <= n && longer[i].key == key && Probes(Entry(states, key), longer[i].finding, now);
        if i < n { assert shorter[i] == longer[i]; } else { assert longer[i] == found[n]; }
      }
      if found[n].key == key && Probes(Entry(states, key), found[n].finding, now) { assert longer[n] == found[n]; }
    }
  }

  // ----- whole runs of scans

  /** What consecutive scans find for one ScaledObject. */
  datatype Scan = Scan(now: int, finding: Finding)

  function StateAfter(scans: seq<Scan>, interval: Duration): Option<State>
    requires interval > 0
  {
    if scans == [] then None
    else
      var n := |scans| - 1;
      Advance(StateAfter(scans[..n], interval), scans[n].finding, scans[n].now, interval)
  }

  predicate ProbesAt(scans: seq<Scan>, interval: Duration, n: int)
    requires interval > 0 && 0 <= n < |scans|
  {
    Probes(StateAfter(scans[..n], interval), scans[n].finding, scans[n].now)
  }

  /** However the scans turn out, a state counts at most ten attempts, and a
      scheduled next attempt is the backoff of that count away from its scan. */
  lemma {:induction false} AttemptsAreBounded(scans: seq<Scan>, interval: Duration)
    requires interval > 0
    ensures var s := StateAfter(scans, interval);
            s.Some? ==> 0 <= s.value.attempts <= 10 && (s.value.nextAttempt.Some? <==> s.value.attempts > 0)
  {
    hide Delay, Missing;
    if scans != [] { AttemptsAreBounded(scans[..|scans| - 1], interval); }
  }

  predicate SameHpaLacks(a: Finding, b: Finding) { a.Hpa? && b.Hpa? && Lacks(b) && a.uid == b.uid }

  /** The same HPA is found without some metric in every scan from m on. */
  ghost predicate KeepsLacking(scans: seq<Scan>, m: nat, n: nat)
    requires m <= n < |scans|
  {
    forall k :: m <= k <= n ==> SameHpaLacks(scans[m].finding, scans[k].finding)
  }

  /** While the HPA keeps lacking metrics and no probe happens, the state after
      the probe at m stays, and says when the next probe is due. */
  lemma {:induction false} Waiting(scans: seq<Scan>, interval: Duration, m: nat, n: nat)
    requires interval > 0 && m < n < |scans| && KeepsLacking(scans, m, n)
    requires ProbesAt(scans, interval, m)
    requires forall k :: m < k < n ==> !ProbesAt(scans, interval, k)
    ensures StateAfter(scans[..n], interval) == StateAfter(scans[..m + 1], interval)
    ensures var s := StateAfter(scans[..n], interval);
            s.Some? && scans[m].finding.Hpa? && s.value.uid == scans[m].finding.uid && s.value.attempts >= 1
            && s.value.nextAttempt == Some(scans[m].now + Delay(interval, s.value.attempts))
  {
    hide Delay, Missing;
    if n == m + 1 {
      assert scans[..n][..m] == scans[..m];
      AttemptsAreBounded(scans[..m], interval);
    } else {
      Waiting(scans, interval, m, n - 1);
      assert scans[..n][..n - 1] == scans[..n - 1];
      assert !ProbesAt(scans, interval, n - 1) && SameHpaLacks(scans[m].finding, scans[n - 1].finding);
    }
  }

  /** Consecutive probes of an HPA that keeps lacking metrics are at least the
      backoff of its attempt count apart, and each counts one more, up to ten. */
  lemma ProbesAreSpaced(scans: seq<Scan>, interval: Duration, m: nat, n: nat)
    requires interval > 0 && m < n < |scans| && KeepsLacking(scans, m, n)
    requires ProbesAt(scans, interval, m) && ProbesAt(scans, interval, n)
    requires forall k :: m < k < n ==> !ProbesAt(scans, interval, k)
    ensures var s := StateAfter(scans[..m + 1], interval);
            && s.Some? && 1 <= s.value.attempts <= 10
            && scans[n].now - scans[m].now >= Delay(interval, s.value.attempts) >= interval
            && StateAfter(scans[..n + 1], interval).Some?
            && StateAfter(scans[..n + 1], interval).value.attempts == Min(10, s.value.attempts + 1)
  {
    hide Delay, Missing;
    Waiting(scans, interval, m, n);
    AttemptsAreBounded(scans[..n], interval);
    var s := StateAfter(scans[..m + 1], interval);
    DelayIsMonotone(interval, s.value.attempts, s.value.attempts);
    assert scans[..n + 1][..n] == scans[..n];
  }

  /** Scan n finds the same HPA lacking as the scan before it. */
  predicate Continues(scans: seq<Scan>, n: nat)
    requires n < |scans|
  {
    n > 0 && Lacks(scans[n - 1].finding) && SameHpaLacks(scans[n - 1].finding, scans[n].finding)
  }

  /** Anything else in between forgets the backoff: the HPA was not read or not
      seen, its metrics were back, or it was replaced. The next scan that finds
      metrics lacking probes at once, whenever the last probe was, and counts
      from one again. */
  lemma BreakForgetsBackoff(scans: seq<Scan>, interval: Duration, n: nat)
    requires interval > 0 && n < |scans|
    requires Lacks(scans[n].finding) && !Continues(scans, n)
    ensures ProbesAt(scans, interval, n)
    ensures StateAfter(scans[..n + 1], interval) ==
            Some(State(scans[n].finding.uid, 1, Some(scans[n].now + Delay(interval, 1))))
  {
    hide Delay, Missing;
    assert scans[..n + 1][..n] == scans[..n];
    if n > 0 {
      assert scans[..n][..n - 1] == scans[..n - 1];
      StateHasUid(scans[..n], interval);
    }
  }

  /** A state carries the uid of the HPA that the last scan saw, and is fresh when
      nothing was lacking. */
  lemma StateHasUid(scans: seq<Scan>, interval: Duration)
    requires interval > 0 && scans != []
    ensures var s, f := StateAfter(scans, interval), scans[|scans| - 1].finding;
            && (s.Some? <==> f.Hpa?)
            && (s.Some? ==> s.value.uid == f.uid && (!Lacks(f) ==> s.value.nextAttempt == None))
  {
    hide Delay, Missing;
  }

  /** What the scans find, and when they run. */
  function At(times: seq<int>, fs: seq<Finding>): (scans: seq<Scan>)
    requires |times| == |fs|
    ensures |scans| == |fs|
    ensures forall i :: 0 <= i < |fs| ==> scans[i] == Scan(times[i], fs[i])
  {
    seq(|fs|, i requires 0 <= i < |fs| => Scan(times[i], fs[i]))
  }

  ghost predicate Ordered(times: seq<int>) { forall i, j :: 0 <= i < j < |times| ==> times[i] <= times[j] }

  ghost predicate Consecutive(scans: seq<Scan>, interval: Duration, m: nat, n: nat)
    requires interval > 0 && m < n < |scans|
  {
    && ProbesAt(scans, interval, m) && ProbesAt(scans, interval, n)
    && forall k :: m < k < n ==> !ProbesAt(scans, interval, k)
  }

  /** Consecutive probes are at least the backoff of the earlier one apart. */
  ghost predicate Spaced(scans: seq<Scan>, interval: Duration)
    requires interval > 0
  {
    forall m, n :: 0 <= m < n < |scans| && Consecutive(scans, interval, m, n) ==>
      var s := StateAfter(scans[..m + 1], interval);
      s.Some? && scans[n].now - scans[m].now >= Delay(interval, s.value.attempts)
  }

  ghost predicate AlwaysSpaced(fs: seq<Finding>, interval: Duration)
    requires interval > 0
  {
    forall times: seq<int> :: |times| == |fs| && Ordered(times) ==> Spaced(At(times, fs), interval)
  }

  /** Between two scans that find metrics lacking, every scan finds the same HPA
      lacking. */
  ghost predicate Unbroken(fs: seq<Finding>) {
    forall i, j, k :: 0 <= i <= k <= j < |fs| && Lacks(fs[i]) && Lacks(fs[j]) ==> SameHpaLacks(fs[i], fs[k])
  }

  lemma UnbrokenIsSpaced(fs: seq<Finding>, times: seq<int>, interval: Duration)
    requires interval > 0 && |times| == |fs| && Unbroken(fs)
    ensures Spaced(At(times, fs), interval)
  {
    hide Delay, Missing, StateAfter, Lacks;
    var scans := At(times, fs);
    forall m, n | 0 <= m < n < |scans| && Consecutive(scans, interval, m, n)
      ensures var s := StateAfter(scans[..m + 1], interval);
              s.Some? && scans[n].now - scans[m].now >= Delay(interval, s.value.attempts)
    {
      assert Lacks(fs[m]) && Lacks(fs[n]);
      ProbesAreSpaced(scans, interval, m, n);
    }
  }

  /** The scan where a broken run takes up lacking again. */
  lemma {:induction false} BreakExists(fs: seq<Finding>, i: nat, k: nat, j: nat) returns (p: nat)
    requires i <= k <= j < |fs| && Lacks(fs[i]) && Lacks(fs[j]) && !SameHpaLacks(fs[i], fs[k])
    ensures i < p <= j && Lacks(fs[p]) && !(Lacks(fs[p - 1]) && SameHpaLacks(fs[p - 1], fs[p]))
    decreases j - i
  {
    hide Missing;
    if !(Lacks(fs[j - 1]) && SameHpaLacks(fs[j - 1], fs[j])) {
      p := j;
    } else if k == j {
      p := BreakExists(fs, i, j - 1, j - 1);
    } else {
      p := BreakExists(fs, i, k, j - 1);
    }
  }

  /** The last probe before a scan, when there is one at all. */
  lemma {:induction false} LastProbe(scans: seq<Scan>, interval: Duration, l: nat, p: nat) returns (q: nat)
    requires interval > 0 && l < p < |scans| && ProbesAt(scans, interval, l)
    ensures l <= q < p && ProbesAt(scans, interval, q)
    ensures forall k :: q < k < p ==> !ProbesAt(scans, interval, k)
    decreases p
  {
    hide ProbesAt;
    if ProbesAt(scans, interval, p - 1) {
      q := p - 1;
    } else {
      q := LastProbe(scans, interval, l, p - 1);
    }
  }

  lemma {:induction false} FirstLacking(fs: seq<Finding>, i: nat) returns (l: nat)
    requires i < |fs| && Lacks(fs[i])
    ensures l <= i && Lacks(fs[l]) && (l == 0 || !Lacks(fs[l - 1]))
  {
    hide Lacks;
    if i == 0 || !Lacks(fs[i - 1]) { l := i; } else { l := FirstLacking(fs, i - 1); }
  }

  /** Scans that all run at one moment probe twice when the run is broken. */
  lemma BrokenIsTooClose(fs: seq<Finding>, i: nat, k: nat, j: nat, interval: Duration)
    requires interval > 0 && i <= k <= j < |fs| && Lacks(fs[i]) && Lacks(fs[j]) && !SameHpaLacks(fs[i], fs[k])
    ensures !AlwaysSpaced(fs, interval)
  {
    hide Delay, Missing, StateAfter, Lacks, ProbesAt, SameHpaLacks;
    var times := seq(|fs|, n => 0);
    var scans := At(times, fs);
    var p := BreakExists(fs, i, k, j);
    BreakForgetsBackoff(scans, interval, p);
    var l := FirstLacking(fs, i);
    BreakForgetsBackoff(scans, interval, l);
    var q := LastProbe(scans, interval, l, p);
    assert Consecutive(scans, interval, q, p);
    var s := StateAfter(scans[..q + 1], interval);
    if s.Some? { DelayIsMonotone(interval, s.value.attempts, s.value.attempts); }
    assert Ordered(times) && !Spaced(scans, interval);
  }

  /** The backoff is kept, however the scans are timed, exactly when no scan
      between two lacking ones finds anything but the same HPA lacking. */
  lemma SpacedExactly(fs: seq<Finding>, interval: Duration)
    requires interval > 0
    ensures AlwaysSpaced(fs, interval) <==> Unbroken(fs)
  {
    hide Spaced, Lacks, SameHpaLacks;
    if Unbroken(fs) {
      forall times: seq<int> | |times| == |fs| && Ordered(times) ensures Spaced(At(times, fs), interval) {
        UnbrokenIsSpaced(fs, times, interval);
      }
    } else {
      var i, j, k :| 0 <= i <= k <= j < |fs| && Lacks(fs[i]) && Lacks(fs[j]) && !SameHpaLacks(fs[i], fs[k]);
      BrokenIsTooClose(fs, i, k, j, interval);
    }
  }

  /** For instance one scan in between that fails to read the HPA, sees its
      metrics back or sees another HPA: two probes within one scan interval. */
  lemma OneBreakProbesTwice(between: Finding, interval: Duration)
    requires interval > 2
    requires between == ReadFailed || between == Hpa("u", {"s0"}, ["s0"]) || between == Hpa("v", {}, ["s0"])
    ensures var lacking := Hpa("u", {}, ["s0"]);
            var scans := [Scan(0, lacking), Scan(1, between), Scan(2, lacking)];
            ProbesAt(scans, interval, 0) && ProbesAt(scans, interval, 2)
              && scans[2].now - scans[0].now < Delay(interval, 1)
  {
    hide Delay, Power2;
    var lacking := Hpa("u", {}, ["s0"]);
    var scans := [Scan(0, lacking), Scan(1, between), Scan(2, lacking)];
    assert ["s0"][..0] == [];
    assert Lacks(lacking);
    BreakForgetsBackoff(scans, interval, 0);
    BreakForgetsBackoff(scans, interval, 2);
    DelayIsMonotone(interval, 1, 1);
  }
}
