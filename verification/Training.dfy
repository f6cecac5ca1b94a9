/** The choice of training data in internal/dataset/training.go: the newest
    sufficiently long stretch of real observations without a missing slot. */
module Training {
  import opened Observations
  import opened Windows
  import opened Wrappers

  datatype Failure = InvalidPolicy | InvalidObservation | InsufficientHistory

  /** Points [a, b) are a stretch of consecutive slots that cannot be extended
      on either side. */
  predicate IsRun(points: seq<Sample>, interval: Duration, a: int, b: int)
    requires interval > 0
  {
    && 0 <= a < b <= |points|
    && Complete(points, interval, a, b - 1)
    && (a == 0 || !Follows(points, interval, a))
    && (b == |points| || !Follows(points, interval, b))
  }

  /** No gap-free stretch of `minimum` points, run or part of one, has its last
      point in [after, until). */
  ghost predicate NoneIn(points: seq<Sample>, interval: Duration, minimum: int, after: int, until: int)
    requires interval > 0 && minimum > 0
  {
    forall x, last :: 0 <= x && x + minimum <= last + 1 <= |points| && after <= last < until ==>
      !Complete(points, interval, x, last)
  }

  /** [a, b) is the newest run of at least `minimum` points among the first
      `until`. */
  ghost predicate IsNewest(points: seq<Sample>, interval: Duration, minimum: int, a: int, b: int, until: int)
    requires interval > 0 && minimum > 0
  {
    IsRun(points, interval, a, b) && b - a >= minimum && NoneIn(points, interval, minimum, b, until)
  }

  /** A short run contains no long stretch, and neither do stretches that would
      have to cross into it. */
  lemma ShortRun(points: seq<Sample>, interval: Duration, minimum: int, a: int, b: int)
    requires interval > 0 && minimum > 0 && IsRun(points, interval, a, b) && b - a < minimum
    ensures NoneIn(points, interval, minimum, a, b)
  {
    hide Follows;
    forall x, last | 0 <= x && x + minimum <= last + 1 <= |points| && a <= last < b
      ensures !Complete(points, interval, x, last)
    {
      assert x < a <= last;
    }
  }

  lemma RunStops(points: seq<Sample>, interval: Duration, start: int, i: int)
    requires interval > 0 && 0 <= start < i <= |points| && Complete(points, interval, start, i - 1)
    ensures i < |points| && Follows(points, interval, i) ==> Complete(points, interval, start, i)
  {
    hide Follows;
  }

  lemma SinglePoint(points: seq<Sample>, interval: Duration, i: int)
    requires interval > 0 && 0 <= i < |points|
    ensures Complete(points, interval, i, i)
  {
  }

  /** The newest run of at least `minimum` points. */
  method NewestRun(points: seq<Sample>, interval: Duration, minimum: int) returns (found: Option<(int, int)>)
    requires interval > 0 && minimum >= 2
    ensures found.Some? ==> IsNewest(points, interval, minimum, found.value.0, found.value.1, |points|)
    ensures found.None? <==> NoneIn(points, interval, minimum, 0, |points|)
  {
    hide Truncate, Slot, Follows, Complete;
    found := None;
    var start := 0;
    if points == [] { return; }
    SinglePoint(points, interval, 0);
    for i := 1 to |points| + 1
      invariant if i <= |points| then 0 <= start < i else start == |points|
      invariant i <= |points| ==> Complete(points, interval, start, i - 1)
      invariant start == 0 || start == |points| || !Follows(points, interval, start)
      invariant found.Some? ==> IsNewest(points, interval, minimum, found.value.0, found.value.1, start)
      invariant found.None? ==> NoneIn(points, interval, minimum, 0, start)
    {
      RunStops(points, interval, start, i);
      if i < |points| { FollowsStep(points, interval, i); SinglePoint(points, interval, i); }
      if i < |points| && Truncate(points[i].at, interval) - Truncate(points[i - 1].at, interval) == interval {
        continue;
      }
      if i - start >= minimum {
        found := Some((start, i));
      } else {
        ShortRun(points, interval, minimum, start, i);
      }
      start := i;
    }
  }

  lemma FollowsStep(points: seq<Sample>, interval: Duration, i: nat)
    requires interval > 0 && 0 < i < |points|
    ensures Follows(points, interval, i) <==>
            Truncate(points[i].at, interval) - Truncate(points[i - 1].at, interval) ==
            interval
  {
    hide Slot, Truncate;
    TruncateSteps(points[i].at, points[i - 1].at, interval);
  }

  method TrainingSegment(observed: seq<Sample>, interval: Duration, minimum: int)
    returns (result: Result<seq<Sample>, Failure>)
    ensures result == Err(InvalidPolicy) <==> interval <= 0 || minimum < 2
    ensures interval > 0 && minimum >= 2 ==> (result == Err(InvalidObservation) <==> !ValidObservations(observed))
    ensures interval > 0 && minimum >= 2 && ValidObservations(observed) ==>
            (result == Err(InsufficientHistory) <==>
             NoneIn(Dedup(observed, interval), interval, minimum, 0, |Dedup(observed, interval)|))
    ensures result.Ok? ==>
              var points := Dedup(observed, interval);
              exists a, b :: IsNewest(points, interval, minimum, a, b, |points|) && result.value == points[a..b]
  {
    hide Dedup, NoneIn, Complete;
    if interval <= 0 || minimum < 2 { return Err(InvalidPolicy); }
    var cleaned := KeepLatest(observed, interval, true);
    if cleaned.None? { return Err(InvalidObservation); }
    var found := NewestRun(cleaned.value, interval, minimum);
    if found.None? { return Err(InsufficientHistory); }
    result := Ok(cleaned.value[found.value.0..found.value.1]);
  }

  /** p is an observation, the latest one of its slot. */
  predicate IsLatestPoint(observed: seq<Sample>, interval: Duration, p: Sample)
    requires interval > 0
  {
    exists i :: 0 <= i < |observed| && LatestOfSlot(observed, interval, i) && observed[i] == p
  }

  lemma KeptIsLatest(observed: seq<Sample>, interval: Duration, origin: seq<int>, r: seq<Sample>, k: nat)
    requires interval > 0 && IsDedup(observed, interval, r, origin) && k < |r|
    ensures IsLatestPoint(observed, interval, r[k])
  {
    hide Slot;
    assert LatestOfSlot(observed, interval, origin[k]);
  }

  /** What the trainer receives: at least `minimum` of the observations, one per
      slot, on consecutive slots, each the latest of its slot. */
  lemma SegmentIsRegular(observed: seq<Sample>, interval: Duration, minimum: int, a: int, b: int, r: seq<Sample>)
    requires interval > 0 && minimum >= 2 && ValidObservations(observed)
    requires IsNewest(Dedup(observed, interval), interval, minimum, a, b, |Dedup(observed, interval)|)
    requires r == Dedup(observed, interval)[a..b]
    ensures |r| >= minimum
    ensures forall k :: 0 <= k < |r| ==> Slot(r[k].at, interval) == Slot(r[0].at, interval) + k
    ensures forall k :: 0 <= k < |r| ==> IsLatestPoint(observed, interval, r[k])
  {
    hide Slot, Follows, NoneIn, Dedup, IsLatestPoint, IsDedup;
    var points := Dedup(observed, interval);
    CompleteSlots(points, interval, a, b - 1);
    var origin := DedupKeepsLatest(observed, interval);
    forall k | 0 <= k < |r|
      ensures Slot(r[k].at, interval) == Slot(r[0].at, interval) + k && IsLatestPoint(observed, interval, r[k])
    {
      assert r[k] == points[a + k] && r[0] == points[a];
      KeptIsLatest(observed, interval, origin, points, a + k);
    }
  }
}
