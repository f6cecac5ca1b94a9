/** The training examples of internal/forecast/gru.go: which windows of the
    samples the network is trained on, and how they are capped. */
module GruExamples {
  import opened Observations
  import opened Windows
  import SeasonalModels

  /** An input sequence ending at `end`, and the highest value of the horizon
      right after it. */
  datatype Example = Example(end: int, target: real)

  method HorizonMaximum(v: seq<real>, start: nat, steps: nat) returns (maximum: real)
    requires steps >= 1 && start + steps <= |v|
    ensures maximum == SeasonalModels.Highest(v[start..start + steps])
  {
    hide SeasonalModels.Highest;
    maximum := v[start];
    assert v[start..start + 1] == [] + [v[start]];
    SeasonalModels.HighestGrows([], v[start]);
    for i := start + 1 to start + steps
      invariant maximum == SeasonalModels.Highest(v[start..i])
    {
      SeasonalModels.HighestGrows(v[start..i], v[i]);
      assert v[start..i] + [v[i]] == v[start..i + 1];
      if v[i] > maximum { maximum := v[i]; }
    }
  }

  /** Example k of the whole list. */
  function ExampleAt(v: seq<real>, horizon: nat, length: nat, k: nat): Example
    requires horizon >= 1 && length >= 1 && length + k + horizon <= |v|
  {
    Example(length - 1 + k, SeasonalModels.Highest(v[length + k..length + k + horizon]))
  }

  method Examples(v: seq<real>, horizon: nat, length: nat) returns (examples: seq<Example>)
    requires horizon >= 1 && length >= 1
    ensures |examples| == Max(0, |v| - length - horizon + 1)
    ensures forall k :: 0 <= k < |examples| ==> examples[k] == ExampleAt(v, horizon, length, k)
  {
    hide SeasonalModels.Highest;
    examples := [];
    var end: int := length - 1;
    while end + horizon < |v|
      invariant length - 1 <= end && |examples| == end - (length - 1) && (end == length - 1 || end + horizon <= |v|)
      invariant forall k :: 0 <= k < |examples| ==> examples[k] == ExampleAt(v, horizon, length, k)
    {
      var target := HorizonMaximum(v, end + 1, horizon);
      examples := examples + [Example(end, target)];
      end := end + 1;
    }
  }

  /** The capped list keeps the order and never repeats an example; with room
      for two or more it keeps the first and the last, with room for one the
      newest. */
  method SelectExamples(examples: seq<Example>, maximum: int) returns (selected: seq<Example>)
    ensures maximum <= 0 || |examples| <= maximum ==> selected == examples
    ensures |examples| > maximum > 0 ==>
              && |selected| == maximum && selected[maximum - 1] == examples[|examples| - 1]
              && (maximum >= 2 ==> selected[0] == examples[0])
    ensures |examples| > maximum >= 2 ==> selected == EvenSample(examples, maximum)
  {
    if maximum <= 0 || |examples| <= maximum { return examples; }
    if maximum == 1 { return [examples[|examples| - 1]]; }
    selected := [];
    for i := 0 to maximum
      invariant selected == EvenSample(examples, maximum)[..i]
    {
      EvenIndexInRange(i, |examples|, maximum);
      selected := selected + [examples[i * (|examples| - 1) / (maximum - 1)]];
    }
  }

  /** No input sequence of an example contains any of its targets. */
  lemma TargetsFollowInputs(v: seq<real>, horizon: nat, length: nat, k: nat)
    requires horizon >= 1 && length >= 1 && length + k + horizon <= |v|
    ensures var e := ExampleAt(v, horizon, length, k);
            && k == e.end - length + 1 >= 0 && e.end + horizon < |v|
            && (forall j :: e.end < j <= e.end + horizon ==> v[j] <= e.target)
            && exists j :: e.end < j <= e.end + horizon && v[j] == e.target
  {
    hide SeasonalModels.Highest;
    var window := v[length + k..length + k + horizon];
    SeasonalModels.HighestIsMaximum(window);
    var i :| 0 <= i < |window| && window[i] == SeasonalModels.Highest(window);
    assert v[length + k + i] == window[i];
    forall j | length - 1 + k < j <= length - 1 + k + horizon ensures v[j] <= SeasonalModels.Highest(window) {
      assert v[j] == window[j - length - k];
    }
  }
}
