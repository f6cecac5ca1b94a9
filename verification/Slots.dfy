/** Counting the missing sampling slots of a training window. */
module Slots {
  import opened Observations

  /** `slots` sampling slots from `start` on. */
  datatype Window = Window(start: int, interval: Duration, slots: nat)

  predicate ValidWindow(w: Window) { w.interval > 0 }

  function SlotOf(w: Window, t: int): int
    requires ValidWindow(w)
  {
    (t - w.start) / w.interval
  }

  function SlotStart(w: Window, s: int): int {
    w.start + s * w.interval
  }

  lemma SlotBounds(w: Window, s: int, t: int)
    requires ValidWindow(w)
    ensures SlotOf(w, t) == s <==> SlotStart(w, s) <= t < SlotStart(w, s) + w.interval
  {
    DivBounds(t - w.start, w.interval);
    if s * w.interval <= t - w.start < s * w.interval + w.interval { DivUnique(t - w.start, w.interval, s); }
  }

  ghost predicate Filled(rows: map<int, real>, w: Window, s: int)
    requires ValidWindow(w)
  {
    exists t :: t in rows && SlotOf(w, t) == s
  }

  ghost function MissingBits(rows: map<int, real>, w: Window): (b: seq<bool>)
    requires ValidWindow(w)
    ensures |b| == w.slots
  {
    seq(w.slots, s => !Filled(rows, w, s))
  }

  function CountTrue(b: seq<bool>): (n: nat)
    ensures n <= |b|
  {
    if b == [] then 0 else CountTrue(b[..|b| - 1]) + if b[|b| - 1] then 1 else 0
  }

  ghost function Missing(rows: map<int, real>, w: Window): nat
    requires ValidWindow(w)
  {
    CountTrue(MissingBits(rows, w))
  }

  lemma {:induction false} CountShrinks(a: seq<bool>, b: seq<bool>)
    requires |a| == |b| && forall s :: 0 <= s < |a| && b[s] ==> a[s]
    ensures CountTrue(b) <= CountTrue(a)
  {
    if a != [] { CountShrinks(a[..|a| - 1], b[..|a| - 1]); }
  }

  lemma {:induction false} CountDropsByOne(a: seq<bool>, b: seq<bool>, k: nat)
    requires |a| == |b| && k < |a| && a[k] && !b[k]
    requires forall s :: 0 <= s < |a| && s != k ==> a[s] == b[s]
    ensures CountTrue(b) + 1 == CountTrue(a)
  {
    var n := |a| - 1;
    if k == n {
      assert a[..n] == b[..n];
    } else {
      CountDropsByOne(a[..n], b[..n], k);
    }
  }

  lemma {:induction false} NoneMissing(b: seq<bool>)
    ensures CountTrue(b) == 0 <==> forall s :: 0 <= s < |b| ==> !b[s]
  {
    if b != [] {
      var n := |b| - 1;
      NoneMissing(b[..n]);
      assert forall s :: 0 <= s < n ==> b[..n][s] == b[s];
    }
  }

  /** More rows never make more slots missing. */
  lemma MoreRowsFewerMissing(a: map<int, real>, b: map<int, real>, w: Window)
    requires ValidWindow(w) && a.Keys <= b.Keys
    ensures Missing(b, w) <= Missing(a, w)
    ensures forall s :: Filled(a, w, s) ==> Filled(b, w, s)
  {
    hide SlotOf;
    forall s | Filled(a, w, s) ensures Filled(b, w, s) {
      var t :| t in a && SlotOf(w, t) == s;
      assert t in b;
    }
    CountShrinks(MissingBits(a, w), MissingBits(b, w));
  }

  /** One new row in a missing slot of the window fills exactly that slot. */
  lemma NewRowFillsItsSlot(rows: map<int, real>, w: Window, t: int, v: real)
    requires ValidWindow(w) && 0 <= SlotOf(w, t) < w.slots && !Filled(rows, w, SlotOf(w, t))
    ensures Missing(rows[t := v], w) + 1 == Missing(rows, w)
    ensures Filled(rows[t := v], w, SlotOf(w, t))
  {
    hide SlotOf;
    var after := rows[t := v];
    var k := SlotOf(w, t);
    assert t in after;
    forall s ensures Filled(after, w, s) <==> Filled(rows, w, s) || s == k {
      if Filled(rows, w, s) {
        var u :| u in rows && SlotOf(w, u) == s;
        assert u in after;
      }
      if Filled(after, w, s) && s != k {
        var u :| u in after && SlotOf(w, u) == s;
        assert u in rows;
      }
    }
    CountDropsByOne(MissingBits(rows, w), MissingBits(after, w), k);
  }

  lemma AllFilled(rows: map<int, real>, w: Window)
    requires ValidWindow(w)
    ensures Missing(rows, w) == 0 <==> forall s :: 0 <= s < w.slots ==> Filled(rows, w, s)
  {
    hide Filled;
    NoneMissing(MissingBits(rows, w));
    assert forall s :: 0 <= s < w.slots ==> MissingBits(rows, w)[s] == !Filled(rows, w, s);
  }
}
