/** sort.Float64s on values: the sorted permutation, and what the callers rely
    on about positions in it. */
module Sorting {
  import opened RealArithmetic

  predicate IsSorted(s: seq<real>) {
    forall i, j :: 0 <= i < j < |s| ==> s[i] <= s[j]
  }

  function Insert(x: real, s: seq<real>): (r: seq<real>)
    ensures |r| == |s| + 1
  {
    if s == [] || x <= s[0] then [x] + s else [s[0]] + Insert(x, s[1..])
  }

  function Sorted(s: seq<real>): (r: seq<real>)
    ensures |r| == |s|
  {
    if s == [] then [] else Insert(s[0], Sorted(s[1..]))
  }

  lemma {:induction false} InsertMultiset(x: real, s: seq<real>)
    ensures multiset(Insert(x, s)) == multiset{x} + multiset(s)
  {
    if s != [] && x > s[0] {
      InsertMultiset(x, s[1..]);
      assert s == [s[0]] + s[1..];
    }
  }

  lemma InsertMembers(x: real, s: seq<real>, i: nat)
    requires i <= |s|
    ensures Insert(x, s)[i] == x || Insert(x, s)[i] in s
  {
    InsertMultiset(x, s);
    assert Insert(x, s)[i] in multiset(Insert(x, s));
  }

  lemma SortedCons(y: real, r: seq<real>)
    requires IsSorted(r) && forall i :: 0 <= i < |r| ==> y <= r[i]
    ensures IsSorted([y] + r)
  {
  }

  lemma {:induction false} InsertSorts(x: real, s: seq<real>)
    requires IsSorted(s)
    ensures IsSorted(Insert(x, s))
  {
    if s == [] || x <= s[0] {
      SortedCons(x, s);
    } else {
      InsertSorts(x, s[1..]);
      var r := Insert(x, s[1..]);
      forall i | 0 <= i < |r| ensures s[0] <= r[i] {
        InsertMembers(x, s[1..], i);
      }
      SortedCons(s[0], r);
    }
  }

  lemma {:induction false} SortedSorts(s: seq<real>)
    ensures IsSorted(Sorted(s))
    ensures multiset(Sorted(s)) == multiset(s)
  {
    if s != [] {
      SortedSorts(s[1..]);
      InsertSorts(s[0], Sorted(s[1..]));
      InsertMultiset(s[0], Sorted(s[1..]));
      assert s == [s[0]] + s[1..];
    }
  }

  lemma SortedMember(s: seq<real>, k: nat)
    requires k < |s|
    ensures Sorted(s)[k] in s
  {
    SortedSorts(s);
    assert Sorted(s)[k] in multiset(Sorted(s));
  }

  ghost predicate Increasing(f: real -> real) {
    forall x, y :: f(x) <= f(y) <==> x <= y
  }

  lemma {:induction false} InsertMaps(f: real -> real, x: real, s: seq<real>)
    requires Increasing(f)
    ensures Insert(f(x), Map(f, s)) == Map(f, Insert(x, s))
  {
    if s != [] && x > s[0] {
      InsertMaps(f, x, s[1..]);
      assert Map(f, s)[1..] == Map(f, s[1..]);
    }
  }

  /** Sorting commutes with every strictly increasing change of scale. */
  lemma {:induction false} SortedMaps(f: real -> real, s: seq<real>)
    requires Increasing(f)
    ensures Sorted(Map(f, s)) == Map(f, Sorted(s))
  {
    if s != [] {
      SortedMaps(f, s[1..]);
      assert Map(f, s)[1..] == Map(f, s[1..]);
      InsertMaps(f, s[0], Sorted(s[1..]));
    }
  }

  // ----- ranks

  /** How many values are at most x, or strictly below x. */
  function AtMost(s: seq<real>, x: real): (n: nat)
    ensures n <= |s|
  {
    if s == [] then 0 else (if s[0] <= x then 1 else 0) + AtMost(s[1..], x)
  }

  function Below(s: seq<real>, x: real): (n: nat)
    ensures n <= |s|
  {
    if s == [] then 0 else (if s[0] < x then 1 else 0) + Below(s[1..], x)
  }

  lemma {:induction false} InsertCounts(y: real, s: seq<real>, x: real)
    ensures AtMost(Insert(y, s), x) == AtMost([y] + s, x)
    ensures Below(Insert(y, s), x) == Below([y] + s, x)
  {
    assert ([y] + s)[1..] == s;
    if s != [] && y > s[0] {
      InsertCounts(y, s[1..], x);
      var r := Insert(y, s[1..]);
      assert ([s[0]] + r)[1..] == r && ([y] + s[1..])[1..] == s[1..];
    }
  }

  lemma {:induction false} SortedCounts(s: seq<real>, x: real)
    ensures AtMost(Sorted(s), x) == AtMost(s, x)
    ensures Below(Sorted(s), x) == Below(s, x)
  {
    if s != [] {
      SortedCounts(s[1..], x);
      var r := Sorted(s[1..]);
      InsertCounts(s[0], r, x);
      assert ([s[0]] + r)[1..] == r;
    }
  }

  lemma {:induction false} CountsInOrder(s: seq<real>, k: nat)
    requires IsSorted(s) && k < |s|
    ensures AtMost(s, s[k]) >= k + 1
    ensures Below(s, s[k]) <= k
  {
    if k == 0 {
      NoneBelow(s, s[0]);
    } else {
      CountsInOrder(s[1..], k - 1);
      assert s[0] <= s[k] == s[1..][k - 1];
    }
  }

  lemma {:induction false} NoneBelow(s: seq<real>, x: real)
    requires forall i :: 0 <= i < |s| ==> x <= s[i]
    ensures Below(s, x) == 0
  {
    if s != [] { NoneBelow(s[1..], x); }
  }

  lemma {:induction false} CountsSeparate(s: seq<real>, x: real, y: real)
    requires x < y
    ensures AtMost(s, x) <= Below(s, y)
  {
    if s != [] { CountsSeparate(s[1..], x, y); }
  }
}
