/** Sequence helpers standing in for the JavaScript array built-ins the
    source uses: `filter`, `findIndex`, `indexOf` and the first-appearance
    order of a `Set` built from an array. */
module Seqs {

  /** `s.filter(p)`: the elements satisfying p, in their original order. */
  function Filter<T>(s: seq<T>, p: T -> bool): (r: seq<T>)
    ensures |r| <= |s|
  {
    if s == [] then [] else (if p(s[0]) then [s[0]] else []) + Filter(s[1..], p)
  }

  /** The filter keeps exactly the elements satisfying p. */
  lemma {:induction false} FilterMembers<T(!new)>(s: seq<T>, p: T -> bool)
    ensures forall x :: x in Filter(s, p) <==> x in s && p(x)
  {
    if s != [] {
      FilterMembers(s[1..], p);
      assert s == [s[0]] + s[1..];
    }
  }

  /** Filtering a concatenation filters each part and keeps them in order. */
  lemma {:induction false} FilterAppend<T>(a: seq<T>, b: seq<T>, p: T -> bool)
    ensures Filter(a + b, p) == Filter(a, p) + Filter(b, p)
  {
    if a == [] {
      assert a + b == b;
    } else {
      var ab := a + b;
      assert ab[0] == a[0];
      assert ab[1..] == a[1..] + b;
      FilterAppend(a[1..], b, p);
      var head := if p(a[0]) then [a[0]] else [];
      assert Filter(ab, p) == head + Filter(a[1..] + b, p);
      assert Filter(a, p) == head + Filter(a[1..], p);
    }
  }

  /** A filter every element passes keeps the whole sequence. */
  lemma {:induction false} FilterKeepsAll<T>(s: seq<T>, p: T -> bool)
    requires forall i :: 0 <= i < |s| ==> p(s[i])
    ensures Filter(s, p) == s
  {
    if s != [] {
      FilterKeepsAll(s[1..], p);
    }
  }

  /** A filter that no element passes yields nothing. */
  lemma {:induction false} FilterDropsAll<T>(s: seq<T>, p: T -> bool)
    requires forall i :: 0 <= i < |s| ==> !p(s[i])
    ensures Filter(s, p) == []
  {
    if s != [] {
      FilterDropsAll(s[1..], p);
    }
  }

  /** `s.findIndex(p)`: the first position whose element satisfies p, or -1. */
  function FindIndex<T>(s: seq<T>, p: T -> bool): (r: int)
    ensures -1 <= r < |s|
    ensures r == -1 <==> forall i :: 0 <= i < |s| ==> !p(s[i])
    ensures 0 <= r ==> p(s[r]) && forall i :: 0 <= i < r ==> !p(s[i])
  {
    if s == [] then -1
    else if p(s[0]) then 0
    else
      var k := FindIndex(s[1..], p);
      if k == -1 then -1 else k + 1
  }

  /** `s.indexOf(x)`: the first position holding x, or -1. */
  function IndexOf<T(==)>(s: seq<T>, x: T): (r: int)
    ensures -1 <= r < |s|
    ensures r == -1 <==> x !in s
    ensures 0 <= r ==> s[r] == x && x !in s[..r]
  {
    if s == [] then -1
    else if s[0] == x then 0
    else
      var k := IndexOf(s[1..], x);
      if k == -1 then -1 else assert s[..k + 1] == [s[0]] + s[1..][..k]; k + 1
  }

  /** Positions inside a prefix are found the same way in the whole sequence. */
  lemma IndexOfInPrefix<T>(s: seq<T>, n: nat, x: T)
    requires n <= |s| && x in s[..n]
    ensures IndexOf(s, x) == IndexOf(s[..n], x)
  {
    var k := IndexOf(s[..n], x);
    assert s[..n][..k] == s[..k];
  }

  predicate NoDuplicates<T(==)>(s: seq<T>)
  {
    forall i, j :: 0 <= i < j < |s| ==> s[i] != s[j]
  }

  /** The three properties of a first-appearance deduplication of s. */
  ghost predicate IsDistinctOf<T(!new)>(r: seq<T>, s: seq<T>)
  {
    (forall x :: x in r <==> x in s) &&
    NoDuplicates(r) &&
    (forall i, j :: 0 <= i < j < |r| ==> IndexOf(s, r[i]) < IndexOf(s, r[j]))
  }

  /** `[...new Set(s)]`: each element once, in order of first appearance. */
  function Distinct<T(==,!new)>(s: seq<T>): (r: seq<T>)
    ensures forall x :: x in r <==> x in s
    ensures NoDuplicates(r)
    ensures forall i, j :: 0 <= i < j < |r| ==> IndexOf(s, r[i]) < IndexOf(s, r[j])
  {
    if s == [] then []
    else
      var d := Distinct(s[..|s| - 1]);
      DistinctStep(s, d);
      if s[|s| - 1] in d then d else d + [s[|s| - 1]]
  }

  /** Meeting one more element: it is appended exactly when it is new. */
  lemma DistinctStep<T(!new)>(s: seq<T>, d: seq<T>)
    requires |s| > 0 && IsDistinctOf(d, s[..|s| - 1])
    ensures IsDistinctOf(if s[|s| - 1] in d then d else d + [s[|s| - 1]], s)
  {
    var init := s[..|s| - 1];
    var last := s[|s| - 1];
    assert s == init + [last];
    if last in d {
      DistinctKeepsSeen(init, last, d);
    } else {
      DistinctAppendNew(init, last, d);
    }
  }

  /** Earlier elements are found at the same place after one more is added. */
  lemma IndexOfSnoc<T>(init: seq<T>, last: T, x: T)
    requires x in init
    ensures IndexOf(init + [last], x) == IndexOf(init, x)
  {
    var s := init + [last];
    assert s[..|init|] == init;
    IndexOfInPrefix(s, |init|, x);
  }

  /** An element met before changes nothing. */
  lemma DistinctKeepsSeen<T(!new)>(init: seq<T>, last: T, d: seq<T>)
    requires IsDistinctOf(d, init) && last in d
    ensures IsDistinctOf(d, init + [last])
  {
    forall x | x in d ensures IndexOf(init + [last], x) == IndexOf(init, x) {
      IndexOfSnoc(init, last, x);
    }
  }

  /** A new element goes at the end, after every earlier first appearance. */
  lemma DistinctAppendNew<T(!new)>(init: seq<T>, last: T, d: seq<T>)
    requires IsDistinctOf(d, init) && last !in d
    ensures IsDistinctOf(d + [last], init + [last])
  {
    var s := init + [last];
    var r := d + [last];
    forall x | x in d ensures IndexOf(s, x) == IndexOf(init, x) < |init| {
      IndexOfSnoc(init, last, x);
    }
    assert s[..|init|] == init;
    assert IndexOf(s, last) == |init|;
    forall i, j | 0 <= i < j < |r| ensures IndexOf(s, r[i]) < IndexOf(s, r[j]) {
      assert r[i] in d;
      if j < |d| {
        assert r[j] in d;
      }
    }
  }
}
