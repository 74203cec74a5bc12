/** Generic sequence helpers: `filter`, `includes`-style counting and sums. */
module Seqs {
  /** `s.filter(p)`: the elements satisfying `p`, in their original order. */
  function Filter<T(==)>(s: seq<T>, p: T -> bool): (r: seq<T>)
    ensures |r| <= |s|
    ensures forall i :: 0 <= i < |r| ==> r[i] in s && p(r[i])
    ensures forall i :: 0 <= i < |s| && p(s[i]) ==> s[i] in r
    decreases |s|
  {
    if s == [] then []
    else (if p(s[0]) then [s[0]] else []) + Filter(s[1..], p)
  }

  /** Filtering a sequence with a known head keeps that head exactly when it matches. */
  lemma FilterCons<T>(x: T, rest: seq<T>, p: T -> bool)
    ensures Filter([x] + rest, p) == (if p(x) then [x] else []) + Filter(rest, p)
  {
    assert ([x] + rest)[1..] == rest;
  }

  lemma {:induction false} FilterNone<T>(s: seq<T>, p: T -> bool)
    requires forall i :: 0 <= i < |s| ==> !p(s[i])
    ensures Filter(s, p) == []
    decreases |s|
  {
    if s != [] {
      FilterNone(s[1..], p);
    }
  }

  /** Of three leading elements followed by a part that filters to nothing, filtering keeps exactly the matching two. */
  lemma FilterSecondAndThird<T>(a: T, b: T, c: T, tail: seq<T>, p: T -> bool)
    requires !p(a) && p(b) && p(c)
    requires Filter(tail, p) == []
    ensures Filter([a, b, c] + tail, p) == [b, c]
  {
    var r2 := [c] + tail;
    var r1 := [b] + r2;
    assert [a, b, c] + tail == [a] + r1;
    FilterCons(c, tail, p);
    assert Filter(r2, p) == [c];
    FilterCons(b, r2, p);
    assert Filter(r1, p) == [b, c];
    FilterCons(a, r1, p);
    assert [] + Filter(r1, p) == Filter(r1, p);
  }

  lemma {:induction false} FilterAll<T>(s: seq<T>, p: T -> bool)
    requires forall i :: 0 <= i < |s| ==> p(s[i])
    ensures Filter(s, p) == s
    decreases |s|
  {
    if s != [] {
      FilterAll(s[1..], p);
    }
  }

  /** Filtering with two tests that agree on every element gives the same result. */
  lemma {:induction false} FilterCongruent<T>(s: seq<T>, p: T -> bool, q: T -> bool)
    requires forall i :: 0 <= i < |s| ==> p(s[i]) == q(s[i])
    ensures Filter(s, p) == Filter(s, q)
    decreases |s|
  {
    if s != [] {
      FilterCongruent(s[1..], p, q);
    }
  }

  lemma {:induction false} FilterAppend<T>(a: seq<T>, b: seq<T>, p: T -> bool)
    ensures Filter(a + b, p) == Filter(a, p) + Filter(b, p)
    decreases |a|
  {
    if a == [] {
      assert a + b == b;
    } else {
      var h := if p(a[0]) then [a[0]] else [];
      FilterAppend(a[1..], b, p);
      assert (a + b)[0] == a[0] && (a + b)[1..] == a[1..] + b;
      assert Filter(a + b, p) == h + (Filter(a[1..], p) + Filter(b, p));
      AppendAssoc(h, Filter(a[1..], p), Filter(b, p));
    }
  }

  lemma AppendAssoc<T>(x: seq<T>, y: seq<T>, z: seq<T>)
    ensures x + (y + z) == (x + y) + z
  {
  }

  /** `r` can be obtained from `s` by deleting elements. */
  predicate IsSubsequence<T(==)>(r: seq<T>, s: seq<T>)
    decreases |s|
  {
    if r == [] then true
    else if s == [] then false
    else (r[0] == s[0] && IsSubsequence(r[1..], s[1..])) || IsSubsequence(r, s[1..])
  }

  lemma {:induction false} FilterIsSubsequence<T>(s: seq<T>, p: T -> bool)
    ensures IsSubsequence(Filter(s, p), s)
    decreases |s|
  {
    if s != [] {
      FilterIsSubsequence(s[1..], p);
      var r := Filter(s, p);
      if p(s[0]) {
        assert r[0] == s[0] && r[1..] == Filter(s[1..], p);
      } else {
        assert r == Filter(s[1..], p);
      }
    }
  }

  /** The number of elements equal to `x`. */
  function Count<T(==)>(s: seq<T>, x: T): (n: nat)
    ensures n <= |s|
    ensures n == 0 <==> x !in s
    decreases |s|
  {
    if s == [] then 0 else Count(s[..|s| - 1], x) + (if s[|s| - 1] == x then 1 else 0)
  }

  function Sum(s: seq<int>): int
    decreases |s|
  {
    if s == [] then 0 else Sum(s[..|s| - 1]) + s[|s| - 1]
  }

  predicate Distinct<T(==)>(s: seq<T>) {
    forall i, j :: 0 <= i < j < |s| ==> s[i] != s[j]
  }

  /** The position of the first occurrence of `x` in `s`. */
  function FirstIndex<T(==)>(s: seq<T>, x: T): (k: nat)
    requires x in s
    ensures k < |s| && s[k] == x && x !in s[..k]
    decreases |s|
  {
    if s[0] == x then 0
    else
      var k := FirstIndex(s[1..], x);
      assert s[..k + 1] == [s[0]] + s[1..][..k];
      k + 1
  }

  lemma {:induction false} FirstIndexExtend<T>(s: seq<T>, y: T, x: T)
    requires x in s
    ensures FirstIndex(s + [y], x) == FirstIndex(s, x)
    decreases |s|
  {
    if s[0] != x {
      assert (s + [y])[1..] == s[1..] + [y];
      FirstIndexExtend(s[1..], y, x);
    }
  }

  lemma {:induction false} FirstIndexNew<T>(s: seq<T>, y: T)
    requires y !in s
    ensures FirstIndex(s + [y], y) == |s|
    decreases |s|
  {
    if s != [] {
      assert (s + [y])[1..] == s[1..] + [y];
      FirstIndexNew(s[1..], y);
    }
  }

  /** Keys ordered by first occurrence in `ids`. */
  ghost predicate OrderedByFirst<T>(keys: seq<T>, ids: seq<T>)
    requires forall k :: k in keys ==> k in ids
  {
    forall i, j :: 0 <= i < j < |keys| ==> FirstIndex(ids, keys[i]) < FirstIndex(ids, keys[j])
  }

  /** Appending an id keeps the order of the keys seen so far, and a new key goes last. */
  lemma OrderSnoc<T>(keys: seq<T>, ids: seq<T>, y: T)
    requires forall k :: k in keys ==> k in ids
    requires OrderedByFirst(keys, ids)
    ensures OrderedByFirst(keys, ids + [y])
    ensures y !in ids ==> OrderedByFirst(keys + [y], ids + [y])
  {
    forall k | k in keys
      ensures FirstIndex(ids + [y], k) == FirstIndex(ids, k)
    {
      FirstIndexExtend(ids, y, k);
    }
    if y !in ids {
      FirstIndexNew(ids, y);
      var keys' := keys + [y];
      forall i, j | 0 <= i < j < |keys'|
        ensures FirstIndex(ids + [y], keys'[i]) < FirstIndex(ids + [y], keys'[j])
      {
        if j == |keys| {
          assert keys'[i] == keys[i];
          assert FirstIndex(ids, keys[i]) < |ids|;
        } else {
          assert keys'[i] == keys[i] && keys'[j] == keys[j];
        }
      }
    }
  }
}
