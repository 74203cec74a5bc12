/**
 * The stable descending sort behind `Array.prototype.sort` with a
 * comparator `(a, b) => key(b) - key(a)`: a specification by insertion on
 * sequences, its three defining properties (ordered, a permutation,
 * stable), and the in-place insertion sort on an array proved against it.
 */
module Sorting {
  predicate SortedDesc<T>(s: seq<T>, key: T -> int) {
    forall i, j :: 0 <= i < j < |s| ==> key(s[i]) >= key(s[j])
  }

  /** A prefix of a sorted sequence is sorted and drawn from it, and nothing after it has a larger key. */
  lemma SortedPrefixOnTop<T>(s: seq<T>, key: T -> int, n: nat)
    requires n <= |s| && SortedDesc(s, key)
    ensures SortedDesc(s[..n], key)
    ensures multiset(s[..n]) <= multiset(s)
    ensures forall i, y :: 0 <= i < n && y in multiset(s) - multiset(s[..n]) ==> key(s[i]) >= key(y)
  {
    assert s == s[..n] + s[n..];
    assert multiset(s) == multiset(s[..n]) + multiset(s[n..]);
    forall i, y | 0 <= i < n && y in multiset(s) - multiset(s[..n])
      ensures key(s[i]) >= key(y)
    {
      assert y in s[n..];
      var j :| 0 <= j < |s[n..]| && s[n..][j] == y;
      assert s[n + j] == y;
    }
  }

  /** Places `x` after every element whose key is at least `key(x)`. */
  function InsertDesc<T>(s: seq<T>, x: T, key: T -> int): (r: seq<T>)
    ensures |r| == |s| + 1
    decreases |s|
  {
    if s == [] || key(s[|s| - 1]) >= key(x) then s + [x]
    else InsertDesc(s[..|s| - 1], x, key) + [s[|s| - 1]]
  }

  function SortDesc<T>(s: seq<T>, key: T -> int): (r: seq<T>)
    ensures |r| == |s|
    decreases |s|
  {
    if s == [] then [] else InsertDesc(SortDesc(s[..|s| - 1], key), s[|s| - 1], key)
  }

  /** The elements of `s` whose key is `k`, in their order in `s`. */
  function WithKey<T>(s: seq<T>, key: T -> int, k: int): (r: seq<T>)
    ensures |r| <= |s|
    decreases |s|
  {
    if s == [] then []
    else WithKey(s[..|s| - 1], key, k) + (if key(s[|s| - 1]) == k then [s[|s| - 1]] else [])
  }

  lemma {:induction false} InsertDescPermutation<T>(s: seq<T>, x: T, key: T -> int)
    ensures multiset(InsertDesc(s, x, key)) == multiset(s) + multiset{x}
    decreases |s|
  {
    if s != [] && key(s[|s| - 1]) < key(x) {
      InsertDescPermutation(s[..|s| - 1], x, key);
      assert s == s[..|s| - 1] + [s[|s| - 1]];
    }
  }

  lemma {:induction false} InsertDescSorted<T>(s: seq<T>, x: T, key: T -> int)
    requires SortedDesc(s, key)
    ensures SortedDesc(InsertDesc(s, x, key), key)
    ensures InsertDesc(s, x, key) != [] 
    ensures var r := InsertDesc(s, x, key);
      key(r[|r| - 1]) == key(x) || (s != [] && r[|r| - 1] == s[|s| - 1])
    decreases |s|
  {
    if s != [] && key(s[|s| - 1]) < key(x) {
      var s' := s[..|s| - 1];
      InsertDescSorted(s', x, key);
      InsertDescPermutation(s', x, key);
      var r' := InsertDesc(s', x, key);
      var r := r' + [s[|s| - 1]];
      forall i | 0 <= i < |r'|
        ensures key(r'[i]) >= key(s[|s| - 1])
      {
        assert r'[i] in multiset(r');
        assert r'[i] in multiset(s') || r'[i] == x;
      }
    }
  }

  lemma {:induction false} SortDescSorted<T>(s: seq<T>, key: T -> int)
    ensures SortedDesc(SortDesc(s, key), key)
    decreases |s|
  {
    if s != [] {
      SortDescSorted(s[..|s| - 1], key);
      InsertDescSorted(SortDesc(s[..|s| - 1], key), s[|s| - 1], key);
    }
  }

  lemma {:induction false} SortDescPermutation<T>(s: seq<T>, key: T -> int)
    ensures multiset(SortDesc(s, key)) == multiset(s)
    decreases |s|
  {
    if s != [] {
      var s' := s[..|s| - 1];
      SortDescPermutation(s', key);
      InsertDescPermutation(SortDesc(s', key), s[|s| - 1], key);
      calc {
        multiset(s);
        { assert s == s' + [s[|s| - 1]]; }
        multiset(s') + multiset{s[|s| - 1]};
      }
    }
  }

  lemma {:induction false} InsertDescWithKey<T>(s: seq<T>, x: T, key: T -> int, k: int)
    ensures WithKey(InsertDesc(s, x, key), key, k)
         == WithKey(s, key, k) + (if key(x) == k then [x] else [])
    decreases |s|
  {
    var r := InsertDesc(s, x, key);
    if s == [] || key(s[|s| - 1]) >= key(x) {
      assert r[..|r| - 1] == s;
    } else {
      var s' := s[..|s| - 1];
      InsertDescWithKey(s', x, key, k);
      assert r[..|r| - 1] == InsertDesc(s', x, key);
    }
  }

  /** Stability: elements with equal keys keep their relative order. */
  lemma {:induction false} SortDescStable<T>(s: seq<T>, key: T -> int, k: int)
    ensures WithKey(SortDesc(s, key), key, k) == WithKey(s, key, k)
    decreases |s|
  {
    if s != [] {
      var s' := s[..|s| - 1];
      SortDescStable(s', key, k);
      InsertDescWithKey(SortDesc(s', key), s[|s| - 1], key, k);
    }
  }

  /** `WithKey(s, key, k)` keeps the whole sequence when every key is `k`. */
  lemma {:induction false} WithKeyAll<T>(s: seq<T>, key: T -> int, k: int)
    requires forall i :: 0 <= i < |s| ==> key(s[i]) == k
    ensures WithKey(s, key, k) == s
    decreases |s|
  {
    if s != [] {
      WithKeyAll(s[..|s| - 1], key, k);
    }
  }

  /**
   * In a sequence sorted descending whose keys are at most `m`, the elements
   * of key `m` come first: they are exactly its leading block.
   */
  lemma {:induction false} SortedMaxBlock<T>(r: seq<T>, key: T -> int, m: int)
    requires SortedDesc(r, key)
    requires forall i :: 0 <= i < |r| ==> key(r[i]) <= m
    ensures |WithKey(r, key, m)| <= |r|
    ensures r[..|WithKey(r, key, m)|] == WithKey(r, key, m)
    decreases |r|
  {
    if r != [] {
      var r' := r[..|r| - 1];
      if key(r[|r| - 1]) == m {
        WithKeyAll(r, key, m);
      } else {
        SortedMaxBlock(r', key, m);
        assert r[..|WithKey(r', key, m)|] == r'[..|WithKey(r', key, m)|];
      }
    }
  }

  /** `WithKey` distributes over concatenation. */
  lemma {:induction false} WithKeyAppend<T>(a: seq<T>, b: seq<T>, key: T -> int, k: int)
    ensures WithKey(a + b, key, k) == WithKey(a, key, k) + WithKey(b, key, k)
    decreases |b|
  {
    if b == [] {
      assert a + b == a;
    } else {
      var b' := b[..|b| - 1];
      WithKeyAppend(a, b', key, k);
      assert (a + b)[..|a + b| - 1] == a + b';
    }
  }

  /** Selecting by key over an element put in front of a list. */
  lemma WithKeyCons<T>(x: T, rest: seq<T>, key: T -> int, k: int)
    ensures WithKey([x] + rest, key, k) == (if key(x) == k then [x] else []) + WithKey(rest, key, k)
  {
    WithKeyAppend([x], rest, key, k);
    assert [x][..0] == [];
  }

  /** Where the insertion lands when every element from `j` on has a smaller key. */
  lemma {:induction false} InsertDescAt<T>(s: seq<T>, x: T, key: T -> int, j: nat)
    requires j <= |s|
    requires j == 0 || key(s[j - 1]) >= key(x)
    requires forall m :: j <= m < |s| ==> key(s[m]) < key(x)
    ensures InsertDesc(s, x, key) == s[..j] + [x] + s[j..]
    decreases |s| - j
  {
    if j < |s| {
      var s' := s[..|s| - 1];
      InsertDescAt(s', x, key, j);
      assert s'[..j] == s[..j];
      assert s'[j..] + [s[|s| - 1]] == s[j..];
    }
  }

  /** Moves `a[i]` left past the elements of smaller key in front of it. */
  method InsertInPlace<T>(a: array<T>, i: nat, key: T -> int)
    requires i < a.Length
    modifies a
    ensures a[..i + 1] == InsertDesc(old(a[..i]), old(a[i]), key)
    ensures a[i + 1..] == old(a[i + 1..])
  {
    var x := a[i];
    ghost var sorted := a[..i];
    var j := i;
    while j > 0 && key(a[j - 1]) < key(x)
      invariant 0 <= j <= i
      invariant forall m :: 0 <= m < j ==> a[m] == sorted[m]
      invariant forall m :: j < m <= i ==> a[m] == sorted[m - 1]
      invariant forall m :: j <= m < i ==> key(sorted[m]) < key(x)
      invariant forall m :: i < m < a.Length ==> a[m] == old(a[m])
    {
      a[j] := a[j - 1];
      j := j - 1;
    }
    a[j] := x;
    InsertDescAt(sorted, x, key, j);
    Landed(a[..i + 1], sorted, x, j);
  }

  /** Elements before `j` in place, `x` at `j` and the rest shifted one to the right: an insertion. */
  lemma Landed<T>(s: seq<T>, sorted: seq<T>, x: T, j: nat)
    requires |s| == |sorted| + 1 && j < |s|
    requires forall m :: 0 <= m < j ==> s[m] == sorted[m]
    requires forall m :: j < m < |s| ==> s[m] == sorted[m - 1]
    requires s[j] == x
    ensures s == sorted[..j] + [x] + sorted[j..]
  {
    var r := sorted[..j] + [x] + sorted[j..];
    assert forall m :: 0 <= m < |s| ==> s[m] == r[m];
  }

  /** Sorts `a` in place, descending by `key`, keeping equal keys in order. */
  method SortDescInPlace<T>(a: array<T>, key: T -> int)
    modifies a
    ensures a[..] == SortDesc(old(a[..]), key)
  {
    ghost var a0 := a[..];
    var i := 0;
    while i < a.Length
      invariant 0 <= i <= a.Length
      invariant a[..i] == SortDesc(a0[..i], key)
      invariant a[i..] == a0[i..]
    {
      InsertInPlace(a, i, key);
      assert a0[..i + 1][..i] == a0[..i];
      i := i + 1;
    }
    assert a0[..a.Length] == a0;
  }
}
