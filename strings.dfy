/**
 * The handful of JavaScript string operations the application relies on,
 * over ASCII: lower- and upper-casing, `trim`, `startsWith`/`endsWith`, `includes`,
 * `indexOf`/`lastIndexOf`, `split`, `join`, and
 * replacing every run of a character class by one character.
 */
module Strings {
  /** Whitespace as matched by `\s` and removed by `trim` (ASCII subset). */
  predicate IsSpace(c: char) {
    c == ' ' || c == '\t' || c == '\n' || c == '\r' || c == '\U{B}' || c == '\U{C}'
  }

  predicate IsUpper(c: char) { 'A' <= c <= 'Z' }

  predicate IsLowerAlnum(c: char) { 'a' <= c <= 'z' || '0' <= c <= '9' }

  function Lower(c: char): (r: char)
    ensures IsUpper(c) ==> r as int == c as int + 32
    ensures !IsUpper(c) ==> r == c
    ensures !IsUpper(r)
  {
    if IsUpper(c) then (c as int + 32) as char else c
  }

  /** `toLowerCase`, ASCII letters only. */
  function LowerStr(s: string): (r: string)
    ensures |r| == |s|
    ensures forall i :: 0 <= i < |s| ==> r[i] == Lower(s[i])
  {
    seq(|s|, i requires 0 <= i < |s| => Lower(s[i]))
  }

  predicate IsLower(c: char) { 'a' <= c <= 'z' }

  function Upper(c: char): (r: char)
    ensures IsLower(c) ==> r as int == c as int - 32
    ensures !IsLower(c) ==> r == c
    ensures !IsLower(r)
  {
    if IsLower(c) then (c as int - 32) as char else c
  }

  /** `toUpperCase`, ASCII letters only. */
  function UpperStr(s: string): (r: string)
    ensures |r| == |s|
    ensures forall i :: 0 <= i < |s| ==> r[i] == Upper(s[i])
  {
    seq(|s|, i requires 0 <= i < |s| => Upper(s[i]))
  }

  lemma LowerStrIdempotent(s: string)
    ensures LowerStr(LowerStr(s)) == LowerStr(s)
  {
  }

  predicate StartsWith(s: string, p: string) {
    |p| <= |s| && s[..|p|] == p
  }

  /** A text with a known first character starts with `p` when that character and the rest line up with `p`. */
  lemma StartsWithCons(x: char, t: string, p: string)
    requires p != []
    ensures StartsWith([x] + t, p) <==> x == p[0] && StartsWith(t, p[1..])
  {
    if |p| <= |t| + 1 {
      assert ([x] + t)[..|p|] == [x] + t[..|p| - 1];
    }
  }

  predicate EndsWith(s: string, p: string) {
    |p| <= |s| && s[|s| - |p|..] == p
  }

  /** `s.includes(sub)`: `sub` occurs at some position of `s`. */
  predicate Contains(s: string, sub: string)
    decreases |s|
  {
    StartsWith(s, sub) || (|s| > 0 && Contains(s[1..], sub))
  }

  lemma {:induction false} ContainsAt(s: string, sub: string, k: nat)
    requires k + |sub| <= |s| && s[k..k + |sub|] == sub
    ensures Contains(s, sub)
    decreases k
  {
    if k > 0 {
      assert s[1..][k - 1..k - 1 + |sub|] == sub;
      ContainsAt(s[1..], sub, k - 1);
    }
  }

  lemma {:induction false} ContainsWitness(s: string, sub: string) returns (k: nat)
    requires Contains(s, sub)
    ensures k + |sub| <= |s| && s[k..k + |sub|] == sub
    decreases |s|
  {
    if StartsWith(s, sub) {
      k := 0;
    } else {
      var k' := ContainsWitness(s[1..], sub);
      k := k' + 1;
      assert s[k..k + |sub|] == s[1..][k'..k' + |sub|];
    }
  }

  /** A string never contains a longer one. */
  lemma ContainsShorter(s: string, sub: string)
    requires |s| < |sub|
    ensures !Contains(s, sub)
  {
    if Contains(s, sub) {
      var k := ContainsWitness(s, sub);
    }
  }

  /** A string containing `sub` contains its first character. */
  lemma ContainsFirstChar(s: string, sub: string)
    requires sub != [] && sub[0] !in s
    ensures !Contains(s, sub)
  {
    if Contains(s, sub) {
      var k := ContainsWitness(s, sub);
    }
  }

  lemma ContainsEmpty(s: string)
    ensures Contains(s, "")
  {
  }

  /** `indexOf` of a single character: the first position, or -1. */
  function IndexOf(s: string, c: char): (r: int)
    ensures -1 <= r < |s|
    ensures r >= 0 ==> s[r] == c
    ensures forall i :: 0 <= i < |s| && (r < 0 || i < r) ==> s[i] != c
    decreases |s|
  {
    if |s| == 0 then -1
    else if s[0] == c then 0
    else
      var k := IndexOf(s[1..], c);
      if k < 0 then -1 else k + 1
  }

  /** `lastIndexOf` of a single character: the last position, or -1. */
  function LastIndexOf(s: string, c: char): (r: int)
    ensures -1 <= r < |s|
    ensures r >= 0 ==> s[r] == c
    ensures forall i :: r < i < |s| ==> s[i] != c
    decreases |s|
  {
    if |s| == 0 then -1
    else if s[|s| - 1] == c then |s| - 1
    else LastIndexOf(s[..|s| - 1], c)
  }

  /** Drops leading whitespace. */
  function TrimStart(s: string): (r: string)
    ensures |r| <= |s|
    ensures r == [] || !IsSpace(r[0])
    ensures forall i :: 0 <= i < |s| - |r| ==> IsSpace(s[i])
    decreases |s|
  {
    if |s| > 0 && IsSpace(s[0]) then TrimStart(s[1..]) else s
  }

  /** Drops trailing whitespace. */
  function TrimEnd(s: string): (r: string)
    ensures |r| <= |s|
    ensures r == [] || !IsSpace(r[|r| - 1])
    ensures forall i :: |r| <= i < |s| ==> IsSpace(s[i])
    decreases |s|
  {
    if |s| > 0 && IsSpace(s[|s| - 1]) then TrimEnd(s[..|s| - 1]) else s
  }

  /** `trim`. */
  function Trim(s: string): (r: string)
    ensures r == [] || (!IsSpace(r[0]) && !IsSpace(r[|r| - 1]))
    ensures |r| <= |s|
    ensures (forall i :: 0 <= i < |s| ==> !IsSpace(s[i])) ==> r == s
  {
    var t := TrimStart(s);
    TrimEndPrefix(t);
    TrimEnd(t)
  }

  /** `TrimStart` keeps a suffix of its input. */
  lemma {:induction false} TrimStartSuffix(s: string)
    ensures TrimStart(s) == s[|s| - |TrimStart(s)|..]
    decreases |s|
  {
    if |s| > 0 && IsSpace(s[0]) {
      TrimStartSuffix(s[1..]);
      assert s[1..][|s| - 1 - |TrimStart(s)|..] == s[|s| - |TrimStart(s)|..];
    }
  }

  /** `TrimEnd` keeps a prefix of its input. */
  lemma {:induction false} TrimEndPrefix(s: string)
    ensures TrimEnd(s) == s[..|TrimEnd(s)|]
    decreases |s|
  {
    if |s| > 0 && IsSpace(s[|s| - 1]) {
      TrimEndPrefix(s[..|s| - 1]);
      assert s[..|s| - 1][..|TrimEnd(s)|] == s[..|TrimEnd(s)|];
    }
  }

  /** `DropWhile` keeps a suffix of its input. */
  lemma {:induction false} DropWhileSuffix(s: string, p: char -> bool)
    ensures DropWhile(s, p) == s[|s| - |DropWhile(s, p)|..]
    decreases |s|
  {
    if s != [] && p(s[0]) {
      DropWhileSuffix(s[1..], p);
      assert s[1..][|s| - 1 - |DropWhile(s, p)|..] == s[|s| - |DropWhile(s, p)|..];
    }
  }

  lemma TrimIdempotent(s: string)
    ensures Trim(Trim(s)) == Trim(s)
  {
    var r := Trim(s);
    if r != [] {
      assert TrimStart(r) == r;
      assert TrimEnd(r) == r;
    }
  }

  /** `split(sep)` on a single character: always at least one part, none containing `sep`. */
  function Split(s: string, sep: char): (r: seq<string>)
    ensures |r| >= 1
    ensures forall k :: 0 <= k < |r| ==> sep !in r[k]
    ensures sep !in s ==> r == [s]
    decreases |s|
  {
    var i := IndexOf(s, sep);
    if i < 0 then [s]
    else
      var head, tail := s[..i], Split(s[i + 1..], sep);
      assert forall j :: 0 <= j < |head| ==> head[j] != sep;
      assert forall k :: 1 <= k < |tail| + 1 ==> ([head] + tail)[k] == tail[k - 1];
      [head] + tail
  }

  lemma SplitHead(a: string, sep: char, b: string)
    requires sep !in a
    ensures Split(a + [sep] + b, sep) == [a] + Split(b, sep)
  {
    var s := a + [sep] + b;
    assert s[|a|] == sep;
    assert s[..|a|] == a;
    assert s[|a| + 1..] == b;
  }

  /** `parts.join(sep)`. */
  function Join(parts: seq<string>, sep: string): (r: string)
    ensures |parts| == 1 ==> r == parts[0]
    ensures |parts| > 1 ==> r == parts[0] + sep + Join(parts[1..], sep)
  {
    if |parts| == 0 then ""
    else if |parts| == 1 then parts[0]
    else parts[0] + sep + Join(parts[1..], sep)
  }

  // ---------------------------------------------------------------------
  // `replace(/P+/g, x)` and the name characters it leaves
  // ---------------------------------------------------------------------

  predicate IsHyphen(c: char) { c == '-' }

  /** A character of a sanitised name. */
  predicate NameChar(c: char) { IsLowerAlnum(c) || c == '-' }

  /** Drops the leading characters satisfying `p`. */
  function DropWhile(s: string, p: char -> bool): (r: string)
    ensures |r| <= |s|
    ensures r == [] || !p(r[0])
    ensures forall i :: 0 <= i < |s| - |r| ==> p(s[i])
    decreases |s|
  {
    if s != [] && p(s[0]) then DropWhile(s[1..], p) else s
  }

  /** `replace(/P+/g, x)`: every maximal run of characters satisfying `p` becomes one `x`. */
  function SquashRuns(s: string, p: char -> bool, x: char): (r: string)
    ensures |r| <= |s|
    decreases |s|
  {
    if s == [] then []
    else if p(s[0]) then [x] + SquashRuns(DropWhile(s, p), p, x)
    else [s[0]] + SquashRuns(s[1..], p, x)
  }

  /** Every character of the result is `x` or one of the characters of `s` that `p` rejects. */
  lemma {:induction false} SquashClass(s: string, p: char -> bool, x: char, q: char -> bool)
    requires q(x)
    requires forall i :: 0 <= i < |s| && !p(s[i]) ==> q(s[i])
    ensures forall i :: 0 <= i < |SquashRuns(s, p, x)| ==> q(SquashRuns(s, p, x)[i])
    decreases |s|
  {
    if s != [] {
      if p(s[0]) {
        var rest := DropWhile(s, p);
        DropWhileSuffix(s, p);
        assert forall i :: 0 <= i < |rest| ==> rest[i] == s[|s| - |rest| + i];
        SquashClass(rest, p, x, q);
      } else {
        SquashClass(s[1..], p, x, q);
      }
    }
  }

  /** No two `x` stand next to each other in `s`. */
  predicate NoDoubled(s: string, x: char) {
    forall i :: 0 <= i < |s| - 1 ==> !(s[i] == x && s[i + 1] == x)
  }

  /** Squashing runs of the one character `p` holds of leaves no two of it next to each other. */
  lemma {:induction false} SquashNoAdjacent(s: string, p: char -> bool, x: char)
    requires forall c :: p(c) <==> c == x
    ensures NoDoubled(SquashRuns(s, p, x), x)
    decreases |s|
  {
    if s != [] {
      if p(s[0]) {
        var rest := DropWhile(s, p);
        SquashNoAdjacent(rest, p, x);
        var tail := SquashRuns(rest, p, x);
        var r := SquashRuns(s, p, x);
        assert r == [x] + tail;
        if rest != [] {
          assert tail == [rest[0]] + SquashRuns(rest[1..], p, x);
          assert tail[0] != x;
        }
        forall i | 0 <= i < |r| - 1
          ensures !(r[i] == x && r[i + 1] == x)
        {
          if i > 0 {
            assert r[i] == tail[i - 1] && r[i + 1] == tail[i];
            assert !(tail[i - 1] == x && tail[i] == x);
          }
        }
      } else {
        SquashNoAdjacent(s[1..], p, x);
        var tail := SquashRuns(s[1..], p, x);
        var r := SquashRuns(s, p, x);
        assert r == [s[0]] + tail;
        assert s[0] != x;
        forall i | 0 <= i < |r| - 1
          ensures !(r[i] == x && r[i + 1] == x)
        {
          if i > 0 {
            assert r[i] == tail[i - 1] && r[i + 1] == tail[i];
            assert !(tail[i - 1] == x && tail[i] == x);
          }
        }
      }
    }
  }

  /** Squashing is the identity on a string where `p` holds of `x` only and `x` never repeats. */
  lemma {:induction false} SquashIdentity(s: string, p: char -> bool, x: char)
    requires forall i :: 0 <= i < |s| ==> (p(s[i]) <==> s[i] == x)
    requires NoDoubled(s, x)
    ensures SquashRuns(s, p, x) == s
    decreases |s|
  {
    if s != [] {
      if p(s[0]) {
        assert |s| == 1 || !p(s[1]);
        assert DropWhile(s, p) == s[1..] by {
          assert DropWhile(s[1..], p) == s[1..];
        }
      }
      SquashIdentity(s[1..], p, x);
    }
  }

  /** Squashing is the identity on a string where `p` holds of no character. */
  lemma {:induction false} SquashNone(s: string, p: char -> bool, x: char)
    requires forall i :: 0 <= i < |s| ==> !p(s[i])
    ensures SquashRuns(s, p, x) == s
    decreases |s|
  {
    if s != [] {
      SquashNone(s[1..], p, x);
    }
  }

  /** A prefix of characters `p` rejects passes through squashing unchanged. */
  lemma {:induction false} SquashKeepPrefix(a: string, b: string, p: char -> bool, x: char)
    requires forall i :: 0 <= i < |a| ==> !p(a[i])
    ensures SquashRuns(a + b, p, x) == a + SquashRuns(b, p, x)
    decreases |a|
  {
    if a == [] {
      assert a + b == b;
    } else {
      assert (a + b)[0] == a[0] && (a + b)[1..] == a[1..] + b;
      SquashKeepPrefix(a[1..], b, p, x);
      assert a == [a[0]] + a[1..];
    }
  }

  /** A single character `p` holds of, followed by one it rejects, becomes one `x`. */
  lemma SquashSingle(c: char, b: string, p: char -> bool, x: char)
    requires p(c) && (b == [] || !p(b[0]))
    ensures SquashRuns([c] + b, p, x) == [x] + SquashRuns(b, p, x)
  {
    assert ([c] + b)[1..] == b;
    assert DropWhile([c] + b, p) == b;
  }

  /** `trim` leaves a string of name characters as it is. */
  lemma NameTrim(s: string)
    requires forall i :: 0 <= i < |s| ==> NameChar(s[i])
    ensures Trim(s) == s
  {
    assert forall i :: 0 <= i < |s| ==> !IsSpace(s[i]);
  }
}
