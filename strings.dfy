/** Python's string operations that the sync engine relies on: substring test, `sep.join`,
    `os.path.basename`, and the ordering `sorted` uses on byte strings. */
module Strings {
  import opened Common

  predicate StartsWith(s: string, prefix: string)
  {
    |prefix| <= |s| && s[..|prefix|] == prefix
  }

  /** Python's `sub in s` for strings: `sub` occurs at some offset of `s`. */
  predicate Contains(s: string, sub: string)
    decreases |s|
  {
    StartsWith(s, sub) || (|s| > 0 && Contains(s[1..], sub))
  }

  lemma {:induction false} ContainsAt(s: string, sub: string, k: nat)
    requires k + |sub| <= |s| && s[k..k + |sub|] == sub
    ensures Contains(s, sub)
    decreases k
  {
    if k > 0 {
      assert s[1..][k - 1..k - 1 + |sub|] == s[k..k + |sub|];
      ContainsAt(s[1..], sub, k - 1);
    }
  }

  /** `sub in s` holds exactly when `sub` occurs at some offset of `s`. */
  lemma {:induction false} ContainsOffset(s: string, sub: string)
    ensures Contains(s, sub) <==> exists k :: 0 <= k <= |s| - |sub| && StartsWith(s[k..], sub)
    decreases |s|
  {
    if Contains(s, sub) {
      if StartsWith(s, sub) {
        assert s[0..] == s;
      } else {
        ContainsOffset(s[1..], sub);
        var k :| 0 <= k <= |s[1..]| - |sub| && StartsWith(s[1..][k..], sub);
        assert s[1..][k..] == s[k + 1..];
      }
    } else if exists k :: 0 <= k <= |s| - |sub| && StartsWith(s[k..], sub) {
      var k :| 0 <= k <= |s| - |sub| && StartsWith(s[k..], sub);
      assert s[k..][..|sub|] == s[k..k + |sub|];
      ContainsAt(s, sub, k);
    }
  }

  /** Python's `sep.join(parts)`. */
  function Join(parts: seq<string>, sep: string): (r: string)
    ensures |parts| == 0 ==> r == ""
    ensures |parts| > 0 ==> StartsWith(r, parts[0])
  {
    if |parts| == 0 then ""
    else if |parts| == 1 then parts[0]
    else parts[0] + sep + Join(parts[1..], sep)
  }

  /** `os.path.basename(p)`: what follows the last '/' of `p`. */
  function Basename(p: string): string
    decreases |p|
  {
    if p == [] || p[|p| - 1] == '/' then []
    else Basename(p[..|p| - 1]) + [p[|p| - 1]]
  }

  /** The basename is the longest suffix of the path that holds no '/'. */
  lemma {:induction false} BasenameSuffix(p: string)
    ensures var r := Basename(p);
      && |r| <= |p| && r == p[|p| - |r|..]
      && '/' !in r
      && (|r| < |p| ==> p[|p| - |r| - 1] == '/')
    decreases |p|
  {
    if p != [] && p[|p| - 1] != '/' {
      var init := p[..|p| - 1];
      BasenameSuffix(init);
      var r0 := Basename(init);
      assert Basename(p) == r0 + [p[|p| - 1]];
      assert r0 == init[|init| - |r0|..];
      assert Basename(p) == p[|p| - |r0| - 1..];
    }
  }

  /** `a < b` on Python strings: lexicographic by character code, a proper prefix first. */
  predicate Below(a: string, b: string)
    decreases |a|
  {
    |b| > 0 && (|a| == 0 || a[0] < b[0] || (a[0] == b[0] && Below(a[1..], b[1..])))
  }

  lemma {:induction false} BelowIrreflexive(a: string)
    ensures !Below(a, a)
    decreases |a|
  {
    if |a| > 0 {
      BelowIrreflexive(a[1..]);
    }
  }

  lemma {:induction false} BelowTransitive(a: string, b: string, c: string)
    requires Below(a, b) && Below(b, c)
    ensures Below(a, c)
    decreases |a|
  {
    if |a| > 0 && a[0] == b[0] && b[0] == c[0] {
      BelowTransitive(a[1..], b[1..], c[1..]);
    }
  }

  lemma {:induction false} BelowTotal(a: string, b: string)
    requires a != b
    ensures Below(a, b) || Below(b, a)
    decreases |a|
  {
    if |a| > 0 && |b| > 0 && a[0] == b[0] {
      assert a == [a[0]] + a[1..] && b == [b[0]] + b[1..];
      BelowTotal(a[1..], b[1..]);
    }
  }

  /** Strictly increasing, hence without repetitions: what `sorted(set(...))` yields. */
  predicate StrictlySorted(s: seq<string>)
  {
    forall i, j :: 0 <= i < j < |s| ==> Below(s[i], s[j])
  }

  lemma SortedIsDistinct(s: seq<string>)
    requires StrictlySorted(s)
    ensures Distinct(s)
  {
    forall i, j | 0 <= i < j < |s| ensures s[i] != s[j] {
      BelowIrreflexive(s[i]);
    }
  }

  /** Adds `x` to a strictly sorted sequence, keeping it strictly sorted; a present `x` is not repeated. */
  function Insert(x: string, s: seq<string>): (r: seq<string>)
    requires StrictlySorted(s)
    ensures StrictlySorted(r)
    ensures Elems(r) == Elems(s) + {x}
    decreases |s|
  {
    if s == [] then [x]
    else if x == s[0] then s
    else if Below(x, s[0]) then
      assert forall j :: 0 < j < |s| ==> Below(x, s[j]) by {
        forall j | 0 < j < |s| ensures Below(x, s[j]) { BelowTransitive(x, s[0], s[j]); }
      }
      [x] + s
    else
      BelowTotal(x, s[0]);
      var rest := Insert(x, s[1..]);
      assert Elems(s) == {s[0]} + Elems(s[1..]) by { assert s == [s[0]] + s[1..]; }
      assert forall y :: y in rest ==> Below(s[0], y) by {
        forall y | y in rest ensures Below(s[0], y) {
          assert y in Elems(rest);
          if y != x {
            var k :| 0 <= k < |s[1..]| && s[1..][k] == y;
            assert s[k + 1] == y;
          }
        }
      }
      assert Elems([s[0]] + rest) == {s[0]} + Elems(rest);
      [s[0]] + rest
  }

  /** A set of strings has exactly one strictly sorted enumeration. */
  lemma {:induction false} SortedUnique(a: seq<string>, b: seq<string>)
    requires StrictlySorted(a) && StrictlySorted(b)
    requires Elems(a) == Elems(b)
    ensures a == b
    decreases |a|
  {
    NonEmptyElems(a);
    NonEmptyElems(b);
    if a != [] && b != [] {
      assert a[0] in Elems(b) && b[0] in Elems(a);
      if a[0] != b[0] {
        var i :| 0 <= i < |a| && a[i] == b[0];
        var j :| 0 <= j < |b| && b[j] == a[0];
        assert Below(a[0], b[0]);
        assert Below(b[0], a[0]);
        BelowTransitive(a[0], b[0], a[0]);
        BelowIrreflexive(a[0]);
      }
      SortedIsDistinct(a);
      SortedIsDistinct(b);
      assert a == [a[0]] + a[1..] && b == [b[0]] + b[1..];
      assert Elems(a[1..]) == Elems(a) - {a[0]} by {
        assert Elems(a) == {a[0]} + Elems(a[1..]);
        assert a[0] !in a[1..];
      }
      assert Elems(b[1..]) == Elems(b) - {b[0]} by {
        assert Elems(b) == {b[0]} + Elems(b[1..]);
        assert b[0] !in b[1..];
      }
      SortedUnique(a[1..], b[1..]);
    }
  }
}
