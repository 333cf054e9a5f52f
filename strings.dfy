/**
 * The string operations of the Python standard library that the modelled code
 * relies on: `sub in s`, `s.replace(old, new)`, `sep.join(parts)` and the
 * code-point ordering used by `sorted` and `json.dumps(..., sort_keys=True)`.
 */
module Strings {

  /** `p` is a prefix of `s`. */
  predicate IsPrefix(p: string, s: string)
  {
    |p| <= |s| && s[..|p|] == p
  }

  /** Python's `sub in s`. */
  predicate Contains(s: string, sub: string)
    decreases |s|
  {
    IsPrefix(sub, s) || (|s| > 0 && Contains(s[1..], sub))
  }

  /**
   * Python's `s.replace(pat, rep)` for a non-empty pattern: scans left to right
   * and replaces every non-overlapping occurrence.
   */
  function ReplaceAll(s: string, pat: string, rep: string): (r: string)
    requires |pat| > 0
    decreases |s|
  {
    if |s| < |pat| then s
    else if s[..|pat|] == pat then rep + ReplaceAll(s[|pat|..], pat, rep)
    else [s[0]] + ReplaceAll(s[1..], pat, rep)
  }

  /** Python's `sep.join(parts)`. */
  function Join(parts: seq<string>, sep: string): string
  {
    if |parts| == 0 then ""
    else if |parts| == 1 then parts[0]
    else parts[0] + sep + Join(parts[1..], sep)
  }

  /** A string in which `pat` does not occur is left as it is by `replace`. */
  lemma {:induction false} ReplaceAllAbsent(s: string, pat: string, rep: string)
    requires |pat| > 0
    requires !Contains(s, pat)
    ensures ReplaceAll(s, pat, rep) == s
    decreases |s|
  {
    if |s| >= |pat| {
      assert s[..|pat|] != pat;
      ReplaceAllAbsent(s[1..], pat, rep);
    }
  }

  /** `replace` removes a leading occurrence and goes on with the rest. */
  lemma ReplaceAllLeading(pat: string, rest: string, rep: string)
    requires |pat| > 0
    ensures ReplaceAll(pat + rest, pat, rep) == rep + ReplaceAll(rest, pat, rep)
  {
    assert (pat + rest)[..|pat|] == pat;
    assert (pat + rest)[|pat|..] == rest;
  }

  /** A string too short to hold `sub` does not contain it. */
  lemma {:induction false} ShortNotContains(s: string, sub: string)
    requires |s| < |sub|
    ensures !Contains(s, sub)
    decreases |s|
  {
    if |s| > 0 {
      ShortNotContains(s[1..], sub);
    }
  }

  /**
   * If `sub` starts with a character `c` and, wherever `c` occurs in `s`, too
   * few characters follow it to complete `sub`, then `s` does not contain `sub`.
   */
  lemma {:induction false} NotContainsByHead(s: string, sub: string)
    requires |sub| > 0
    requires forall i :: 0 <= i < |s| && s[i] == sub[0] ==> |s| - i < |sub|
    ensures !Contains(s, sub)
    decreases |s|
  {
    if |s| > 0 {
      if |sub| <= |s| {
        assert s[0] != sub[0];
        assert s[..|sub|][0] == s[0];
      }
      forall i | 0 <= i < |s| - 1 && s[1..][i] == sub[0]
        ensures |s[1..]| - i < |sub|
      {
        assert s[i + 1] == sub[0];
      }
      NotContainsByHead(s[1..], sub);
    }
  }

  /** A string in none of whose suffixes `sub` starts does not contain `sub`. */
  lemma {:induction false} NoMatchAnywhere(s: string, sub: string)
    requires forall i | 0 <= i <= |s| :: !IsPrefix(sub, s[i..])
    ensures !Contains(s, sub)
    decreases |s|
  {
    assert s[0..] == s;
    if |s| > 0 {
      forall i | 0 <= i <= |s[1..]|
        ensures !IsPrefix(sub, s[1..][i..])
      {
        assert s[1..][i..] == s[i + 1..];
      }
      NoMatchAnywhere(s[1..], sub);
    }
  }

  /**
   * A prefix `a` that holds no character of the pattern's first kind is
   * copied unchanged, and `replace` continues on what follows it.
   */
  lemma {:induction false} ReplaceAllSkip(a: string, b: string, pat: string, rep: string)
    requires |pat| > 0
    requires forall i :: 0 <= i < |a| ==> a[i] != pat[0]
    ensures ReplaceAll(a + b, pat, rep) == a + ReplaceAll(b, pat, rep)
    decreases |a|
  {
    if |a| > 0 {
      var s := a + b;
      assert a[0] != pat[0];
      if |s| >= |pat| {
        assert s[..|pat|][0] == a[0];
        assert s[1..] == a[1..] + b;
        ReplaceAllSkip(a[1..], b, pat, rep);
        calc {
          ReplaceAll(s, pat, rep);
          [s[0]] + ReplaceAll(a[1..] + b, pat, rep);
          [a[0]] + (a[1..] + ReplaceAll(b, pat, rep));
          { assert [a[0]] + a[1..] == a; }
          a + ReplaceAll(b, pat, rep);
        }
      } else {
        assert ReplaceAll(b, pat, rep) == b;
      }
    } else {
      assert a + b == b;
    }
  }

  // ---------------------------------------------------------------------------
  // Code-point ordering of strings

  /** Python's `a < b` on strings: lexicographic by code point. */
  predicate LexLess(a: string, b: string)
    decreases |a|
  {
    |b| > 0 && (|a| == 0 || a[0] < b[0] || (a[0] == b[0] && LexLess(a[1..], b[1..])))
  }

  lemma {:induction false} LexLessIrreflexive(a: string)
    ensures !LexLess(a, a)
    decreases |a|
  {
    if |a| > 0 {
      LexLessIrreflexive(a[1..]);
    }
  }

  lemma {:induction false} LexLessAsymmetric(a: string, b: string)
    ensures LexLess(a, b) ==> !LexLess(b, a)
    decreases |a|
  {
    if |a| > 0 && |b| > 0 {
      LexLessAsymmetric(a[1..], b[1..]);
    }
  }

  lemma {:induction false} LexLessTransitive(a: string, b: string, c: string)
    requires LexLess(a, b) && LexLess(b, c)
    ensures LexLess(a, c)
    decreases |a|
  {
    if |a| > 0 && a[0] == b[0] && b[0] == c[0] {
      LexLessTransitive(a[1..], b[1..], c[1..]);
    }
  }

  lemma {:induction false} LexLessTotal(a: string, b: string)
    requires a != b
    ensures LexLess(a, b) || LexLess(b, a)
    decreases |a|
  {
    if |a| > 0 && |b| > 0 && a[0] == b[0] {
      assert a == [a[0]] + a[1..] && b == [b[0]] + b[1..];
      LexLessTotal(a[1..], b[1..]);
    }
  }

  /** `m` is the least element of `keys`. */
  predicate IsLeast(m: string, keys: set<string>)
  {
    m in keys && forall k :: k in keys && k != m ==> LexLess(m, k)
  }

  /** Every finite non-empty set of strings has a least element. */
  lemma {:induction false} FindLeast(keys: set<string>) returns (m: string)
    requires keys != {}
    ensures IsLeast(m, keys)
    decreases |keys|
  {
    var x :| x in keys;
    if keys == {x} {
      m := x;
    } else {
      var rest := keys - {x};
      var n := FindLeast(rest);
      if LexLess(n, x) {
        m := n;
      } else {
        LexLessTotal(n, x);
        m := x;
        forall k | k in keys && k != x
          ensures LexLess(x, k)
        {
          if k != n {
            LexLessTransitive(x, n, k);
          }
        }
      }
    }
  }

  lemma LeastExists(keys: set<string>)
    requires keys != {}
    ensures exists m :: IsLeast(m, keys)
  {
    var m := FindLeast(keys);
  }

  /** A sequence of strings in strictly increasing code-point order. */
  predicate StrictlySorted(s: seq<string>)
  {
    forall i, j :: 0 <= i < j < |s| ==> LexLess(s[i], s[j])
  }

  /** The least element of a non-empty set of strings. */
  function Least(keys: set<string>): (m: string)
    requires keys != {}
    ensures IsLeast(m, keys)
  {
    LeastExists(keys);
    LexLessAsymmetricAll();
    var m :| IsLeast(m, keys);
    m
  }

  /** The least element followed by the rest in increasing order is in increasing order. */
  lemma SortedCons(m: string, tail: seq<string>, keys: set<string>)
    requires IsLeast(m, keys)
    requires StrictlySorted(tail)
    requires forall k :: k in keys - {m} <==> k in tail
    ensures StrictlySorted([m] + tail)
  {
    forall i, j | 0 <= i < j < |[m] + tail|
      ensures LexLess(([m] + tail)[i], ([m] + tail)[j])
    {
      if i == 0 {
        assert tail[j - 1] in keys - {m};
      }
    }
  }

  /**
   * The elements of `keys` in increasing order, as `sorted(keys)` gives them.
   */
  function SortedKeys(keys: set<string>): (r: seq<string>)
    ensures StrictlySorted(r)
    ensures forall k :: k in keys <==> k in r
    ensures |r| == |keys|
    decreases |keys|
  {
    if keys == {} then []
    else
      var m := Least(keys);
      var tail := SortedKeys(keys - {m});
      SortedCons(m, tail, keys);
      [m] + tail
  }

  lemma LexLessAsymmetricAll()
    ensures forall a, b :: LexLess(a, b) ==> !LexLess(b, a)
  {
    forall a, b ensures LexLess(a, b) ==> !LexLess(b, a) {
      LexLessAsymmetric(a, b);
    }
  }
}
