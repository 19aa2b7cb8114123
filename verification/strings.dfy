/**
 * The few pieces of Python string behaviour the core relies on: decimal
 * printing of integers in f-strings, `str.lower()`, the `in` substring test
 * and the `<` ordering that `list.sort` uses on string keys.
 */
module Strings {

  predicate IsDigit(c: char) {
    '0' <= c <= '9'
  }

  function DigitChar(d: nat): (c: char)
    requires d < 10
    ensures IsDigit(c)
  {
    (d + 48) as char
  }

  /** The decimal digits of `n`, most significant first, without leading zeros. */
  function NatToString(n: nat): (s: string)
    ensures 1 <= |s|
    ensures forall i :: 0 <= i < |s| ==> IsDigit(s[i])
  {
    if n < 10 then [DigitChar(n)] else NatToString(n / 10) + [DigitChar(n % 10)]
  }

  /** What an f-string prints for an integer: an optional minus sign, then the digits. */
  function IntToString(i: int): (s: string)
    ensures 1 <= |s| && s[0] != '_'
    ensures forall k :: 0 <= k < |s| ==> s[k] != '_'
  {
    if i < 0 then "-" + NatToString(-i) else NatToString(i)
  }

  /** Distinct numbers print differently. */
  lemma {:induction false} NatToStringInjective(n: nat, m: nat)
    requires NatToString(n) == NatToString(m)
    ensures n == m
  {
    if n < 10 && m < 10 {
      assert NatToString(n)[0] == NatToString(m)[0];
    } else if n < 10 || m < 10 {
      // the longer string has at least two digits
      assert false;
    } else {
      var s, t := NatToString(n), NatToString(m);
      assert s[|s| - 1] == t[|t| - 1];
      assert DigitChar(n % 10) == DigitChar(m % 10);
      assert s[..|s| - 1] == NatToString(n / 10);
      assert t[..|t| - 1] == NatToString(m / 10);
      NatToStringInjective(n / 10, m / 10);
    }
  }

  lemma IntToStringInjective(i: int, j: int)
    requires IntToString(i) == IntToString(j)
    ensures i == j
  {
    var s := IntToString(i);
    if i < 0 && j < 0 {
      assert NatToString(-i) == s[1..] == NatToString(-j);
      NatToStringInjective(-i, -j);
    } else if i < 0 || j < 0 {
      // only one of them starts with a minus sign
      assert false;
    } else {
      NatToStringInjective(i, j);
    }
  }

  /** The position of the first underscore in `s`. */
  function FirstUnderscore(s: string): (k: nat)
    requires exists i :: 0 <= i < |s| && s[i] == '_'
    ensures k < |s| && s[k] == '_'
  {
    if s[0] == '_' then 0 else 1 + FirstUnderscore(s[1..])
  }

  lemma {:induction false} FirstUnderscoreOfConcat(a: string, c: string)
    requires forall k :: 0 <= k < |a| ==> a[k] != '_'
    requires 1 <= |c| && c[0] == '_'
    ensures (a + c)[|a|] == '_'
    ensures FirstUnderscore(a + c) == |a|
  {
    if |a| > 0 {
      assert (a + c)[1..] == a[1..] + c;
      FirstUnderscoreOfConcat(a[1..], c);
    }
  }

  /**
   * If `a + c == b + d`, neither `a` nor `b` holds an underscore and both `c`
   * and `d` begin with one, then the split is the same on both sides.
   */
  lemma SplitAtUnderscore(a: string, c: string, b: string, d: string)
    requires a + c == b + d
    requires forall k :: 0 <= k < |a| ==> a[k] != '_'
    requires forall k :: 0 <= k < |b| ==> b[k] != '_'
    requires 1 <= |c| && c[0] == '_' && 1 <= |d| && d[0] == '_'
    ensures a == b && c == d
  {
    FirstUnderscoreOfConcat(a, c);
    FirstUnderscoreOfConcat(b, d);
    assert a == (a + c)[..|a|] && b == (b + d)[..|b|];
    assert c == (a + c)[|a|..] && d == (b + d)[|b|..];
  }

  /** `str.lower()` on the ASCII letters; every other character is kept. */
  function LowerChar(c: char): char {
    if 'A' <= c <= 'Z' then (c as int + 32) as char else c
  }

  function Lower(s: string): (r: string)
    ensures |r| == |s|
    ensures forall k :: 0 <= k < |s| ==> r[k] == LowerChar(s[k])
  {
    seq(|s|, k requires 0 <= k < |s| => LowerChar(s[k]))
  }

  /** Python's `needle in hay` on strings. */
  predicate Contains(hay: string, needle: string) {
    exists i | 0 <= i <= |hay| :: OccursAt(hay, needle, i)
  }

  predicate OccursAt(hay: string, needle: string, i: int) {
    0 <= i <= |hay| - |needle| && hay[i..i + |needle|] == needle
  }

  lemma EmptyIsContained(hay: string)
    ensures Contains(hay, "")
  {
    assert OccursAt(hay, "", 0);
  }

  /** Python's `a < b` on strings: code points compared left to right, a proper prefix is smaller. */
  predicate Less(a: string, b: string) {
    if |a| == 0 then 0 < |b|
    else if |b| == 0 then false
    else if a[0] != b[0] then a[0] < b[0]
    else Less(a[1..], b[1..])
  }

  lemma {:induction false} LessAsymmetric(a: string, b: string)
    requires Less(a, b)
    ensures !Less(b, a)
  {
    if |a| > 0 && |b| > 0 && a[0] == b[0] {
      LessAsymmetric(a[1..], b[1..]);
    }
  }

  lemma {:induction false} LessTransitive(a: string, b: string, c: string)
    requires Less(a, b) && Less(b, c)
    ensures Less(a, c)
  {
    if |a| > 0 && a[0] == b[0] && b[0] == c[0] {
      LessTransitive(a[1..], b[1..], c[1..]);
    }
  }

  lemma {:induction false} LessTotal(a: string, b: string)
    requires a != b
    ensures Less(a, b) || Less(b, a)
  {
    if |a| > 0 && |b| > 0 && a[0] == b[0] {
      assert a == [a[0]] + a[1..] && b == [b[0]] + b[1..];
      LessTotal(a[1..], b[1..]);
    }
  }

  /** `a <= b` as Python evaluates it on strings. */
  predicate AtMost(a: string, b: string) {
    !Less(b, a)
  }

  lemma AtMostTransitive(a: string, b: string, c: string)
    requires AtMost(a, b) && AtMost(b, c)
    ensures AtMost(a, c)
  {
    if Less(c, a) {
      if a == b {
      } else {
        LessTotal(a, b);
        LessTransitive(c, a, b);
      }
    }
  }
}
