/**
 * The Python string built-ins the validation layer relies on: `in` on strings,
 * `str.strip()`, `str.upper()` / `str.lower()`, `str(int)`, `", ".join(...)`
 * and `sorted(set(...))` over characters.
 */
module Text {

  /** The characters for which Python's `str.isspace()` holds, i.e. those `str.strip()` removes. */
  predicate IsSpace(c: char)
  {
    ('\t' <= c <= '\r') || ('\U{1c}' <= c <= '\U{1f}') || c == ' ' || c == '\U{85}' || c == '\U{a0}'
    || c == '\U{1680}' || ('\U{2000}' <= c <= '\U{200a}') || c == '\U{2028}' || c == '\U{2029}'
    || c == '\U{202f}' || c == '\U{205f}' || c == '\U{3000}'
  }

  predicate AllSpace(s: string)
  {
    forall i :: 0 <= i < |s| ==> IsSpace(s[i])
  }

  /** `str.upper()` on one character; only ASCII letters are mapped. */
  function ToUpper(c: char): char
  {
    if 'a' <= c <= 'z' then (c as int - 32) as char else c
  }

  /** `str.lower()` on one character; only ASCII letters are mapped. */
  function ToLower(c: char): char
  {
    if 'A' <= c <= 'Z' then (c as int + 32) as char else c
  }

  function Upper(s: string): (r: string)
    ensures |r| == |s| && forall i :: 0 <= i < |s| ==> r[i] == ToUpper(s[i])
  {
    seq(|s|, i requires 0 <= i < |s| => ToUpper(s[i]))
  }

  function Lower(s: string): (r: string)
    ensures |r| == |s| && forall i :: 0 <= i < |s| ==> r[i] == ToLower(s[i])
  {
    seq(|s|, i requires 0 <= i < |s| => ToLower(s[i]))
  }

  predicate StartsWith(s: string, prefix: string)
  {
    |prefix| <= |s| && s[..|prefix|] == prefix
  }

  predicate EndsWith(s: string, suffix: string)
  {
    |suffix| <= |s| && s[|s| - |suffix|..] == suffix
  }

  lemma AppendAssociative(a: string, b: string, c: string)
    ensures a + (b + c) == (a + b) + c
  {
  }

  /** Concatenation cancels a common suffix. */
  lemma AppendCancelSuffix(a: string, b: string, q: string)
    requires a + q == b + q
    ensures a == b
  {
    assert a == (a + q)[..|a|];
  }

  /** Concatenation cancels a common prefix and suffix. */
  lemma AppendCancel(p: string, a: string, b: string, q: string)
    requires p + a + q == p + b + q
    ensures a == b
  {
    AppendCancelSuffix(p + a, p + b, q);
    assert a == (p + a)[|p|..];
  }

  lemma StartsWithAppend(a: string, b: string)
    ensures StartsWith(a + b, a)
  {
    assert (a + b)[..|a|] == a;
  }

  lemma EndsWithAppend(a: string, b: string)
    ensures EndsWith(a + b, b)
  {
    assert (a + b)[|a|..] == b;
  }

  /** Python's substring test `sub in s`, scanning the start positions from the left. */
  predicate Contains(s: string, sub: string)
    decreases |s|
  {
    StartsWith(s, sub) || (|s| > 0 && Contains(s[1..], sub))
  }

  /** `Contains` holds exactly when `sub` occurs at some position of `s`. */
  lemma {:induction false} ContainsAt(s: string, sub: string)
    ensures Contains(s, sub) <==> exists i :: 0 <= i <= |s| && StartsWith(s[i..], sub)
    decreases |s|
  {
    assert s[0..] == s;
    if |s| > 0 {
      ContainsAt(s[1..], sub);
      if Contains(s, sub) && !StartsWith(s, sub) {
        var i :| 0 <= i <= |s| - 1 && StartsWith(s[1..][i..], sub);
        assert s[1..][i..] == s[i + 1..];
      }
      if exists i :: 0 <= i <= |s| && StartsWith(s[i..], sub) {
        var i :| 0 <= i <= |s| && StartsWith(s[i..], sub);
        if i > 0 {
          assert s[1..][i - 1..] == s[i..];
        }
      }
    }
  }

  /** A string occurs in any string that has it as an infix. */
  lemma ContainsInfix(a: string, x: string, b: string)
    ensures Contains(a + x + b, x)
  {
    var s := a + x + b;
    assert s[|a|..][..|x|] == x;
    ContainsAt(s, x);
  }

  /** An occurrence in `b` is an occurrence in `a + b`. */
  lemma ContainsShift(a: string, b: string, sub: string)
    requires Contains(b, sub)
    ensures Contains(a + b, sub)
  {
    ContainsAt(b, sub);
    var i :| 0 <= i <= |b| && StartsWith(b[i..], sub);
    assert (a + b)[|a| + i..] == b[i..];
    ContainsAt(a + b, sub);
  }

  /** An occurrence in `a` is an occurrence in `a + b`. */
  lemma {:induction false} ContainsPrefixOf(a: string, b: string, sub: string)
    requires Contains(a, sub)
    ensures Contains(a + b, sub)
  {
    ContainsAt(a, sub);
    var i :| 0 <= i <= |a| && StartsWith(a[i..], sub);
    assert (a + b)[i..][..|sub|] == a[i..][..|sub|];
    ContainsAt(a + b, sub);
  }

  /** An occurrence in a suffix of `s` is an occurrence in `s`. */
  lemma ContainsEndOf(s: string, suffix: string, sub: string)
    requires EndsWith(s, suffix) && Contains(suffix, sub)
    ensures Contains(s, sub)
  {
    var head := s[..|s| - |suffix|];
    assert s == head + suffix;
    ContainsShift(head, suffix, sub);
  }

  lemma ContainsSelf(s: string)
    ensures Contains(s, s)
  {
    assert s[..|s|] == s;
  }

  function DigitChar(d: nat): (c: char)
    requires d < 10
    ensures '0' <= c <= '9'
  {
    ('0' as int + d) as char
  }

  predicate IsDigits(s: string)
  {
    forall i :: 0 <= i < |s| ==> '0' <= s[i] <= '9'
  }

  /** Python's `str(n)` for a natural number: its decimal digits, most significant first. */
  function NatToString(n: nat): (r: string)
    ensures |r| > 0 && IsDigits(r)
    ensures r[0] == '0' ==> n == 0
    decreases n
  {
    if n < 10 then [DigitChar(n)] else NatToString(n / 10) + [DigitChar(n % 10)]
  }

  /** The number a string of decimal digits denotes. */
  function DigitsValue(s: string): nat
    requires IsDigits(s)
    decreases |s|
  {
    if s == [] then 0 else DigitsValue(s[..|s| - 1]) * 10 + (s[|s| - 1] as int - '0' as int)
  }

  /** Reading back the digits `str(n)` prints gives `n`. */
  lemma {:induction false} NatToStringRoundTrip(n: nat)
    ensures DigitsValue(NatToString(n)) == n
    decreases n
  {
    if n >= 10 {
      NatToStringRoundTrip(n / 10);
      var s := NatToString(n);
      assert s[..|s| - 1] == NatToString(n / 10);
    }
  }

  /** Python's `str(i)` for any integer. */
  function IntToString(i: int): (r: string)
    ensures |r| > 0
    ensures i < 0 <==> r[0] == '-'
    ensures i >= 0 ==> r == NatToString(i) && DigitsValue(r) == i
    ensures i < 0 ==> r == "-" + NatToString(-i) && DigitsValue(r[1..]) == -i
  {
    if i < 0 then
      NatToStringRoundTrip(-i);
      assert ("-" + NatToString(-i))[1..] == NatToString(-i);
      "-" + NatToString(-i)
    else
      NatToStringRoundTrip(i);
      NatToString(i)
  }

  /** Python's `sep.join(parts)`. */
  function Join(parts: seq<string>, sep: string): string
    decreases |parts|
  {
    if |parts| == 0 then ""
    else if |parts| == 1 then parts[0]
    else parts[0] + sep + Join(parts[1..], sep)
  }

  /** Python's `<` on strings: code-point order, a proper prefix first. */
  predicate LexLess(a: string, b: string)
    decreases |a|
  {
    |b| > 0 && (|a| == 0 || a[0] < b[0] || (a[0] == b[0] && LexLess(a[1..], b[1..])))
  }

  predicate StrictlyIncreasing(s: string)
  {
    forall i, j :: 0 <= i < j < |s| ==> s[i] < s[j]
  }

  /** Adds `c` to a strictly increasing string, keeping it strictly increasing and free of repeats. */
  function InsertChar(s: string, c: char): (r: string)
    requires StrictlyIncreasing(s)
    ensures StrictlyIncreasing(r)
    ensures forall x :: x in r <==> x in s || x == c
    decreases |s|
  {
    if s == [] then [c]
    else if c < s[0] then [c] + s
    else if c == s[0] then s
    else
      var rest := InsertChar(s[1..], c);
      assert forall k :: 0 <= k < |rest| ==> rest[k] in s[1..] || rest[k] == c;
      assert forall k :: 0 <= k < |s| - 1 ==> s[0] < s[1..][k];
      [s[0]] + rest
  }

  /** Python's `sorted(set(s))`: the distinct characters of `s` in code-point order. */
  function SortedDistinct(s: string): (r: string)
    ensures StrictlyIncreasing(r)
    ensures forall x :: x in r <==> x in s
    decreases |s|
  {
    if s == [] then []
    else
      var init := s[..|s| - 1];
      assert forall x :: x in s <==> x in init || x == s[|s| - 1];
      InsertChar(SortedDistinct(init), s[|s| - 1])
  }

  /** Python's `str.lstrip()`. */
  function TrimStart(s: string): (r: string)
    ensures |r| <= |s| && r == s[|s| - |r|..]
    ensures r == [] <==> AllSpace(s)
    ensures r != [] ==> !IsSpace(r[0])
    decreases |s|
  {
    if |s| > 0 && IsSpace(s[0]) then
      var r := TrimStart(s[1..]);
      assert s[1..][|s| - 1 - |r|..] == s[|s| - |r|..];
      assert AllSpace(s) <==> AllSpace(s[1..]) by {
        if AllSpace(s[1..]) {
          assert forall i :: 1 <= i < |s| ==> s[i] == s[1..][i - 1];
        }
      }
      r
    else
      s
  }

  /** Python's `str.rstrip()`. */
  function TrimEnd(s: string): (r: string)
    ensures |r| <= |s| && r == s[..|r|]
    ensures r == [] <==> AllSpace(s)
    ensures r != [] ==> !IsSpace(r[|r| - 1])
    decreases |s|
  {
    if |s| > 0 && IsSpace(s[|s| - 1]) then
      var r := TrimEnd(s[..|s| - 1]);
      assert AllSpace(s) <==> AllSpace(s[..|s| - 1]) by {
        if AllSpace(s[..|s| - 1]) {
          assert forall i :: 0 <= i < |s| - 1 ==> s[i] == s[..|s| - 1][i];
        }
      }
      r
    else
      s
  }

  /** Python's `str.strip()`: the result is empty exactly for blank input, and otherwise begins and ends with a non-space. */
  function Strip(s: string): (r: string)
    ensures r == [] <==> AllSpace(s)
    ensures r != [] ==> !IsSpace(r[0]) && !IsSpace(r[|r| - 1])
  {
    var t := TrimStart(s);
    var r := TrimEnd(t);
    assert t != [] ==> !AllSpace(t) by {
      if t != [] {
        assert !IsSpace(t[0]);
      }
    }
    assert r != [] ==> r[0] == t[0];
    r
  }

  lemma {:induction false} TrimStartSpacePrefix(a: string, b: string)
    requires AllSpace(a)
    ensures TrimStart(a + b) == TrimStart(b)
    decreases |a|
  {
    if a != [] {
      assert (a + b)[1..] == a[1..] + b;
      TrimStartSpacePrefix(a[1..], b);
    } else {
      assert a + b == b;
    }
  }

  lemma {:induction false} TrimStartAppend(a: string, b: string)
    requires !AllSpace(a)
    ensures TrimStart(a + b) == TrimStart(a) + b
    decreases |a|
  {
    if IsSpace(a[0]) {
      assert (a + b)[1..] == a[1..] + b;
      TrimStartAppend(a[1..], b);
    }
  }

  lemma {:induction false} TrimEndSpaceSuffix(a: string, b: string)
    requires AllSpace(b)
    ensures TrimEnd(a + b) == TrimEnd(a)
    decreases |b|
  {
    if b != [] {
      assert (a + b)[..|a + b| - 1] == a + b[..|b| - 1];
      TrimEndSpaceSuffix(a, b[..|b| - 1]);
    } else {
      assert a + b == a;
    }
  }

  lemma {:induction false} TrimEndAppend(a: string, b: string)
    requires !AllSpace(b)
    ensures TrimEnd(a + b) == a + TrimEnd(b)
    decreases |b|
  {
    var ab := a + b;
    assert ab[|ab| - 1] == b[|b| - 1];
    if IsSpace(b[|b| - 1]) {
      assert ab[..|ab| - 1] == a + b[..|b| - 1];
      TrimEndAppend(a, b[..|b| - 1]);
    } else {
      assert TrimEnd(ab) == ab;
    }
  }

  /** `strip()` removes exactly the blank margins: a padded core comes back unpadded. */
  lemma StripPadded(w1: string, core: string, w2: string)
    requires AllSpace(w1) && AllSpace(w2)
    requires core != [] && !IsSpace(core[0]) && !IsSpace(core[|core| - 1])
    ensures Strip(w1 + core + w2) == core
  {
    TrimStartSpacePrefix(w1, core + w2);
    assert w1 + core + w2 == w1 + (core + w2);
    TrimStartAppend(core, w2);
    assert TrimStart(core) == core;
    TrimEndSpaceSuffix(core, w2);
  }
}
