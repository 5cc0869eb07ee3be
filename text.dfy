/** The string operations the pipeline borrows from Python's `str`:
    whitespace stripping (with Python's full set of whitespace characters),
    lower-casing (of ASCII letters only), substring and prefix tests,
    splitting and joining on a separator, slicing with Python's clamping rules,
    decimal rendering of integers, and code-point ordering of strings. */
module Text {

  /** The characters Python's `str.isspace()` accepts, which are those
      `str.strip()` removes: the ASCII controls tab to carriage return and
      file to unit separator, the space, and the Unicode spaces and line
      separators. */
  predicate IsSpace(c: char) {
    || c == ' ' || '\t' <= c <= '\r' || '\U{1C}' <= c <= '\U{1F}'
    || c == '\U{85}' || c == '\U{A0}' || c == '\U{1680}' || '\U{2000}' <= c <= '\U{200A}'
    || c == '\U{2028}' || c == '\U{2029}' || c == '\U{202F}' || c == '\U{205F}' || c == '\U{3000}'
  }

  /** Empty or made of whitespace only: `not s.strip()` in the source. */
  predicate IsBlank(s: string) {
    forall i :: 0 <= i < |s| ==> IsSpace(s[i])
  }

  /** `s.lstrip()`: drops the leading whitespace. */
  function LStrip(s: string): (r: string)
    ensures |r| <= |s| && r == s[|s| - |r|..]
    ensures IsBlank(s[..|s| - |r|])
    ensures r == [] || !IsSpace(r[0])
  {
    if |s| == 0 || !IsSpace(s[0]) then s
    else
      var r := LStrip(s[1..]);
      assert s[..|s| - |r|] == [s[0]] + s[1..][..|s| - 1 - |r|];
      r
  }

  /** `s.rstrip()`: drops the trailing whitespace. */
  function RStrip(s: string): (r: string)
    ensures |r| <= |s| && r == s[..|r|]
    ensures IsBlank(s[|r|..])
    ensures r == [] || !IsSpace(r[|r| - 1])
  {
    if |s| == 0 || !IsSpace(s[|s| - 1]) then s
    else
      var r := RStrip(s[..|s| - 1]);
      assert s[|r|..] == s[..|s| - 1][|r|..] + [s[|s| - 1]];
      r
  }

  /** `s.strip()`: what is left once whitespace is removed from both ends; it
      is empty exactly when `s` is blank. */
  function Strip(s: string): (r: string)
    ensures |r| <= |s|
    ensures r == [] <==> IsBlank(s)
    ensures r == [] || (!IsSpace(r[0]) && !IsSpace(r[|r| - 1]))
  {
    if |s| > 0 && IsSpace(s[0]) then Strip(s[1..])
    else
      RStripKeepsFirst(s);
      RStrip(s)
  }

  /** Stripping is right-stripping what left-stripping leaves. */
  lemma {:induction false} StripBothEnds(s: string)
    ensures Strip(s) == RStrip(LStrip(s))
  {
    if |s| > 0 && IsSpace(s[0]) {
      StripBothEnds(s[1..]);
    }
  }

  /** Stripping an already stripped string changes nothing. */
  lemma StripIdempotent(s: string)
    ensures Strip(Strip(s)) == Strip(s)
  {
    StripUnchanged(Strip(s));
  }

  /** A string with no whitespace at either end is its own strip. */
  lemma StripUnchanged(s: string)
    requires s == [] || (!IsSpace(s[0]) && !IsSpace(s[|s| - 1]))
    ensures Strip(s) == s
  {
    assert LStrip(s) == s;
    assert RStrip(s) == s;
  }

  /** Leading whitespace is all in the first part when that part is not blank. */
  lemma {:induction false} LStripConcat(a: string, b: string)
    requires !IsBlank(a)
    ensures LStrip(a + b) == LStrip(a) + b
  {
    if IsSpace(a[0]) {
      assert (a + b)[1..] == a[1..] + b;
      LStripConcat(a[1..], b);
    }
  }

  /** Right-stripping a string that starts with a non-space keeps that first
      character. */
  lemma RStripKeepsFirst(x: string)
    requires |x| > 0 ==> !IsSpace(x[0])
    ensures |x| > 0 ==> |RStrip(x)| > 0 && RStrip(x)[0] == x[0]
  {
  }

  /** The first character of `s.strip()` when `s` is not blank. */
  lemma StripFirst(s: string)
    requires !IsBlank(s)
    ensures |LStrip(s)| > 0 && Strip(s)[0] == LStrip(s)[0]
  {
    StripBothEnds(s);
    RStripKeepsFirst(LStrip(s));
  }

  /** ASCII lower-casing of one character. */
  function LowerChar(c: char): char {
    if 'A' <= c <= 'Z' then (c as int + 32) as char else c
  }

  /** `s.lower()` on ASCII text. */
  function Lower(s: string): (r: string)
    ensures |r| == |s|
    ensures forall i :: 0 <= i < |s| ==> r[i] == LowerChar(s[i])
  {
    seq(|s|, i requires 0 <= i < |s| => LowerChar(s[i]))
  }

  /** `s.replace(a, b)` for single characters. */
  function Replace(s: string, a: char, b: char): (r: string)
    ensures |r| == |s|
    ensures forall i :: 0 <= i < |s| ==> r[i] == if s[i] == a then b else s[i]
  {
    seq(|s|, i requires 0 <= i < |s| => if s[i] == a then b else s[i])
  }

  /** `s.startswith(p)`. */
  predicate StartsWith(s: string, p: string) {
    |p| <= |s| && s[..|p|] == p
  }

  /** `sub in s`: `sub` occurs in `s` at some position. */
  predicate Contains(s: string, sub: string) {
    StartsWith(s, sub) || (|s| > 0 && Contains(s[1..], sub))
  }

  /** A string only occurs in strings at least as long. */
  lemma {:induction false} ContainsLength(s: string, sub: string)
    ensures Contains(s, sub) ==> |sub| <= |s|
  {
    if |s| > 0 && !StartsWith(s, sub) {
      ContainsLength(s[1..], sub);
    }
  }

  /** Every character of an occurring string occurs in the string. */
  lemma {:induction false} ContainsChars(s: string, sub: string)
    ensures Contains(s, sub) ==> forall j :: 0 <= j < |sub| ==> sub[j] in s
  {
    if Contains(s, sub) && !StartsWith(s, sub) {
      ContainsChars(s[1..], sub);
    } else if Contains(s, sub) {
      forall j | 0 <= j < |sub| ensures sub[j] in s {
        assert s[j] == sub[j];
      }
    }
  }

  /** Some string of `subs` occurs in `s`: `any(p in s for p in subs)`. */
  predicate ContainsAny(s: string, subs: seq<string>) {
    |subs| > 0 && (Contains(s, subs[0]) || ContainsAny(s, subs[1..]))
  }

  lemma {:induction false} ContainsAnyExists(s: string, subs: seq<string>)
    ensures ContainsAny(s, subs) <==> exists k :: 0 <= k < |subs| && Contains(s, subs[k])
  {
    if |subs| > 0 {
      ContainsAnyExists(s, subs[1..]);
      if ContainsAny(s, subs[1..]) {
        var k :| 0 <= k < |subs[1..]| && Contains(s, subs[1..][k]);
        assert subs[k + 1] == subs[1..][k];
      }
      if exists k :: 0 <= k < |subs| && Contains(s, subs[k]) {
        var k :| 0 <= k < |subs| && Contains(s, subs[k]);
        if k > 0 { assert subs[1..][k - 1] == subs[k]; }
      }
    }
  }

  /** None of `subs` occurs in `s` when each is longer than `s`. */
  lemma {:induction false} NoneLonger(s: string, subs: seq<string>)
    requires forall k :: 0 <= k < |subs| ==> |subs[k]| > |s|
    ensures !ContainsAny(s, subs)
  {
    if |subs| > 0 {
      ContainsLength(s, subs[0]);
      NoneLonger(s, subs[1..]);
    }
  }

  /** None of `subs` occurs in `s` when each starts with a character `s`
      lacks. */
  lemma {:induction false} NoneOccurs(s: string, subs: seq<string>)
    requires forall k :: 0 <= k < |subs| ==> |subs[k]| > 0 && subs[k][0] !in s
    ensures !ContainsAny(s, subs)
  {
    if |subs| > 0 {
      ContainsChars(s, subs[0]);
      NoneOccurs(s, subs[1..]);
    }
  }

  /** `s` starts with some string of `ps`: `any(s.startswith(p) for p in ps)`. */
  predicate StartsWithAny(s: string, ps: seq<string>) {
    |ps| > 0 && (StartsWith(s, ps[0]) || StartsWithAny(s, ps[1..]))
  }

  lemma {:induction false} StartsWithAnyExists(s: string, ps: seq<string>)
    ensures StartsWithAny(s, ps) <==> exists k :: 0 <= k < |ps| && StartsWith(s, ps[k])
  {
    if |ps| > 0 {
      StartsWithAnyExists(s, ps[1..]);
      if StartsWithAny(s, ps[1..]) {
        var k :| 0 <= k < |ps[1..]| && StartsWith(s, ps[1..][k]);
        assert ps[k + 1] == ps[1..][k];
      }
      if exists k :: 0 <= k < |ps| && StartsWith(s, ps[k]) {
        var k :| 0 <= k < |ps| && StartsWith(s, ps[k]);
        if k > 0 { assert ps[1..][k - 1] == ps[k]; }
      }
    }
  }

  /** `s` starts with none of `ps` when each starts with another character. */
  lemma {:induction false} NoneStarts(s: string, ps: seq<string>)
    requires |s| > 0
    requires forall k :: 0 <= k < |ps| ==> |ps[k]| > 0 && ps[k][0] != s[0]
    ensures !StartsWithAny(s, ps)
  {
    if |ps| > 0 {
      NoneStarts(s, ps[1..]);
    }
  }

  /** `s.split(sep)` for a one-character separator: the pieces between
      separators, at least one, none holding the separator. */
  function Split(s: string, sep: char): (r: seq<string>)
    ensures |r| >= 1
    ensures forall i :: 0 <= i < |r| ==> sep !in r[i]
  {
    if |s| == 0 then [""]
    else
      var rest := Split(s[1..], sep);
      if s[0] == sep then [""] + rest else [[s[0]] + rest[0]] + rest[1..]
  }

  /** A string without the separator splits into itself. */
  lemma {:induction false} SplitNoSep(s: string, sep: char)
    requires sep !in s
    ensures Split(s, sep) == [s]
  {
    if |s| > 0 {
      assert s[1..] == s[..][1..];
      SplitNoSep(s[1..], sep);
      assert [s[0]] + s[1..] == s;
    }
  }

  /** `sep.join(parts)`. */
  function Join(parts: seq<string>, sep: string): string {
    if |parts| == 0 then ""
    else if |parts| == 1 then parts[0]
    else parts[0] + sep + Join(parts[1..], sep)
  }

  /** A join starts with its first part. */
  lemma JoinFirst(parts: seq<string>, sep: string)
    requires |parts| > 0
    ensures Join(parts, sep) == parts[0] + (if |parts| == 1 then "" else sep + Join(parts[1..], sep))
  {
  }

  /** Joining the pieces of a split with the same separator gives back the
      original string. */
  lemma {:induction false} JoinSplit(s: string, sep: char)
    ensures Join(Split(s, sep), [sep]) == s
  {
    if |s| > 0 {
      var rest := Split(s[1..], sep);
      JoinSplit(s[1..], sep);
      if s[0] == sep {
        assert Split(s, sep) == [""] + rest;
        assert Join([""] + rest, [sep]) == "" + [sep] + Join(rest, [sep]);
      } else {
        var parts := [[s[0]] + rest[0]] + rest[1..];
        assert Split(s, sep) == parts;
        if |rest| == 1 {
          assert Join(rest, [sep]) == rest[0];
        } else {
          assert Join(rest, [sep]) == rest[0] + [sep] + Join(rest[1..], [sep]);
          assert parts[1..] == rest[1..];
        }
      }
    }
  }

  /** Python's `s[:n]` for a non-negative `n`: the first `n` characters, or all
      of `s` when it is shorter. */
  function Prefix(s: string, n: nat): (r: string)
    ensures |r| == if n <= |s| then n else |s|
    ensures r == s[..|r|]
  {
    if n <= |s| then s[..n] else s
  }

  /** Python's `s[:n]` for any integer `n`: a negative `n` counts from the end. */
  function SlicePrefix(s: string, n: int): (r: string)
    ensures |r| <= |s| && r == s[..|r|]
    ensures 0 <= n ==> r == Prefix(s, n)
    ensures n < 0 ==> |r| == if |s| + n < 0 then 0 else |s| + n
  {
    if 0 <= n then Prefix(s, n)
    else if |s| + n < 0 then ""
    else s[..|s| + n]
  }

  predicate IsDigit(c: char) {
    '0' <= c <= '9'
  }

  predicate IsLowerAlnum(c: char) {
    'a' <= c <= 'z' || IsDigit(c)
  }

  function DigitChar(d: nat): (c: char)
    requires d < 10
    ensures IsDigit(c) && c as int - '0' as int == d
  {
    ('0' as int + d) as char
  }

  /** `str(n)` for a natural number: its decimal digits, most significant first. */
  function NatToString(n: nat): (r: string)
    ensures |r| >= 1
    ensures forall i :: 0 <= i < |r| ==> IsDigit(r[i])
  {
    if n < 10 then [DigitChar(n)] else NatToString(n / 10) + [DigitChar(n % 10)]
  }

  /** `str(i)` for any integer. */
  function IntToString(i: int): (r: string)
    ensures |r| >= 1
  {
    if i < 0 then "-" + NatToString(-i) else NatToString(i)
  }

  /** The number a string of decimal digits denotes. */
  function DecimalValue(s: string): nat
    requires forall i :: 0 <= i < |s| ==> IsDigit(s[i])
  {
    if |s| == 0 then 0
    else
      assert IsDigit(s[|s| - 1]);
      DecimalValue(s[..|s| - 1]) * 10 + (s[|s| - 1] as int - '0' as int) as nat
  }

  /** Reading back the digits `NatToString` writes gives the number. */
  lemma {:induction false} DecimalRoundTrip(n: nat)
    ensures DecimalValue(NatToString(n)) == n
  {
    if n >= 10 {
      var r := NatToString(n);
      DecimalRoundTrip(n / 10);
      assert r[..|r| - 1] == NatToString(n / 10);
    }
  }

  /** Python's `a < b` on strings: lexicographic order of code points. */
  predicate LexLess(a: string, b: string) {
    if |a| == 0 then |b| > 0
    else if |b| == 0 then false
    else if a[0] != b[0] then a[0] < b[0]
    else LexLess(a[1..], b[1..])
  }

  lemma {:induction false} LexLessAsymmetric(a: string, b: string)
    ensures LexLess(a, b) ==> !LexLess(b, a)
  {
    if |a| > 0 && |b| > 0 && a[0] == b[0] {
      LexLessAsymmetric(a[1..], b[1..]);
    }
  }

  lemma {:induction false} LexLessTransitive(a: string, b: string, c: string)
    ensures LexLess(a, b) && LexLess(b, c) ==> LexLess(a, c)
  {
    if |a| > 0 && |b| > 0 && |c| > 0 && a[0] == b[0] && b[0] == c[0] {
      LexLessTransitive(a[1..], b[1..], c[1..]);
    }
  }

  lemma {:induction false} LexLessTotal(a: string, b: string)
    ensures a == b || LexLess(a, b) || LexLess(b, a)
  {
    if |a| > 0 && |b| > 0 && a[0] == b[0] {
      LexLessTotal(a[1..], b[1..]);
      if a[1..] == b[1..] {
        assert a == [a[0]] + a[1..] && b == [b[0]] + b[1..];
      }
    }
  }
}
