/**
 * The pieces of Python's `str` behaviour that the runner relies on:
 * `strip`, `split(sep)`, `sep.join`, `lower`/`upper`, `replace`,
 * `startswith`, `str(int)`, `int(str)`, `float(str)` on the decimal
 * captures of the extraction patterns, and the code-point ordering
 * that `sorted` uses on strings.
 */
module Text {
  import opened Wrappers

  /**
   * `str.isspace()`: the characters Python's `strip()` removes. The
   * non-ASCII ones are listed as inclusive code-point ranges.
   */
  predicate IsSpace(c: char) {
    var n := c as int;
    0x09 <= n <= 0x0d || 0x1c <= n <= 0x20 ||
    (n >= 0x85 && InRanges(n, [(0x85, 0x85), (0xa0, 0xa0), (0x1680, 0x1680), (0x2000, 0x200a),
                               (0x2028, 0x2029), (0x202f, 0x202f), (0x205f, 0x205f), (0x3000, 0x3000)]))
  }

  /** `n` lies in one of the inclusive ranges. */
  predicate InRanges(n: int, ranges: seq<(int, int)>) {
    |ranges| > 0 && (ranges[0].0 <= n <= ranges[0].1 || InRanges(n, ranges[1..]))
  }

  predicate IsDigit(c: char) { '0' <= c <= '9' }

  predicate AllDigits(s: string) { forall i :: 0 <= i < |s| ==> IsDigit(s[i]) }

  /** No whitespace at either end: what `strip` leaves behind. */
  predicate Stripped(s: string) {
    s == [] || (!IsSpace(s[0]) && !IsSpace(s[|s| - 1]))
  }

  /** The index of the first non-whitespace character at or after `i`, or `|s|`. */
  function SkipSpaces(s: string, i: nat): (r: nat)
    requires i <= |s|
    ensures i <= r <= |s|
    ensures forall k :: i <= k < r ==> IsSpace(s[k])
    ensures r < |s| ==> !IsSpace(s[r])
    decreases |s| - i
  {
    if i < |s| && IsSpace(s[i]) then SkipSpaces(s, i + 1) else i
  }

  /** The end of `s[lo..hi]` once its trailing whitespace is dropped. */
  function SkipSpacesBack(s: string, lo: nat, hi: nat): (r: nat)
    requires lo <= hi <= |s|
    ensures lo <= r <= hi
    ensures forall k :: r <= k < hi ==> IsSpace(s[k])
    ensures r > lo ==> !IsSpace(s[r - 1])
    decreases hi
  {
    if lo < hi && IsSpace(s[hi - 1]) then SkipSpacesBack(s, lo, hi - 1) else hi
  }

  /** `str.strip()`: whitespace removed from both ends. */
  function Strip(s: string): (r: string)
    ensures Stripped(r)
  {
    var a := SkipSpaces(s, 0);
    var b := SkipSpacesBack(s, a, |s|);
    s[a..b]
  }

  /** `strip` only removes characters. */
  lemma StripChars(s: string, c: char)
    requires c in Strip(s)
    ensures c in s
  {
    var a := SkipSpaces(s, 0);
    var b := SkipSpacesBack(s, a, |s|);
    var i :| 0 <= i < b - a && s[a..b][i] == c;
    assert s[a + i] == c;
  }

  /** `strip` adds no character the string did not have. */
  lemma StripNoChar(s: string, c: char)
    requires c !in s
    ensures c !in Strip(s)
  {
    var a := SkipSpaces(s, 0);
    var b := SkipSpacesBack(s, a, |s|);
    forall k | 0 <= k < b - a ensures s[a..b][k] != c {
      assert s[a..b][k] == s[a + k];
    }
  }

  /** A string without whitespace at its ends is left as it is. */
  lemma StripStripped(s: string)
    requires Stripped(s)
    ensures Strip(s) == s
  {
    if s != [] {
      assert SkipSpaces(s, 0) == 0;
      assert SkipSpacesBack(s, 0, |s|) == |s|;
      assert s[0..|s|] == s;
    }
  }

  /** Leading whitespace does not matter to `strip`. */
  lemma StripSpaceCons(c: char, s: string)
    requires IsSpace(c)
    ensures Strip([c] + s) == Strip(s)
  {
    SkipSpacesShift(c, s, 0);
    var a := SkipSpaces(s, 0);
    SkipSpacesBackShift(c, s, a, |s|);
    SliceShift(c, s, a, SkipSpacesBack(s, a, |s|));
  }

  lemma SliceShift(c: char, s: string, i: nat, j: nat)
    requires i <= j <= |s|
    ensures ([c] + s)[i + 1..j + 1] == s[i..j]
  {
    assert ([c] + s)[1..] == s;
  }

  lemma {:induction false} SkipSpacesShift(c: char, s: string, i: nat)
    requires i <= |s|
    ensures SkipSpaces([c] + s, i + 1) == SkipSpaces(s, i) + 1
    ensures IsSpace(c) && i == 0 ==> SkipSpaces([c] + s, 0) == SkipSpaces(s, 0) + 1
    decreases |s| - i
  {
    var t := [c] + s;
    assert t[i + 1..] == s[i..];
    if i < |s| && IsSpace(s[i]) {
      SkipSpacesShift(c, s, i + 1);
    }
  }

  lemma {:induction false} SkipSpacesBackShift(c: char, s: string, lo: nat, hi: nat)
    requires lo <= hi <= |s|
    ensures SkipSpacesBack([c] + s, lo + 1, hi + 1) == SkipSpacesBack(s, lo, hi) + 1
    decreases hi
  {
    var t := [c] + s;
    if lo < hi {
      assert t[hi] == s[hi - 1];
      if IsSpace(s[hi - 1]) {
        SkipSpacesBackShift(c, s, lo, hi - 1);
      }
    }
  }

  /** The index of the first `c` in `s`, or `|s|` when there is none. */
  function IndexOf(s: string, c: char): (i: nat)
    ensures i <= |s|
    ensures c !in s[..i]
    ensures i < |s| ==> s[i] == c
  {
    if s == [] then 0
    else if s[0] == c then 0
    else
      var j := IndexOf(s[1..], c);
      assert s[..j + 1] == [s[0]] + s[1..][..j];
      j + 1
  }

  /** `sep.join(parts)`. */
  function Join(parts: seq<string>, sep: char): string
  {
    if |parts| == 0 then ""
    else if |parts| == 1 then parts[0]
    else parts[0] + [sep] + Join(parts[1..], sep)
  }

  /** `s.split(sep)` for a one-character separator: never empty, and joining gives `s` back. */
  function Split(s: string, sep: char): (r: seq<string>)
    ensures |r| >= 1
    ensures forall i :: 0 <= i < |r| ==> sep !in r[i]
    ensures Join(r, sep) == s
    decreases |s|
  {
    var i := IndexOf(s, sep);
    if i == |s| then
      assert s[..i] == s;
      [s]
    else
      var rest := Split(s[i + 1..], sep);
      var r := [s[..i]] + rest;
      assert r[1..] == rest;
      assert s == s[..i] + [sep] + s[i + 1..];
      r
  }

  /** Splitting a join of separator-free parts gives the parts back. */
  lemma {:induction false} SplitJoin(parts: seq<string>, sep: char)
    requires |parts| >= 1
    requires forall i :: 0 <= i < |parts| ==> sep !in parts[i]
    ensures Split(Join(parts, sep), sep) == parts
    decreases |parts|
  {
    var s := Join(parts, sep);
    if |parts| == 1 {
      assert IndexOf(s, sep) == |s|;
    } else {
      var rest := Join(parts[1..], sep);
      assert s == parts[0] + [sep] + rest;
      var i := IndexOf(s, sep);
      assert s[|parts[0]|] == sep;
      assert s[..|parts[0]|] == parts[0];
      assert i == |parts[0]|;
      assert s[i + 1..] == rest;
      SplitJoin(parts[1..], sep);
    }
  }

  /** A string with no separator splits into itself. */
  lemma SplitNoSep(s: string, sep: char)
    requires sep !in s
    ensures Split(s, sep) == [s]
  {
    SplitJoin([s], sep);
  }

  /** Splitting `a + sep + b`, where `a` has no separator. */
  lemma SplitCons(a: string, b: string, sep: char)
    requires sep !in a
    ensures Split(a + [sep] + b, sep) == [a] + Split(b, sep)
  {
    var bs := Split(b, sep);
    SplitJoin([a] + bs, sep);
    assert ([a] + bs)[1..] == bs;
  }

  function LowerChar(c: char): char {
    if 'A' <= c <= 'Z' then (c as int + 32) as char else c
  }

  function UpperChar(c: char): char {
    if 'a' <= c <= 'z' then (c as int - 32) as char else c
  }

  /** `str.lower()` on ASCII letters. */
  function Lower(s: string): (r: string)
    ensures |r| == |s|
  {
    seq(|s|, i requires 0 <= i < |s| => LowerChar(s[i]))
  }

  /** `str.upper()` on ASCII letters. */
  function Upper(s: string): (r: string)
    ensures |r| == |s|
  {
    seq(|s|, i requires 0 <= i < |s| => UpperChar(s[i]))
  }

  predicate StartsWith(s: string, prefix: string) {
    |prefix| <= |s| && s[..|prefix|] == prefix
  }

  /** `s.replace(pat, v)`: every non-overlapping occurrence, left to right. */
  function Replace(s: string, pat: string, v: string): string
    decreases |s|
  {
    if |pat| == 0 then
      (if s == [] then v else v + [s[0]] + Replace(s[1..], pat, v))
    else if |s| < |pat| then s
    else if s[..|pat|] == pat then v + Replace(s[|pat|..], pat, v)
    else [s[0]] + Replace(s[1..], pat, v)
  }

  /** Text that cannot start an occurrence passes through `replace` untouched. */
  lemma {:induction false} ReplaceSkip(a: string, b: string, pat: string, v: string)
    requires |pat| > 0 && pat[0] !in a
    ensures Replace(a + b, pat, v) == a + Replace(b, pat, v)
    decreases |a|, 1
  {
    if a == [] {
      assert a + b == b;
    } else if |a + b| < |pat| {
      ReplaceShort(a + b, pat, v);
      ReplaceShort(b, pat, v);
    } else {
      ReplaceSkipLong(a, b, pat, v);
    }
  }

  lemma {:induction false} ReplaceSkipLong(a: string, b: string, pat: string, v: string)
    requires |pat| > 0 && pat[0] !in a && a != [] && |a + b| >= |pat|
    ensures Replace(a + b, pat, v) == a + Replace(b, pat, v)
    decreases |a|, 0
  {
    var r := Replace(b, pat, v);
    calc {
      Replace(a + b, pat, v);
      { assert (a + b)[0] == a[0] && (a + b)[1..] == a[1..] + b;
        ReplaceNoMatch(a + b, pat, v); }
      [a[0]] + Replace(a[1..] + b, pat, v);
      { ReplaceSkip(a[1..], b, pat, v); }
      [a[0]] + (a[1..] + r);
      { assert [a[0]] + (a[1..] + r) == ([a[0]] + a[1..]) + r; }
      ([a[0]] + a[1..]) + r;
      { assert [a[0]] + a[1..] == a; }
      a + r;
    }
  }

  /** A string that does not start with the pattern keeps its first character. */
  lemma ReplaceNoMatch(s: string, pat: string, v: string)
    requires 0 < |pat| <= |s| && s[0] != pat[0]
    ensures Replace(s, pat, v) == [s[0]] + Replace(s[1..], pat, v)
  {
    assert s[..|pat|][0] == s[0];
    ReplaceNotHere(s, pat, v);
  }

  lemma ReplaceNotHere(s: string, pat: string, v: string)
    requires 0 < |pat| <= |s| && s[..|pat|] != pat
    ensures Replace(s, pat, v) == [s[0]] + Replace(s[1..], pat, v)
  {
  }

  lemma ReplaceShort(s: string, pat: string, v: string)
    requires 0 < |pat| && |s| < |pat|
    ensures Replace(s, pat, v) == s
  {
  }

  function DigitChar(d: nat): (c: char)
    requires d < 10
    ensures IsDigit(c)
  {
    ('0' as int + d) as char
  }

  /** `str(n)` for a natural number. */
  function NatToString(n: nat): (r: string)
    ensures |r| >= 1 && AllDigits(r)
  {
    if n < 10 then [DigitChar(n)] else NatToString(n / 10) + [DigitChar(n % 10)]
  }

  /** `str(i)`. */
  function IntToString(i: int): string {
    if i < 0 then "-" + NatToString(-i) else NatToString(i)
  }

  /** The number a run of decimal digits denotes. */
  function DigitsValue(s: string): int
  {
    if s == [] then 0 else DigitsValue(s[..|s| - 1]) * 10 + (s[|s| - 1] as int - '0' as int)
  }

  lemma {:induction false} DigitsValueOfNatToString(n: nat)
    ensures DigitsValue(NatToString(n)) == n
  {
    if n >= 10 {
      var s := NatToString(n / 10) + [DigitChar(n % 10)];
      assert s[..|s| - 1] == NatToString(n / 10);
      DigitsValueOfNatToString(n / 10);
    }
  }

  /** Python's `int(s)`: surrounding whitespace, an optional sign, then at least one digit. */
  function ParseInt(s: string): Option<int> {
    ParseSigned(Strip(s))
  }

  /** `int` on a string already stripped of whitespace. */
  function ParseSigned(t: string): Option<int> {
    if |t| > 0 && (t[0] == '-' || t[0] == '+') then
      if |t| > 1 && AllDigits(t[1..]) then
        Some(if t[0] == '-' then 0 - DigitsValue(t[1..]) else DigitsValue(t[1..]))
      else None
    else if |t| > 0 && AllDigits(t) then Some(DigitsValue(t))
    else None
  }

  /** `int(str(i)) == i`. */
  lemma ParseIntOfIntToString(i: int)
    ensures ParseInt(IntToString(i)) == Some(i)
  {
    var n: nat := if i < 0 then -i else i;
    var d := NatToString(n);
    DigitsValueOfNatToString(n);
    if i < 0 {
      ParseIntNegative(d);
    } else {
      ParseIntDigits(d);
    }
  }

  lemma ParseIntDigits(d: string)
    requires |d| > 0 && AllDigits(d)
    ensures ParseInt(d) == Some(DigitsValue(d))
  {
    assert IsDigit(d[0]) && IsDigit(d[|d| - 1]);
    StripStripped(d);
  }

  lemma ParseIntNegative(d: string)
    requires |d| > 0 && AllDigits(d)
    ensures ParseInt(['-'] + d) == Some(0 - DigitsValue(d))
  {
    StripSigned(d);
    NegativeSigned(d);
  }

  lemma NegativeSigned(d: string)
    requires |d| > 0 && AllDigits(d)
    ensures ParseSigned(['-'] + d) == Some(0 - DigitsValue(d))
  {
    var t := ['-'] + d;
    assert t[1..] == d;
  }

  lemma StripSigned(d: string)
    requires |d| > 0 && AllDigits(d)
    ensures Strip(['-'] + d) == ['-'] + d
  {
    var s := ['-'] + d;
    assert s[|s| - 1] == d[|d| - 1];
    StripStripped(s);
  }

  function Pow10(n: nat): (p: nat)
    ensures p >= 1
  {
    if n == 0 then 1 else 10 * Pow10(n - 1)
  }

  /**
   * `float(s)` on a string of digits and dots, the only strings the
   * extraction patterns capture: digits with at most one '.', and at
   * least one digit; anything else (".", "1.2.3") is rejected, as
   * Python raises ValueError for it.
   */
  function ParseDecimal(s: string): Option<real> {
    var i := IndexOf(s, '.');
    if i == |s| then
      if |s| > 0 && AllDigits(s) then Some(DigitsValue(s) as real) else None
    else
      var ip, fp := s[..i], s[i + 1..];
      if AllDigits(ip) && AllDigits(fp) && |ip| + |fp| > 0 then
        Some(DigitsValue(ip) as real + DigitsValue(fp) as real / Pow10(|fp|) as real)
      else None
  }

  /** A run of digits always parses, to its integer value. */
  lemma ParseDecimalOfDigits(s: string)
    requires |s| > 0 && AllDigits(s)
    ensures ParseDecimal(s) == Some(DigitsValue(s) as real)
  {
    assert '.' !in s;
    assert IndexOf(s, '.') == |s|;
  }

  /** Python's `<` on strings: code-point lexicographic order. */
  predicate LexLess(a: string, b: string)
    decreases |a|
  {
    |b| > 0 && (|a| == 0 || a[0] < b[0] || (a[0] == b[0] && LexLess(a[1..], b[1..])))
  }

  lemma {:induction false} LexIrreflexive(a: string)
    ensures !LexLess(a, a)
    decreases |a|
  {
    if |a| > 0 { LexIrreflexive(a[1..]); }
  }

  lemma {:induction false} LexTransitive(a: string, b: string, c: string)
    requires LexLess(a, b) && LexLess(b, c)
    ensures LexLess(a, c)
    decreases |a|
  {
    if |a| > 0 && a[0] == b[0] && b[0] == c[0] {
      LexTransitive(a[1..], b[1..], c[1..]);
    }
  }

  lemma {:induction false} LexTotal(a: string, b: string)
    ensures a == b || LexLess(a, b) || LexLess(b, a)
    decreases |a|
  {
    if |a| > 0 && |b| > 0 && a[0] == b[0] {
      LexTotal(a[1..], b[1..]);
      if a[1..] == b[1..] {
        assert a == [a[0]] + a[1..] && b == [b[0]] + b[1..];
      }
    }
  }

  lemma LexAsymmetric(a: string, b: string)
    requires LexLess(a, b)
    ensures !LexLess(b, a)
  {
    if LexLess(b, a) {
      LexTransitive(a, b, a);
      LexIrreflexive(a);
    }
  }
}
