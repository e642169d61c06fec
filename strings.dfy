/**
 * Text helpers shared by the hymn parser, the slide segmenter and the script
 * helpers. Strings are sequences of Unicode scalar values; case mapping and
 * whitespace are restricted to ASCII, and each source language's notion of
 * whitespace is kept apart (JavaScript's `trim`/`\s` and Python's
 * `strip`/`\s` disagree on U+001C..U+001F).
 */
module Strings {
  import opened Wrappers

  /** JavaScript `trim()` and `\s`, ASCII part: tab, LF, VT, FF, CR and space. */
  predicate IsJsSpace(c: char) {
    c == ' ' || '\t' <= c <= '\r'
  }

  /** Python `str.isspace()`, `str.strip()` and `re`'s `\s`, ASCII part: the
      JavaScript set plus the information separators U+001C..U+001F. */
  predicate IsPySpace(c: char) {
    IsJsSpace(c) || '\U{1C}' <= c <= '\U{1F}'
  }

  /** The characters that JavaScript's regular-expression `.` does not match. */
  predicate IsLineTerminator(c: char) {
    c == '\n' || c == '\r' || c == '\U{2028}' || c == '\U{2029}'
  }

  /** `\d` of JavaScript, and of Python restricted to ASCII. */
  predicate IsDigit(c: char) {
    '0' <= c <= '9'
  }

  function LowerChar(c: char): char {
    if 'A' <= c <= 'Z' then (c as int + 32) as char else c
  }

  /** `toLowerCase()` / `lower()` on ASCII letters; every other character is kept. */
  function Lower(s: string): (r: string)
    ensures |r| == |s|
    ensures forall i :: 0 <= i < |s| ==> r[i] == LowerChar(s[i])
  {
    seq(|s|, i requires 0 <= i < |s| => LowerChar(s[i]))
  }

  predicate StartsWith(s: string, prefix: string) {
    |prefix| <= |s| && s[..|prefix|] == prefix
  }

  /** Two prefixes that begin differently cannot both start the same string. */
  lemma StartsWithExclusive(s: string, p: string, q: string)
    requires StartsWith(s, p) && p != [] && q != [] && p[0] != q[0]
    ensures !StartsWith(s, q)
  {
    assert s[0] == s[..|p|][0];
    assert |q| <= |s| ==> s[..|q|][0] == s[0];
  }

  predicate EndsWith(s: string, suffix: string) {
    |suffix| <= |s| && s[|s| - |suffix|..] == suffix
  }

  /** Drops the longest prefix of characters satisfying `ws`. */
  function TrimStart(s: string, ws: char -> bool): (r: string)
    ensures |r| <= |s| && r == s[|s| - |r|..]
    ensures r == [] || !ws(r[0])
    ensures forall i :: 0 <= i < |s| - |r| ==> ws(s[i])
    ensures |s| > 0 && ws(s[0]) ==> |r| < |s|
  {
    if |s| > 0 && ws(s[0]) then TrimStart(s[1..], ws) else s
  }

  /** Drops the longest suffix of characters satisfying `ws`. */
  function TrimEnd(s: string, ws: char -> bool): (r: string)
    ensures |r| <= |s| && r == s[..|r|]
    ensures r == [] || !ws(r[|r| - 1])
    ensures forall i :: |r| <= i < |s| ==> ws(s[i])
  {
    if |s| > 0 && ws(s[|s| - 1]) then TrimEnd(s[..|s| - 1], ws) else s
  }

  function Trim(s: string, ws: char -> bool): string {
    TrimEnd(TrimStart(s, ws), ws)
  }

  /** JavaScript `String.prototype.trim`. */
  function JsTrim(s: string): string {
    Trim(s, IsJsSpace)
  }

  /** The end of the run of Python whitespace that starts at `i`. */
  function SpaceRunEnd(s: string, i: nat): (j: nat)
    requires i <= |s|
    ensures i <= j <= |s|
    ensures forall k :: i <= k < j ==> IsPySpace(s[k])
    ensures j == |s| || !IsPySpace(s[j])
    decreases |s| - i
  {
    if i < |s| && IsPySpace(s[i]) then SpaceRunEnd(s, i + 1) else i
  }

  /** The start of the run of Python whitespace that ends at `j`. */
  function SpaceRunStart(s: string, j: nat): (i: nat)
    requires j <= |s|
    ensures i <= j
    ensures forall k :: i <= k < j ==> IsPySpace(s[k])
    ensures i == 0 || !IsPySpace(s[i - 1])
  {
    if j > 0 && IsPySpace(s[j - 1]) then SpaceRunStart(s, j - 1) else j
  }

  /** Python `str.lstrip()` and `str.rstrip()` without arguments. */
  function PyLStrip(s: string): string {
    s[SpaceRunEnd(s, 0)..]
  }

  function PyRStrip(s: string): string {
    s[..SpaceRunStart(s, |s|)]
  }

  /** Python `str.strip()` without arguments. */
  function PyStrip(s: string): string {
    PyRStrip(PyLStrip(s))
  }

  /** A stripped string neither starts nor ends with whitespace, and is a
      slice of the original. */
  lemma PyStripIsStripped(s: string)
    ensures var t := PyStrip(s); t == [] || (!IsPySpace(t[0]) && !IsPySpace(t[|t| - 1]))
    ensures var i := SpaceRunEnd(s, 0); i + |PyStrip(s)| <= |s| && PyStrip(s) == s[i..i + |PyStrip(s)|]
  {
    var i := SpaceRunEnd(s, 0);
    var a := s[i..];
    var t := a[..SpaceRunStart(a, |a|)];
    if t != [] {
      assert t[0] == a[0];
    }
    assert t == s[i..i + |t|];
  }

  /** A string that neither starts nor ends with whitespace is its own
      strip. */
  lemma PyStripFixed(t: string)
    requires t == [] || (!IsPySpace(t[0]) && !IsPySpace(t[|t| - 1]))
    ensures PyStrip(t) == t
  {
    assert SpaceRunEnd(t, 0) == 0;
    assert t[0..] == t;
    assert SpaceRunStart(t, |t|) == |t|;
  }

  /** A trimmed string neither starts nor ends with a character of `ws`, and
      trimming it again changes nothing. */
  lemma {:induction false} TrimIsTrimmed(s: string, ws: char -> bool)
    ensures var t := Trim(s, ws); t == [] || (!ws(t[0]) && !ws(t[|t| - 1]))
    ensures Trim(Trim(s, ws), ws) == Trim(s, ws)
  {
    var a := TrimStart(s, ws);
    var t := TrimEnd(a, ws);
    if t != [] {
      assert t[0] == a[0];
    }
    TrimmedFixed(t, ws);
  }

  /** A string that neither starts nor ends with `ws` is its own trim. */
  lemma TrimmedFixed(t: string, ws: char -> bool)
    requires t == [] || (!ws(t[0]) && !ws(t[|t| - 1]))
    ensures Trim(t, ws) == t
  {
  }

  /** Keeps the characters satisfying `keep`, in order. */
  function Filter(s: string, keep: char -> bool): (r: string)
    ensures |r| <= |s|
    ensures forall i :: 0 <= i < |r| ==> keep(r[i])
    ensures (exists i :: 0 <= i < |s| && keep(s[i])) <==> r != []
  {
    if s == [] then []
    else if keep(s[0]) then [s[0]] + Filter(s[1..], keep)
    else
      assert forall i :: 1 <= i < |s| ==> s[i] == s[1..][i - 1];
      Filter(s[1..], keep)
  }

  lemma {:induction false} FilterAppend(a: string, b: string, keep: char -> bool)
    ensures Filter(a + b, keep) == Filter(a, keep) + Filter(b, keep)
  {
    if a != [] {
      assert (a + b)[0] == a[0] && (a + b)[1..] == a[1..] + b;
      FilterAppend(a[1..], b, keep);
    } else {
      assert a + b == b;
    }
  }

  /** The decimal digit a character stands for. */
  function DigitValue(c: char): nat
    requires IsDigit(c)
  {
    c as int - '0' as int
  }

  function DigitChar(d: nat): (c: char)
    requires d < 10
    ensures IsDigit(c) && DigitValue(c) == d
  {
    ('0' as int + d) as char
  }

  predicate AllDigits(s: string) {
    forall i :: 0 <= i < |s| ==> IsDigit(s[i])
  }

  /** The number a string of decimal digits denotes (`Number(digits)`,
      leading zeros allowed). */
  function DecimalValue(s: string): nat
    requires AllDigits(s)
  {
    if s == [] then 0 else DecimalValue(s[..|s| - 1]) * 10 + DigitValue(s[|s| - 1])
  }

  /** `String(n)` / `str(n)` / template interpolation of a natural number. */
  function NatToString(n: nat): (r: string)
    ensures r != [] && AllDigits(r)
    ensures |r| > 1 ==> r[0] != '0'
  {
    if n < 10 then [DigitChar(n)] else NatToString(n / 10) + [DigitChar(n % 10)]
  }

  /** Printing a number and reading it back gives the number. */
  lemma {:induction false} NatToStringRoundTrip(n: nat)
    ensures DecimalValue(NatToString(n)) == n
  {
    if n >= 10 {
      var s := NatToString(n);
      assert s[..|s| - 1] == NatToString(n / 10);
      NatToStringRoundTrip(n / 10);
    }
  }

  /** Distinct numbers print differently. */
  lemma NatToStringInjective(m: nat, n: nat)
    requires NatToString(m) == NatToString(n)
    ensures m == n
  {
    NatToStringRoundTrip(m);
    NatToStringRoundTrip(n);
  }

  /** The longest prefix of digits. */
  function DigitPrefix(s: string): (r: string)
    ensures |r| <= |s| && r == s[..|r|] && AllDigits(r)
    ensures |r| == |s| || !IsDigit(s[|r|])
  {
    if s != [] && IsDigit(s[0]) then [s[0]] + DigitPrefix(s[1..]) else []
  }

  /** The index of the first character satisfying `p`, if any. */
  function FirstIndexOf(s: string, p: char -> bool): (r: Option<nat>)
    ensures r.Some? ==> r.value < |s| && p(s[r.value])
    ensures r.Some? ==> forall j :: 0 <= j < r.value ==> !p(s[j])
    ensures r.None? ==> forall j :: 0 <= j < |s| ==> !p(s[j])
  {
    if s == [] then None
    else if p(s[0]) then Some(0)
    else match FirstIndexOf(s[1..], p)
      case None => None
      case Some(i) => Some(i + 1)
  }

  /** `run` is the maximal digit run starting at `i`, and no digit occurs before `i`. */
  predicate IsFirstDigitRunAt(s: string, i: nat, run: string) {
    && i + |run| <= |s|
    && run != [] && AllDigits(run)
    && s[i..i + |run|] == run
    && (forall j :: 0 <= j < i ==> !IsDigit(s[j]))
    && (i + |run| == |s| || !IsDigit(s[i + |run|]))
  }

  /** The first run of decimal digits, as `s.match(/(\d+)/)[1]`. */
  function FirstDigitRun(s: string): (r: Option<string>)
    ensures r.None? <==> forall i :: 0 <= i < |s| ==> !IsDigit(s[i])
    ensures r.Some? ==> exists i :: IsFirstDigitRunAt(s, i, r.value)
  {
    match FirstIndexOf(s, IsDigit)
    case None => None
    case Some(i) =>
      var run := DigitPrefix(s[i..]);
      assert s[i] == s[i..][0];
      assert IsFirstDigitRunAt(s, i, run);
      Some(run)
  }

  /** `replace(/\s+/g, " ")`: every maximal run of whitespace becomes one space. */
  function CollapseSpaces(s: string): (r: string)
    ensures s != [] ==> r != []
    decreases |s|
  {
    if s == [] then []
    else if IsJsSpace(s[0]) then " " + CollapseSpaces(TrimStart(s, IsJsSpace))
    else [s[0]] + CollapseSpaces(s[1..])
  }

  /** No character of `p` is whitespace. */
  predicate Spaceless(p: string) {
    forall i :: 0 <= i < |p| ==> !IsJsSpace(p[i])
  }

  /** Every character is already lower-case. */
  predicate IsLowered(s: string) {
    forall i :: 0 <= i < |s| ==> LowerChar(s[i]) == s[i]
  }

  /** A non-empty prefix is its first character followed by the rest. */
  lemma StartsWithCons(s: string, p: string)
    requires p != []
    ensures StartsWith(s, p) <==> s != [] && s[0] == p[0] && StartsWith(s[1..], p[1..])
  {
    if s != [] && |p| <= |s| {
      assert s[..|p|] == [s[0]] + s[1..][..|p| - 1];
      assert p == [p[0]] + p[1..];
    }
  }

  /** Collapsing whitespace runs keeps every prefix without whitespace:
      such a prefix starts the collapsed text exactly when it starts the
      original. */
  lemma {:induction false} CollapseStartsWith(x: string, p: string)
    requires Spaceless(p)
    ensures StartsWith(CollapseSpaces(x), p) <==> StartsWith(x, p)
    decreases |p|
  {
    if p != [] {
      var c := CollapseSpaces(x);
      StartsWithCons(c, p);
      StartsWithCons(x, p);
      if x != [] {
        if IsJsSpace(x[0]) {
          assert c[0] == ' ';
          assert !IsJsSpace(p[0]);
        } else {
          assert c == [x[0]] + CollapseSpaces(x[1..]);
          assert c[1..] == CollapseSpaces(x[1..]);
          CollapseStartsWith(x[1..], p[1..]);
        }
      }
    }
  }

  /** Collapsing whitespace in lower-case text leaves it lower-case. */
  lemma {:induction false} CollapseLowered(y: string)
    requires IsLowered(y)
    ensures IsLowered(CollapseSpaces(y))
    decreases |y|
  {
    if y != [] {
      if IsJsSpace(y[0]) {
        var t := TrimStart(y, IsJsSpace);
        assert forall i :: 0 <= i < |t| ==> t[i] == y[|y| - |t| + i];
        CollapseLowered(t);
        assert CollapseSpaces(y) == " " + CollapseSpaces(t);
      } else {
        var t := y[1..];
        assert forall i :: 0 <= i < |t| ==> t[i] == y[i + 1];
        CollapseLowered(t);
        assert CollapseSpaces(y) == [y[0]] + CollapseSpaces(t);
      }
    }
  }

  /** Cutting off trailing whitespace keeps a whitespace-free prefix. */
  lemma PrefixBeforeSpaces(u: string, n: nat, p: string)
    requires n <= |u| && forall i :: n <= i < |u| ==> IsJsSpace(u[i])
    requires p != [] && Spaceless(p)
    ensures StartsWith(u[..n], p) <==> StartsWith(u, p)
  {
    if |p| <= n {
      assert u[..n][..|p|] == u[..|p|];
    } else if |p| <= |u| {
      assert u[..|p|][n] == u[n] && IsJsSpace(u[n]);
    }
  }

  /** Lower-casing a prefix is taking the prefix of the lower-cased text. */
  lemma LowerPrefix(b: string, n: nat)
    requires n <= |b|
    ensures Lower(b[..n]) == Lower(b)[..n]
  {
  }

  /** Lower-casing keeps whitespace. */
  lemma LowerKeepsSpaces(b: string, n: nat)
    requires forall i :: n <= i < |b| ==> IsJsSpace(b[i])
    ensures forall i :: n <= i < |b| ==> IsJsSpace(Lower(b)[i])
  {
  }
}
