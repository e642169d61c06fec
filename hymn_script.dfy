/**
 * The text helpers of the hymn conversion script (scripts/process_hymns.py):
 * recognising Chinese text, cleaning titles, telling plain headings apart,
 * collapsing a stanza to a bounded number of lines, splitting a language
 * block into sections, writing section headings and classifying them again.
 * Python's `\s`, `strip()` and `isdigit()` are taken on their ASCII part.
 */
module HymnScript {
  import opened Wrappers
  import opened Strings

  // ---------------------------------------------------------------------
  // has_cjk, _is_plain_heading, clean_title
  // ---------------------------------------------------------------------

  /** A character of the CJK Unified Ideographs block, U+4E00..U+9FFF. */
  predicate IsCjk(c: char) {
    '\U{4E00}' <= c <= '\U{9FFF}'
  }

  /** `has_cjk`: some character is a CJK ideograph. */
  function HasCjk(text: string): (r: bool)
    ensures r <==> exists i :: 0 <= i < |text| && IsCjk(text[i])
  {
    FirstIndexOf(text, IsCjk).Some?
  }

  /** `PUNCTUATION_CHARS`: ASCII , . ; ! ? " ' ` and the full-width and CJK
      marks U+FF0C U+3002 U+FF01 U+FF1F U+FF1A U+FF1B U+3001, the ellipsis
      U+2026 and the curly double quotes U+201C U+201D. */
  const PunctuationChars: set<char> := {
    ',', '.', ';', '!', '?', '"', '\'', '`',
    '\U{FF0C}', '\U{3002}', '\U{FF01}', '\U{FF1F}', '\U{FF1A}', '\U{FF1B}', '\U{3001}',
    '\U{2026}', '\U{201C}', '\U{201D}'
  }

  predicate IsPunctuation(c: char) {
    c in PunctuationChars
  }

  /** `_is_plain_heading`: the empty text is plain; a digit or a punctuation
      character anywhere makes it not plain; otherwise it is plain. */
  function IsPlainHeading(text: string): (r: bool)
    ensures text == [] ==> r
    ensures (exists i :: 0 <= i < |text| && IsDigit(text[i])) ==> !r
    ensures (exists i :: 0 <= i < |text| && IsPunctuation(text[i])) ==> !r
    ensures r <==> forall i :: 0 <= i < |text| ==> !IsDigit(text[i]) && !IsPunctuation(text[i])
  {
    if text == [] then true
    else if FirstIndexOf(text, IsDigit).Some? then false
    else FirstIndexOf(text, IsPunctuation).None?
  }

  /** `\s+\d.*$` matches `s` from position `i`: a whitespace run starts at
      `i` and ends at a digit, and no newline (the one character `.` refuses)
      follows that digit. */
  predicate CutsAt(s: string, i: nat) {
    && i < |s| && IsPySpace(s[i])
    && var j := SpaceRunEnd(s, i);
       && j < |s| && IsDigit(s[j])
       && forall k :: j < k < |s| ==> s[k] != '\n'
  }

  /** Where `re.sub` finds its leftmost match, searching from `from`. */
  function FirstCut(s: string, from: nat): (r: Option<nat>)
    requires from <= |s|
    ensures r.Some? ==> from <= r.value < |s| && CutsAt(s, r.value)
    ensures r.Some? ==> forall k :: from <= k < r.value ==> !CutsAt(s, k)
    ensures r.None? ==> forall k :: from <= k < |s| ==> !CutsAt(s, k)
    decreases |s| - from
  {
    if from == |s| then None
    else if CutsAt(s, from) then Some(from)
    else FirstCut(s, from + 1)
  }

  /** A match never starts just after whitespace: the run it starts would
      have matched one character earlier. */
  lemma CutAfterSpace(s: string, i: nat)
    requires 0 < i && CutsAt(s, i) && IsPySpace(s[i - 1])
    ensures CutsAt(s, i - 1)
  {
    assert SpaceRunEnd(s, i - 1) == SpaceRunEnd(s, i);
  }

  /** `clean_title`: strip, drop everything from the first whitespace run that
      is followed by a digit (when the rest of the line holds no newline),
      strip again. The second strip never has anything left to remove. */
  function CleanTitle(raw: string): (r: string)
    ensures var s := PyStrip(raw);
      && (FirstCut(s, 0).None? ==> r == s)
      && (FirstCut(s, 0).Some? ==> r == s[..FirstCut(s, 0).value])
  {
    var s := PyStrip(raw);
    match FirstCut(s, 0)
    case None => s
    case Some(i) =>
      PyStripIsStripped(raw);
      assert !IsPySpace(s[i - 1]) by {
        if IsPySpace(s[i - 1]) {
          CutAfterSpace(s, i);
        }
      }
      PyStripFixed(s[..i]);
      PyStrip(s[..i])
  }

  predicate NoNewline(s: string) {
    forall k :: 0 <= k < |s| ==> s[k] != '\n'
  }

  /** No whitespace character is directly followed by a digit. */
  predicate NoSpaceBeforeDigit(s: string) {
    forall k :: 0 <= k < |s| - 1 ==> !(IsPySpace(s[k]) && IsDigit(s[k + 1]))
  }

  lemma StripKeepsNoNewline(raw: string)
    requires NoNewline(raw)
    ensures NoNewline(PyStrip(raw))
  {
    PyStripIsStripped(raw);
    var i := SpaceRunEnd(raw, 0);
    var s := PyStrip(raw);
    assert forall k :: 0 <= k < |s| ==> s[k] == raw[i + k];
  }

  /** On a one-line title (every title the script reads is one line), the
      result holds no whitespace directly followed by a digit. */
  lemma CleanTitleCutsAll(raw: string)
    requires NoNewline(raw)
    ensures NoSpaceBeforeDigit(CleanTitle(raw))
  {
    var s := PyStrip(raw);
    var r := CleanTitle(raw);
    StripKeepsNoNewline(raw);
    forall k | 0 <= k < |r| - 1 && IsPySpace(r[k])
      ensures !IsDigit(r[k + 1])
    {
      assert r[k] == s[k] && r[k + 1] == s[k + 1];
      SpaceBeforeDigitCuts(s, k);
    }
  }

  /** In a one-line text, whitespace directly followed by a digit is where
      a match starts. */
  lemma SpaceBeforeDigitCuts(s: string, k: nat)
    requires NoNewline(s)
    requires k + 1 < |s| && IsPySpace(s[k])
    ensures IsDigit(s[k + 1]) ==> CutsAt(s, k)
  {
    assert SpaceRunEnd(s, k + 1) == k + 1 || IsPySpace(s[k + 1]);
  }

  /** A one-line title without whitespace directly before a digit is only
      stripped. */
  lemma CleanTitleKeeps(raw: string)
    requires NoSpaceBeforeDigit(PyStrip(raw))
    ensures CleanTitle(raw) == PyStrip(raw)
  {
    var s := PyStrip(raw);
    forall k | 0 <= k < |s| && IsPySpace(s[k])
      ensures SpaceRunEnd(s, k) == |s| || !IsDigit(s[SpaceRunEnd(s, k)])
    {
      var j := SpaceRunEnd(s, k);
      assert j > k && IsPySpace(s[j - 1]);
    }
  }

  /** The cleaned title is stripped. */
  lemma CleanTitleStripped(raw: string)
    ensures PyStrip(CleanTitle(raw)) == CleanTitle(raw)
  {
    var s := PyStrip(raw);
    PyStripIsStripped(raw);
    if FirstCut(s, 0).Some? {
      var i := FirstCut(s, 0).value;
      if IsPySpace(s[i - 1]) {
        CutAfterSpace(s, i);
      }
      PyStripFixed(s[..i]);
    }
  }

  /** The cleaned title of a one-line title is one line. */
  lemma CleanTitleNoNewline(raw: string)
    requires NoNewline(raw)
    ensures NoNewline(CleanTitle(raw))
  {
    StripKeepsNoNewline(raw);
  }

  /** `clean_title` of a one-line title is a fixed point: cleaning again
      changes nothing. */
  lemma CleanTitleIdempotent(raw: string)
    requires NoNewline(raw)
    ensures CleanTitle(CleanTitle(raw)) == CleanTitle(raw)
  {
    var r := CleanTitle(raw);
    CleanTitleCutsAll(raw);
    CleanTitleStripped(raw);
    CleanTitleKeeps(r);
  }

  // ---------------------------------------------------------------------
  // collapse_lines
  // ---------------------------------------------------------------------

  /** `[ln.strip() for ln in lines if ln.strip()]`: the stripped non-blank
      lines, in order. */
  function NonBlankStripped(lines: seq<string>): (r: seq<string>)
    ensures |r| <= |lines|
    ensures forall k :: 0 <= k < |r| ==> IsStrippedLine(r[k])
  {
    if lines == [] then []
    else
      var t := StripLine(lines[0]);
      if t == [] then NonBlankStripped(lines[1..])
      else [t] + NonBlankStripped(lines[1..])
  }

  /** Nothing is left exactly when every line is blank. */
  lemma {:induction false} NonBlankStrippedEmpty(lines: seq<string>)
    ensures NonBlankStripped(lines) == [] <==> forall j :: 0 <= j < |lines| ==> PyStrip(lines[j]) == []
  {
    if lines != [] {
      var rest := lines[1..];
      NonBlankStrippedEmpty(rest);
      assert forall j :: 1 <= j < |lines| ==> lines[j] == rest[j - 1];
    }
  }

  /** Every non-blank line survives, stripped. */
  lemma {:induction false} NonBlankStrippedSurvives(lines: seq<string>)
    ensures forall j :: 0 <= j < |lines| && PyStrip(lines[j]) != [] ==> PyStrip(lines[j]) in NonBlankStripped(lines)
  {
    if lines != [] {
      var rest := lines[1..];
      NonBlankStrippedSurvives(rest);
      assert forall j :: 1 <= j < |lines| ==> lines[j] == rest[j - 1];
    }
  }

  /** Every kept line is the stripped form of some input line. */
  lemma {:induction false} NonBlankStrippedOrigin(lines: seq<string>)
    ensures forall k :: 0 <= k < |NonBlankStripped(lines)| ==>
      exists j :: 0 <= j < |lines| && NonBlankStripped(lines)[k] == PyStrip(lines[j])
  {
    if lines != [] {
      var rest := lines[1..];
      NonBlankStrippedOrigin(rest);
      var r := NonBlankStripped(lines);
      var r' := NonBlankStripped(rest);
      assert forall k :: 0 <= k < |r'| ==> exists j :: 0 <= j < |rest| && r'[k] == PyStrip(rest[j]);
      var d := if StripLine(lines[0]) == [] then 0 else 1;
      assert r[d..] == r';
      forall k | 0 <= k < |r|
        ensures exists j :: 0 <= j < |lines| && r[k] == PyStrip(lines[j])
      {
        if k < d {
          assert r[k] == PyStrip(lines[0]);
        } else {
          assert r[k] == r'[k - d];
          var j' :| 0 <= j' < |rest| && r'[k - d] == PyStrip(rest[j']);
          assert r[k] == PyStrip(lines[j' + 1]);
        }
      }
    } else {
      assert NonBlankStripped(lines) == [];
    }
  }

  /** The kept lines keep their order: the lines of a concatenation are
      the lines of its parts, one after the other. */
  lemma {:induction false} NonBlankStrippedAppend(a: seq<string>, b: seq<string>)
    ensures NonBlankStripped(a + b) == NonBlankStripped(a) + NonBlankStripped(b)
  {
    if a != [] {
      assert (a + b)[0] == a[0];
      assert (a + b)[1..] == a[1..] + b;
      NonBlankStrippedAppend(a[1..], b);
    } else {
      assert a + b == b;
    }
  }

  /** `ln.strip()`: empty, or a stripped line. */
  function StripLine(line: string): (t: string)
    ensures t == PyStrip(line)
    ensures t == [] || IsStrippedLine(t)
    ensures IsStrippedLine(line) ==> t == line
  {
    PyStripIsStripped(line);
    if IsStrippedLine(line) then
      PyStripFixed(line);
      PyStrip(line)
    else
      PyStrip(line)
  }

  /** Lines that are already stripped and non-blank pass unchanged. */
  lemma {:induction false} NonBlankStrippedKeeps(lines: seq<string>)
    requires forall k :: 0 <= k < |lines| ==> IsStrippedLine(lines[k])
    ensures NonBlankStripped(lines) == lines
  {
    if lines != [] {
      var rest := lines[1..];
      assert forall k :: 0 <= k < |rest| ==> rest[k] == lines[k + 1];
      NonBlankStrippedKeeps(rest);
      assert StripLine(lines[0]) == lines[0];
      assert lines == [lines[0]] + rest;
    }
  }

  /** A non-empty line with no whitespace at either end. */
  predicate IsStrippedLine(line: string) {
    line != [] && !IsPySpace(line[0]) && !IsPySpace(line[|line| - 1])
  }

  /** The language code `collapse_lines` is given. Only `'cn'` is ever
      tested for; every other code joins like English. */
  datatype LangCode = En | Cn

  /** `a.endswith(('—', '-'))`: the last character is an em dash (U+2014) or
      a hyphen. */
  predicate EndsWithDash(a: string) {
    |a| > 0 && (a[|a| - 1] == '\U{2014}' || a[|a| - 1] == '-')
  }

  /** The joiner of `join`: none for Chinese, none after a trailing dash,
      one space otherwise. */
  function Joiner(a: string, lang: LangCode): string {
    if lang == Cn || EndsWithDash(a) then "" else " "
  }

  /** `join(a, b)`. */
  function JoinPair(a: string, b: string, lang: LangCode): string {
    PyRStrip(a) + Joiner(a, lang) + PyLStrip(b)
  }

  /** `join` for a given language, as a value. */
  function JoinFor(lang: LangCode): (string, string) -> string {
    (a, b) => JoinPair(a, b, lang)
  }

  /** One pass of the outer loop, for any way of joining two lines: pairs
      (0, 1), (2, 3), ... are joined and an odd last line is kept as is. */
  function MergeWith(xs: seq<string>, join: (string, string) -> string): (r: seq<string>)
    ensures |r| == (|xs| + 1) / 2
  {
    if |xs| >= 2 then [join(xs[0], xs[1])] + MergeWith(xs[2..], join) else xs
  }

  /** One pass of the outer loop of `collapse_lines`. */
  function MergePass(xs: seq<string>, lang: LangCode): seq<string> {
    MergeWith(xs, JoinFor(lang))
  }

  /** Line `k` of a pass is the join of lines `2k` and `2k + 1`, or line
      `2k` alone when it is the odd last one. */
  lemma {:induction false} MergeWithAt(xs: seq<string>, join: (string, string) -> string, k: nat)
    requires k < (|xs| + 1) / 2
    ensures MergeWith(xs, join)[k] == if 2 * k + 1 < |xs| then join(xs[2 * k], xs[2 * k + 1]) else xs[2 * k]
  {
    if k > 0 {
      MergeWithAt(xs[2..], join, k - 1);
    }
  }

  lemma MergePassAt(xs: seq<string>, lang: LangCode, k: nat)
    requires k < (|xs| + 1) / 2
    ensures MergePass(xs, lang)[k] == if 2 * k + 1 < |xs| then JoinPair(xs[2 * k], xs[2 * k + 1], lang) else xs[2 * k]
  {
    MergeWithAt(xs, JoinFor(lang), k);
  }

  /** Merge passes until at most `maxLines` lines remain. */
  function Collapse(xs: seq<string>, lang: LangCode, maxLines: nat): seq<string>
    requires maxLines >= 1
    decreases |xs|
  {
    if |xs| <= maxLines then xs else Collapse(MergePass(xs, lang), lang, maxLines)
  }

  /** The bound of `collapse_lines`: at most `maxLines` lines come out, none
      when none go in, some when some go in, and lines already within the
      bound come out untouched. */
  lemma {:induction false} CollapseBounds(xs: seq<string>, lang: LangCode, maxLines: nat)
    requires maxLines >= 1
    ensures |Collapse(xs, lang, maxLines)| <= maxLines
    ensures Collapse(xs, lang, maxLines) == [] <==> xs == []
    ensures |xs| <= maxLines ==> Collapse(xs, lang, maxLines) == xs
    decreases |xs|
  {
    if |xs| > maxLines {
      CollapseBounds(MergePass(xs, lang), lang, maxLines);
    }
  }

  /** All text of a list of lines, without separators. */
  function Glued(xs: seq<string>): string {
    if xs == [] then [] else xs[0] + Glued(xs[1..])
  }

  /** A Chinese pair of stripped lines is joined with nothing in between,
      and the joined line is stripped again. */
  lemma JoinChinese(a: string, b: string)
    requires IsStrippedLine(a) && IsStrippedLine(b)
    ensures JoinPair(a, b, Cn) == a + b && IsStrippedLine(a + b)
  {
    assert SpaceRunStart(a, |a|) == |a| && a[..|a|] == a;
    assert SpaceRunEnd(b, 0) == 0 && b[0..] == b;
    var ab := a + b;
    assert ab[0] == a[0] && ab[|ab| - 1] == b[|b| - 1];
  }

  /** A join that glues stripped lines together. */
  ghost predicate GluesStripped(join: (string, string) -> string) {
    forall a, b :: IsStrippedLine(a) && IsStrippedLine(b) ==> join(a, b) == a + b
  }

  lemma ChineseGlues()
    ensures GluesStripped(JoinFor(Cn))
  {
    forall a, b | IsStrippedLine(a) && IsStrippedLine(b)
      ensures JoinFor(Cn)(a, b) == a + b
    {
      JoinChinese(a, b);
    }
  }

  lemma GluedCons(x: string, ys: seq<string>)
    ensures Glued([x] + ys) == x + Glued(ys)
  {
    assert ([x] + ys)[1..] == ys;
  }

  /** With such a join, a pass over stripped lines loses and adds no
      character. */
  lemma {:induction false} MergeWithGlues(xs: seq<string>, join: (string, string) -> string)
    requires GluesStripped(join)
    requires forall k :: 0 <= k < |xs| ==> IsStrippedLine(xs[k])
    ensures Glued(MergeWith(xs, join)) == Glued(xs)
    decreases |xs|
  {
    if |xs| >= 2 {
      var a := xs[0];
      var b := xs[1];
      var rest := xs[2..];
      assert forall k :: 0 <= k < |rest| ==> rest[k] == xs[k + 2];
      MergeWithGlues(rest, join);
      var m := MergeWith(rest, join);
      assert Glued(MergeWith(xs, join)) == (a + b) + Glued(m) by {
        assert join(a, b) == a + b;
        assert MergeWith(xs, join) == [a + b] + m;
        GluedCons(a + b, m);
      }
      assert Glued(xs) == a + (b + Glued(rest)) by {
        assert xs[1..][1..] == rest;
        assert Glued(xs[1..]) == b + Glued(rest);
      }
      assert (a + b) + Glued(rest) == a + (b + Glued(rest));
    }
  }

  /** Two stripped lines are joined with exactly the joiner in between, and
      the joined line is stripped again. */
  lemma JoinStripped(a: string, b: string, lang: LangCode)
    requires IsStrippedLine(a) && IsStrippedLine(b)
    ensures JoinPair(a, b, lang) == a + Joiner(a, lang) + b
    ensures IsStrippedLine(JoinPair(a, b, lang))
  {
    assert SpaceRunStart(a, |a|) == |a| && a[..|a|] == a;
    assert SpaceRunEnd(b, 0) == 0 && b[0..] == b;
    var ab := a + Joiner(a, lang) + b;
    assert ab[0] == a[0] && ab[|ab| - 1] == b[|b| - 1];
  }

  /** A join that keeps stripped lines stripped. */
  ghost predicate KeepsStripped(join: (string, string) -> string) {
    forall a, b :: IsStrippedLine(a) && IsStrippedLine(b) ==> IsStrippedLine(join(a, b))
  }

  lemma JoinKeepsStripped(lang: LangCode)
    ensures KeepsStripped(JoinFor(lang))
  {
    forall a, b | IsStrippedLine(a) && IsStrippedLine(b)
      ensures IsStrippedLine(JoinFor(lang)(a, b))
    {
      JoinStripped(a, b, lang);
    }
  }

  lemma {:induction false} MergeWithStripped(xs: seq<string>, join: (string, string) -> string)
    requires KeepsStripped(join)
    requires forall k :: 0 <= k < |xs| ==> IsStrippedLine(xs[k])
    ensures forall k :: 0 <= k < |MergeWith(xs, join)| ==> IsStrippedLine(MergeWith(xs, join)[k])
    decreases |xs|
  {
    if |xs| >= 2 {
      var rest := xs[2..];
      assert forall k :: 0 <= k < |rest| ==> rest[k] == xs[k + 2];
      MergeWithStripped(rest, join);
      assert IsStrippedLine(join(xs[0], xs[1]));
      assert MergeWith(xs, join) == [join(xs[0], xs[1])] + MergeWith(rest, join);
    }
  }

  /** Every line `collapse_lines` returns is non-empty and stripped, in
      either language. */
  lemma {:induction false} CollapseStripped(xs: seq<string>, lang: LangCode, maxLines: nat)
    requires maxLines >= 1
    requires forall k :: 0 <= k < |xs| ==> IsStrippedLine(xs[k])
    ensures forall k :: 0 <= k < |Collapse(xs, lang, maxLines)| ==> IsStrippedLine(Collapse(xs, lang, maxLines)[k])
    decreases |xs|
  {
    if |xs| > maxLines {
      JoinKeepsStripped(lang);
      MergeWithStripped(xs, JoinFor(lang));
      CollapseStripped(MergePass(xs, lang), lang, maxLines);
    }
  }

  /** Collapsing stripped Chinese lines only regroups their text, into
      stripped lines. */
  lemma {:induction false} CollapseChinese(xs: seq<string>, maxLines: nat)
    requires maxLines >= 1
    requires forall k :: 0 <= k < |xs| ==> IsStrippedLine(xs[k])
    ensures Glued(Collapse(xs, Cn, maxLines)) == Glued(xs)
    ensures forall k :: 0 <= k < |Collapse(xs, Cn, maxLines)| ==> IsStrippedLine(Collapse(xs, Cn, maxLines)[k])
    decreases |xs|
  {
    if |xs| > maxLines {
      ChineseGlues();
      MergeWithGlues(xs, JoinFor(Cn));
      JoinKeepsStripped(Cn);
      MergeWithStripped(xs, JoinFor(Cn));
      CollapseChinese(MergePass(xs, Cn), maxLines);
    }
  }

  /** What is left of a pass after the lines before `idx`: the join of the
      next two lines and the pass over the rest, or the odd last line. */
  lemma MergePassStep(xs: seq<string>, lang: LangCode, idx: nat)
    requires idx < |xs|
    ensures idx + 1 < |xs| ==>
      MergePass(xs[idx..], lang) == [JoinPair(xs[idx], xs[idx + 1], lang)] + MergePass(xs[idx + 2..], lang)
    ensures idx + 1 == |xs| ==> MergePass(xs[idx..], lang) == [xs[idx]]
  {
    var rest := xs[idx..];
    assert rest[0] == xs[idx];
    if idx + 1 < |xs| {
      assert rest[1] == xs[idx + 1] && rest[2..] == xs[idx + 2..];
      assert JoinFor(lang)(rest[0], rest[1]) == JoinPair(xs[idx], xs[idx + 1], lang);
    } else {
      assert rest == [xs[idx]];
    }
  }

  /** One turn of the inner loop keeps its invariant. */
  lemma MergeAdvance(xs: seq<string>, lang: LangCode, idx: nat, merged: seq<string>)
    requires idx < |xs| && merged + MergePass(xs[idx..], lang) == MergePass(xs, lang)
    ensures idx + 1 < |xs| ==>
      (merged + [JoinPair(xs[idx], xs[idx + 1], lang)]) + MergePass(xs[idx + 2..], lang) == MergePass(xs, lang)
    ensures idx + 1 == |xs| ==> merged + [xs[idx]] == MergePass(xs, lang)
  {
    MergePassStep(xs, lang, idx);
    if idx + 1 < |xs| {
      var joined := JoinPair(xs[idx], xs[idx + 1], lang);
      assert merged + ([joined] + MergePass(xs[idx + 2..], lang))
        == (merged + [joined]) + MergePass(xs[idx + 2..], lang);
    }
  }

  /** One pass of the outer loop of `collapse_lines`: the inner loop that
      builds `merged`. */
  method MergeOnce(normalized: seq<string>, lang: LangCode) returns (merged: seq<string>)
    ensures merged == MergePass(normalized, lang)
  {
    merged := [];
    var idx := 0;
    assert normalized[0..] == normalized;
    while idx < |normalized|
      invariant idx <= |normalized|
      invariant idx < |normalized| ==> merged + MergePass(normalized[idx..], lang) == MergePass(normalized, lang)
      invariant idx == |normalized| ==> merged == MergePass(normalized, lang)
      decreases |normalized| - idx
    {
      MergeAdvance(normalized, lang, idx, merged);
      var first := normalized[idx];
      if idx + 1 < |normalized| {
        merged := merged + [JoinPair(first, normalized[idx + 1], lang)];
        idx := idx + 2;
        if idx == |normalized| {
          assert normalized[idx..] == [];
        }
      } else {
        merged := merged + [first];
        idx := idx + 1;
      }
    }
  }

  /** `collapse_lines(lines, lang, max_lines)`. The loop runs only with
      `max_lines >= 1`; with a smaller bound it would never end. */
  method CollapseLines(lines: seq<string>, lang: LangCode, maxLines: nat) returns (r: seq<string>)
    requires maxLines >= 1
    ensures r == Collapse(NonBlankStripped(lines), lang, maxLines)
    ensures |r| <= maxLines
    ensures r == [] <==> forall j :: 0 <= j < |lines| ==> PyStrip(lines[j]) == []
  {
    CollapseBounds(NonBlankStripped(lines), lang, maxLines);
    NonBlankStrippedEmpty(lines);
    var normalized := NonBlankStripped(lines);
    if |normalized| == 0 {
      return [];
    }
    while |normalized| > maxLines
      invariant Collapse(normalized, lang, maxLines) == Collapse(NonBlankStripped(lines), lang, maxLines)
      decreases |normalized|
    {
      normalized := MergeOnce(normalized, lang);
    }
    r := normalized;
  }
}
