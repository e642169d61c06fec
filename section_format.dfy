/**
 * The `fmt` closure of `generate_hymns` (scripts/process_hymns.py): the text
 * of one language of a `.hymn` file, written from the sections `parse_block`
 * returned. Each section becomes its heading, its lines and a blank line;
 * the lines are joined with line feeds and the whole is stripped.
 */
module SectionFormat {
  import opened Strings
  import opened HymnScript
  import opened BlockParser
  import PS = ParserState

  /** `name` in `fmt`: "Chorus", or "Verse " and the section's label. */
  function SectionName(sec: ScriptSection): string {
    match sec.kind
    case ChorusSection => "Chorus"
    case VerseSection => "Verse " + sec.labelText
  }

  /** The heading `fmt` writes for a section, `f"{name} {label}:"`. */
  function HeadingLine(sec: ScriptSection, langLabel: string): string {
    SectionName(sec) + " " + langLabel + ":"
  }

  /** What one section adds to `out_lines`: its heading, its lines and a
      blank line. */
  function SectionBlock(sec: ScriptSection, langLabel: string): seq<string> {
    [HeadingLine(sec, langLabel)] + sec.lines + [""]
  }

  /** The lines `f` gives each element of `xs`, in order. */
  function ConcatMap<T>(xs: seq<T>, f: T -> seq<string>): seq<string> {
    if xs == [] then []
    else ConcatMap(xs[..|xs| - 1], f) + f(xs[|xs| - 1])
  }

  function Blocks(langLabel: string): ScriptSection -> seq<string> {
    sec => SectionBlock(sec, langLabel)
  }

  /** `out_lines` once the loop has visited `secs`. */
  function FmtLines(secs: seq<ScriptSection>, langLabel: string): seq<string> {
    ConcatMap(secs, Blocks(langLabel))
  }

  /** `'\n'.join(lines)`. */
  function JoinLines(lines: seq<string>): string {
    if lines == [] then ""
    else if |lines| == 1 then lines[0]
    else lines[0] + "\n" + JoinLines(lines[1..])
  }

  /** `fmt(sec_list, label)`. */
  method Fmt(secList: seq<ScriptSection>, langLabel: string) returns (r: string)
    ensures r == PyStrip(JoinLines(FmtLines(secList, langLabel)))
  {
    var outLines: seq<string> := [];
    for i := 0 to |secList|
      invariant outLines == FmtLines(secList[..i], langLabel)
    {
      var sec := secList[i];
      var before := outLines;
      var name := if sec.kind == ChorusSection then "Chorus" else "Verse " + sec.labelText;
      outLines := outLines + [name + " " + langLabel + ":"];
      outLines := outLines + sec.lines;
      outLines := outLines + [""];
      assert outLines == before + SectionBlock(sec, langLabel);
      FmtLinesStep(secList, i, langLabel);
    }
    assert secList[..|secList|] == secList;
    r := PyStrip(JoinLines(outLines));
  }

  // ---- layout of the written text ----

  /** Joining one more line adds a line feed and the line. */
  lemma {:induction false} JoinSnoc(lines: seq<string>, line: string)
    requires lines != []
    ensures JoinLines(lines + [line]) == JoinLines(lines) + "\n" + line
    decreases |lines|
  {
    if |lines| > 1 {
      assert (lines + [line])[1..] == lines[1..] + [line];
      JoinSnoc(lines[1..], line);
    }
  }

  /** The written text starts with the first line. */
  lemma {:induction false} JoinStarts(lines: seq<string>)
    requires lines != []
    ensures |lines[0]| <= |JoinLines(lines)| && JoinLines(lines)[..|lines[0]|] == lines[0]
  {
  }

  /** The written text ends with the last line. */
  lemma {:induction false} JoinEnds(lines: seq<string>)
    requires lines != []
    ensures var last := lines[|lines| - 1];
      |last| <= |JoinLines(lines)| && JoinLines(lines)[|JoinLines(lines)| - |last|..] == last
    decreases |lines|
  {
    if |lines| > 1 {
      JoinEnds(lines[1..]);
      var t := JoinLines(lines[1..]);
      var last := lines[|lines| - 1];
      assert JoinLines(lines) == lines[0] + "\n" + t;
      assert JoinLines(lines)[|JoinLines(lines)| - |last|..] == t[|t| - |last|..];
    }
  }

  /** Mapping a concatenation concatenates the parts' lines. */
  lemma {:induction false} ConcatMapAppend<T>(a: seq<T>, b: seq<T>, f: T -> seq<string>)
    ensures ConcatMap(a + b, f) == ConcatMap(a, f) + ConcatMap(b, f)
    decreases |b|
  {
    if b == [] {
      assert a + b == a;
    } else {
      var b' := b[..|b| - 1];
      var last := b[|b| - 1];
      assert (a + b)[..|a + b| - 1] == a + b';
      assert (a + b)[|a + b| - 1] == last;
      ConcatMapAppend(a, b', f);
      assert ConcatMap(a + b, f) == ConcatMap(a, f) + ConcatMap(b', f) + f(last);
    }
  }

  /** The lines of the `k`th element stand right after those of the
      elements before it. */
  lemma ConcatMapAt<T>(xs: seq<T>, k: nat, f: T -> seq<string>)
    requires k < |xs|
    ensures var at := |ConcatMap(xs[..k], f)|;
      && at + |f(xs[k])| <= |ConcatMap(xs, f)|
      && ConcatMap(xs, f)[at..at + |f(xs[k])|] == f(xs[k])
  {
    assert xs == xs[..k] + [xs[k]] + xs[k + 1..];
    ConcatMapAppend(xs[..k] + [xs[k]], xs[k + 1..], f);
    ConcatMapAppend(xs[..k], [xs[k]], f);
    assert ConcatMap([xs[k]], f) == f(xs[k]) by {
      assert [xs[k]][..0] == [];
    }
  }

  /** The first line is the first element's first line. */
  lemma {:induction false} ConcatMapFirst<T>(xs: seq<T>, f: T -> seq<string>)
    requires xs != [] && f(xs[0]) != []
    ensures ConcatMap(xs, f) != [] && ConcatMap(xs, f)[0] == f(xs[0])[0]
    decreases |xs|
  {
    if |xs| > 1 {
      var init := xs[..|xs| - 1];
      assert init[0] == xs[0];
      ConcatMapFirst(init, f);
    } else {
      assert xs[..0] == [];
    }
  }

  /** Visiting one more section appends its block. */
  lemma FmtLinesStep(secs: seq<ScriptSection>, i: nat, langLabel: string)
    requires i < |secs|
    ensures FmtLines(secs[..i + 1], langLabel) == FmtLines(secs[..i], langLabel) + SectionBlock(secs[i], langLabel)
  {
    assert secs[..i + 1][..i] == secs[..i];
    assert Blocks(langLabel)(secs[i]) == SectionBlock(secs[i], langLabel);
  }

  /** The `k`th section's block stands right after the lines of the
      sections before it. */
  lemma FmtSectionAt(secs: seq<ScriptSection>, k: nat, langLabel: string)
    requires k < |secs|
    ensures var at := |FmtLines(secs[..k], langLabel)|;
      var block := SectionBlock(secs[k], langLabel);
      && at + |block| <= |FmtLines(secs, langLabel)|
      && FmtLines(secs, langLabel)[at..at + |block|] == block
  {
    var f := Blocks(langLabel);
    ConcatMapAt(secs, k, f);
    assert f(secs[k]) == SectionBlock(secs[k], langLabel);
  }

  /** The `k`th section's block opens with the section's heading. */
  lemma FmtHeadingAt(secs: seq<ScriptSection>, k: nat, langLabel: string)
    requires k < |secs|
    ensures var at := |FmtLines(secs[..k], langLabel)|;
      && at < |FmtLines(secs, langLabel)|
      && FmtLines(secs, langLabel)[at] == HeadingLine(secs[k], langLabel)
  {
    FmtSectionAt(secs, k, langLabel);
    var lines := FmtLines(secs, langLabel);
    var at := |FmtLines(secs[..k], langLabel)|;
    var block := SectionBlock(secs[k], langLabel);
    assert lines[at] == lines[at..at + |block|][0];
  }

  /** Every line `fmt` writes for a section is free of the characters that
      split lines when the file is read back. */
  predicate NoLineBreak(line: string) {
    '\n' !in line && (line == [] || line[|line| - 1] != '\r')
  }

  /** `ParserState.SplitLines`, the app's `text.split(/\r?\n/)`, recovers the
      lines that were joined, when none of them holds a line feed or ends
      with a carriage return. */
  lemma {:induction false} SplitJoin(lines: seq<string>)
    requires lines != []
    requires forall k :: 0 <= k < |lines| ==> NoLineBreak(lines[k])
    ensures PS.SplitLines(JoinLines(lines)) == lines
    decreases |lines|
  {
    if |lines| == 1 {
      SplitSingle(lines[0]);
    } else {
      SplitJoin(lines[1..]);
      SplitFirst(lines[0], JoinLines(lines[1..]));
      assert lines == [lines[0]] + lines[1..];
    }
  }

  /** A line with no line break splits into itself. */
  lemma SplitSingle(line: string)
    requires NoLineBreak(line)
    ensures PS.SplitLines(line) == [line]
  {
    assert forall j :: 0 <= j < |line| ==> line[j] != '\n';
  }

  /** A line with no line break, then a line feed, splits off first. */
  lemma SplitFirst(line: string, rest: string)
    requires NoLineBreak(line)
    ensures PS.SplitLines(line + "\n" + rest) == [line] + PS.SplitLines(rest)
  {
    var text := line + "\n" + rest;
    assert forall j :: 0 <= j < |line| ==> text[j] == line[j];
    assert text[|line|] == '\n';
    assert text[..|line|] == line && text[|line| + 1..] == rest;
  }

  /** A section `fmt` can write: a heading with no line break and lines that
      are non-empty, stripped and free of line breaks. */
  predicate Writable(sec: ScriptSection, langLabel: string) {
    && NoLineBreak(HeadingLine(sec, langLabel))
    && (forall j :: 0 <= j < |sec.lines| ==> IsStrippedLine(sec.lines[j]) && NoLineBreak(sec.lines[j]))
  }

  /** How `fmt` writes heading and language label: the heading starts with
      the section name and ends with a colon. */
  lemma HeadingEnds(sec: ScriptSection, langLabel: string)
    ensures var h := HeadingLine(sec, langLabel);
      h != [] && !IsPySpace(h[0]) && !IsPySpace(h[|h| - 1])
  {
    var h := HeadingLine(sec, langLabel);
    assert h[0] == SectionName(sec)[0];
  }

  /** The lines of written sections hold no line break. */
  lemma {:induction false} FmtLinesNoBreak(secs: seq<ScriptSection>, langLabel: string)
    requires forall k :: 0 <= k < |secs| ==> Writable(secs[k], langLabel)
    ensures forall j :: 0 <= j < |FmtLines(secs, langLabel)| ==> NoLineBreak(FmtLines(secs, langLabel)[j])
    decreases |secs|
  {
    if secs != [] {
      var init := secs[..|secs| - 1];
      var sec := secs[|secs| - 1];
      FmtLinesNoBreak(init, langLabel);
      var block := SectionBlock(sec, langLabel);
      assert forall j :: 0 <= j < |block| ==> NoLineBreak(block[j]) by {
        BlockNoBreak(sec, langLabel);
      }
      assert FmtLines(secs, langLabel) == FmtLines(init, langLabel) + block;
    }
  }

  /** The lines of a written section hold no line break. */
  lemma BlockNoBreak(sec: ScriptSection, langLabel: string)
    requires Writable(sec, langLabel)
    ensures var block := SectionBlock(sec, langLabel);
      forall j :: 0 <= j < |block| ==> NoLineBreak(block[j])
  {
    var block := SectionBlock(sec, langLabel);
    forall j | 0 <= j < |block|
      ensures NoLineBreak(block[j])
    {
      if 0 < j < |block| - 1 {
        assert block[j] == sec.lines[j - 1];
      }
    }
  }

  /** The first of the `out_lines` is the first section's heading. */
  lemma FmtFirst(secs: seq<ScriptSection>, langLabel: string)
    requires secs != []
    ensures |FmtLines(secs, langLabel)| >= 2
    ensures FmtLines(secs, langLabel)[0] == HeadingLine(secs[0], langLabel)
  {
    var f := Blocks(langLabel);
    assert f(secs[0]) == SectionBlock(secs[0], langLabel);
    ConcatMapFirst(secs, f);
    FmtLast(secs, langLabel);
  }

  /** The `out_lines` end with the last section's block. */
  lemma FmtLast(secs: seq<ScriptSection>, langLabel: string)
    requires secs != []
    ensures var lines := FmtLines(secs, langLabel);
      var block := SectionBlock(secs[|secs| - 1], langLabel);
      && |lines| >= 2 && lines[|lines| - 1] == ""
      && lines[|lines| - 2] == block[|block| - 2]
  {
    var f := Blocks(langLabel);
    var block := SectionBlock(secs[|secs| - 1], langLabel);
    assert FmtLines(secs, langLabel) == ConcatMap(secs[..|secs| - 1], f) + block;
  }

  /** The line before a section's closing blank line is its heading or its
      last lyric line; either way it ends with a non-space. */
  lemma BlockEdge(sec: ScriptSection, langLabel: string)
    requires Writable(sec, langLabel)
    ensures var block := SectionBlock(sec, langLabel);
      var line := block[|block| - 2];
      line != [] && !IsPySpace(line[|line| - 1])
  {
    HeadingEnds(sec, langLabel);
    if sec.lines != [] {
      assert IsStrippedLine(sec.lines[|sec.lines| - 1]);
    }
  }

  /** Stripping a text that starts and ends with a non-space and is followed
      by a line feed removes exactly that line feed. */
  lemma StripFinalNewline(text: string)
    requires text != [] && !IsPySpace(text[0]) && !IsPySpace(text[|text| - 1])
    ensures PyStrip(text + "\n") == text
  {
    var u := text + "\n";
    assert SpaceRunEnd(u, 0) == 0;
    assert u[0..] == u;
    assert SpaceRunStart(u, |text|) == |text|;
    assert SpaceRunStart(u, |u|) == |text|;
    assert u[..|text|] == text;
  }

  /** The text `fmt` returns for sections it can write: the `out_lines`
      without the final blank line, joined. Stripping removes only that
      final line feed, because the text starts with a heading and ends with
      a heading or a stripped lyric line. */
  lemma FmtDropsFinalBlank(secs: seq<ScriptSection>, langLabel: string)
    requires secs != []
    requires forall k :: 0 <= k < |secs| ==> Writable(secs[k], langLabel)
    ensures var lines := FmtLines(secs, langLabel);
      |lines| >= 2 && lines[|lines| - 1] == ""
      && PyStrip(JoinLines(lines)) == JoinLines(lines[..|lines| - 1])
  {
    var lines := FmtLines(secs, langLabel);
    var init := lines[..|lines| - 1];
    FmtLast(secs, langLabel);
    assert lines == init + [""];
    FmtTextEdges(secs, langLabel);
    var text := JoinLines(init);
    JoinSnoc(init, "");
    StripFinalNewline(text);
    assert JoinLines(lines) == text + "\n" by {
      assert text + "\n" + "" == text + "\n";
    }
  }

  /** The joined `out_lines`, without the final blank line, start with a
      heading and end with a heading or a stripped lyric line. */
  lemma FmtTextEdges(secs: seq<ScriptSection>, langLabel: string)
    requires secs != []
    requires Writable(secs[|secs| - 1], langLabel)
    ensures var lines := FmtLines(secs, langLabel);
      var text := JoinLines(lines[..|lines| - 1]);
      |lines| >= 2 && text != [] && !IsPySpace(text[0]) && !IsPySpace(text[|text| - 1])
  {
    var lines := FmtLines(secs, langLabel);
    FmtOpens(secs, langLabel);
    FmtCloses(secs, langLabel);
    JoinEdges(lines[..|lines| - 1]);
  }

  /** The first of the `out_lines` starts with a non-space character. */
  lemma FmtOpens(secs: seq<ScriptSection>, langLabel: string)
    requires secs != []
    ensures var lines := FmtLines(secs, langLabel);
      |lines| >= 2 && lines[0] != [] && !IsPySpace(lines[0][0])
  {
    FmtFirst(secs, langLabel);
    HeadingEnds(secs[0], langLabel);
  }

  /** The last line before the final blank one ends with a non-space
      character. */
  lemma FmtCloses(secs: seq<ScriptSection>, langLabel: string)
    requires secs != []
    requires Writable(secs[|secs| - 1], langLabel)
    ensures var lines := FmtLines(secs, langLabel);
      var final := lines[|lines| - 2];
      |lines| >= 2 && final != [] && !IsPySpace(final[|final| - 1])
  {
    FmtLast(secs, langLabel);
    BlockEdge(secs[|secs| - 1], langLabel);
  }

  /** Joined lines start as their first line starts and end as their last
      line ends. */
  lemma JoinEdges(lines: seq<string>)
    requires lines != [] && lines[0] != [] && !IsPySpace(lines[0][0])
    requires var last := lines[|lines| - 1]; last != [] && !IsPySpace(last[|last| - 1])
    ensures var text := JoinLines(lines);
      text != [] && !IsPySpace(text[0]) && !IsPySpace(text[|text| - 1])
  {
    var text := JoinLines(lines);
    var last := lines[|lines| - 1];
    JoinStarts(lines);
    JoinEnds(lines);
    assert text[0] == lines[0][0];
    assert text[|text| - 1] == last[|last| - 1];
  }

  /** The text `fmt` writes reads back, line by line under the app's
      `split(/\r?\n/)`, as the `out_lines` without their final blank line. */
  lemma FmtReadsBack(secs: seq<ScriptSection>, langLabel: string)
    requires secs != []
    requires forall k :: 0 <= k < |secs| ==> Writable(secs[k], langLabel)
    ensures var lines := FmtLines(secs, langLabel);
      PS.SplitLines(PyStrip(JoinLines(lines))) == lines[..|lines| - 1]
  {
    var lines := FmtLines(secs, langLabel);
    var init := lines[..|lines| - 1];
    FmtDropsFinalBlank(secs, langLabel);
    assert forall k :: 0 <= k < |init| ==> NoLineBreak(init[k]) by {
      FmtLinesNoBreak(secs, langLabel);
      assert forall k :: 0 <= k < |init| ==> init[k] == lines[k];
    }
    SplitJoin(init);
  }

  /** With no sections `fmt` writes nothing. */
  lemma FmtEmpty(langLabel: string)
    ensures PyStrip(JoinLines(FmtLines([], langLabel))) == ""
  {
    PyStripFixed("");
  }
}
