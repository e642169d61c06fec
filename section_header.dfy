/**
 * `_section_lang` and `SECTION_HEADER_REGEX` (scripts/process_hymns.py),
 * which tell the reformatter which language a heading line opens, and the
 * agreement of the headings `fmt` writes with both that test and the app's
 * `matchSectionHeading` (src/App.tsx).
 */
module SectionHeader {
  import opened Wrappers
  import opened Strings
  import opened HymnScript
  import opened BlockParser
  import opened SectionFormat
  import H = HymnHeadings
  import Hy = Hymn

  /** The end of the run of non-whitespace characters starting at `i`, as
      `\S+` takes it greedily. */
  function WordRunEnd(s: string, i: nat): (j: nat)
    requires i <= |s|
    ensures i <= j <= |s|
    ensures forall k :: i <= k < j ==> !IsPySpace(s[k])
    ensures j == |s| || IsPySpace(s[j])
    decreases |s| - i
  {
    if i < |s| && !IsPySpace(s[i]) then WordRunEnd(s, i + 1) else i
  }

  /** The text after the last `\s+` of the pattern, `(English|Chinese):`,
      read as the language code `_section_lang` returns. */
  function LanguageWord(t: string): Option<LangCode> {
    if t == "English:" then Some(En)
    else if t == "Chinese:" then Some(Cn)
    else None
  }

  /** `SECTION_HEADER_REGEX.match(s)`, `^(Verse\s+\S+|Chorus)\s+(English|Chinese):$`,
      reduced to its second group, on a line with no trailing whitespace.
      Every `\s+` and `\S+` is greedy and is followed by a character of the
      other class, so backtracking never helps: the maximal runs decide the
      match. (`$` would also accept a final line feed, which a stripped
      line cannot have.) */
  function HeaderMatch(s: string): (r: Option<LangCode>)
    ensures r.Some? ==> StartsWith(s, "Verse") || StartsWith(s, "Chorus")
    ensures r == Some(En) ==> EndsWith(s, "English:")
    ensures r == Some(Cn) ==> EndsWith(s, "Chinese:")
  {
    if StartsWith(s, "Verse") then
      var a := SpaceRunEnd(s, 5);
      var b := WordRunEnd(s, a);
      var c := SpaceRunEnd(s, b);
      if 5 < a < b < c then LanguageWord(s[c..]) else None
    else if StartsWith(s, "Chorus") then
      var c := SpaceRunEnd(s, 6);
      if 6 < c then LanguageWord(s[c..]) else None
    else None
  }

  /** `_section_lang(line)`: strip the line, then match the header pattern;
      `'en'` for an English header, `'cn'` for a Chinese one, `None` for
      every other line. */
  function SectionLang(line: string): (r: Option<LangCode>)
    ensures r.Some? ==> StartsWith(PyStrip(line), "Verse") || StartsWith(PyStrip(line), "Chorus")
    ensures r == Some(En) ==> EndsWith(PyStrip(line), "English:")
    ensures r == Some(Cn) ==> EndsWith(PyStrip(line), "Chinese:")
  {
    HeaderMatch(PyStrip(line))
  }

  // ---- a reference definition by words ----

  /** `s[i:].split()`: the maximal runs of non-whitespace characters. */
  function WordsFrom(s: string, i: nat): seq<string>
    requires i <= |s|
    decreases |s| - i
  {
    var a := SpaceRunEnd(s, i);
    if a == |s| then []
    else
      var b := WordRunEnd(s, a);
      [s[a..b]] + WordsFrom(s, b)
  }

  /** `s.split()` with no separator. */
  function Words(s: string): seq<string> {
    WordsFrom(s, 0)
  }

  /** A header read by its words: `Verse`, any word and a language word, or
      `Chorus` and a language word. */
  function HeaderOfWords(ws: seq<string>): Option<LangCode> {
    if |ws| == 3 && ws[0] == "Verse" then LanguageWord(ws[2])
    else if |ws| == 2 && ws[0] == "Chorus" then LanguageWord(ws[1])
    else None
  }

  /** A text holding whitespace is not a language word. */
  lemma NotLanguageWord(t: string, i: nat)
    requires i < |t| && IsPySpace(t[i])
    ensures LanguageWord(t) == None
  {
  }

  /** A word run is at least as long as a whitespace-free text it starts with. */
  lemma WordRunCovers(s: string, w: string)
    requires StartsWith(s, w)
    requires forall k :: 0 <= k < |w| ==> !IsPySpace(w[k])
    ensures WordRunEnd(s, 0) >= |w|
  {
    assert forall k :: 0 <= k < |w| ==> s[k] == w[k] by {
      assert forall k :: 0 <= k < |w| ==> s[..|w|][k] == s[k];
    }
  }

  /** The word run starting at `i` ends at the first whitespace `j`. */
  lemma WordRunEndAt(s: string, i: nat, j: nat)
    requires i <= j < |s| && IsPySpace(s[j])
    requires forall k :: i <= k < j ==> !IsPySpace(s[k])
    ensures WordRunEnd(s, i) == j
  {
  }

  /** After a whitespace character inside a stripped line there is one more
      word; it is the last word exactly when its run reaches the end. */
  lemma NextWord(s: string, b: nat)
    requires s != [] && !IsPySpace(s[|s| - 1])
    requires b < |s| && IsPySpace(s[b])
    ensures var c := SpaceRunEnd(s, b);
      var d := WordRunEnd(s, c);
      && b < c < d
      && WordsFrom(s, b) == [s[c..d]] + WordsFrom(s, d)
      && (WordsFrom(s, d) == [] <==> d == |s|)
  {
    var c := SpaceRunEnd(s, b);
    assert c < |s|;
    var d := WordRunEnd(s, c);
    if d < |s| {
      assert SpaceRunEnd(s, d) < |s|;
    }
  }

  /** The language word after the whitespace at `b` decides the header
      exactly when it is the last word. */
  lemma LastWordLanguage(s: string, b: nat)
    requires s != [] && !IsPySpace(s[|s| - 1])
    requires b < |s| && IsPySpace(s[b])
    ensures var ws := WordsFrom(s, b);
      && ws != []
      && LanguageWord(s[SpaceRunEnd(s, b)..]) == (if |ws| == 1 then LanguageWord(ws[0]) else None)
  {
    NextWord(s, b);
    var c := SpaceRunEnd(s, b);
    var d := WordRunEnd(s, c);
    if d == |s| {
      assert s[c..d] == s[c..];
    } else {
      assert s[c..][d - c] == s[d];
      NotLanguageWord(s[c..], d - c);
    }
  }

  /** `Verse` followed by more of the same word, or alone: no header. */
  lemma VerseWordOnly(s: string)
    requires s != [] && StartsWith(s, "Verse") && WordRunEnd(s, 0) >= 5
    requires WordRunEnd(s, 0) > 5 || |s| == 5
    ensures HeaderMatch(s) == None
    ensures HeaderOfWords(Words(s)) == None
  {
    assert s[0] == 'V' by {
      assert s[..5][0] == s[0];
    }
    var b0 := WordRunEnd(s, 0);
    var w := s[..b0];
    assert Words(s) == [w] + WordsFrom(s, b0);
    assert SpaceRunEnd(s, 5) == 5;
    if b0 > 5 {
      assert w[0] == 'V' && |w| > 5;
    } else {
      assert WordsFrom(s, b0) == [];
    }
  }

  /** `Verse`, whitespace and more: the header test and the word reading
      both come down to the words after the first. */
  lemma VerseWordsRest(s: string)
    requires s != [] && !IsPySpace(s[|s| - 1])
    requires StartsWith(s, "Verse") && 5 < |s| && IsPySpace(s[5])
    ensures HeaderMatch(s) == HeaderOfWords(Words(s))
  {
    NextWord(s, 5);
    var b := WordRunEnd(s, SpaceRunEnd(s, 5));
    VerseReadByWords(s);
    VerseReadByPattern(s);
    if b < |s| {
      LastWordLanguage(s, b);
    }
  }

  /** The words of `Verse`, whitespace and more: `Verse`, the next word and
      whatever words follow that. */
  lemma VerseReadByWords(s: string)
    requires s != [] && !IsPySpace(s[|s| - 1])
    requires StartsWith(s, "Verse") && 5 < |s| && IsPySpace(s[5])
    ensures var rest := WordsFrom(s, WordRunEnd(s, SpaceRunEnd(s, 5)));
      HeaderOfWords(Words(s)) == (if |rest| == 1 then LanguageWord(rest[0]) else None)
  {
    NextWord(s, 5);
    var a := SpaceRunEnd(s, 5);
    var b := WordRunEnd(s, a);
    var rest := WordsFrom(s, b);
    VerseFirstWord(s);
    assert Words(s) == ["Verse", s[a..b]] + rest;
    HeaderOfVerseWords(s[a..b], rest);
  }

  /** `Verse`, a word and the rest is a header exactly when the rest is one
      language word. */
  lemma HeaderOfVerseWords(w: string, rest: seq<string>)
    ensures HeaderOfWords(["Verse", w] + rest) == (if |rest| == 1 then LanguageWord(rest[0]) else None)
  {
    var ws := ["Verse", w] + rest;
    assert ws[0] == "Verse" && |ws| == 2 + |rest|;
    if |rest| == 1 {
      assert ws[2] == rest[0];
    }
  }

  /** A text starting with `Verse` and whitespace has `Verse` as first word. */
  lemma VerseFirstWord(s: string)
    requires StartsWith(s, "Verse") && 5 < |s| && IsPySpace(s[5])
    ensures Words(s) == ["Verse"] + WordsFrom(s, 5)
  {
    WordRunCovers(s, "Verse");
    assert WordRunEnd(s, 0) == 5;
    assert SpaceRunEnd(s, 0) == 0;
    assert s[..5] == "Verse";
  }

  /** The pattern on `Verse`, whitespace and more: it comes down to the text
      after the whitespace that follows the next word. */
  lemma VerseReadByPattern(s: string)
    requires s != [] && !IsPySpace(s[|s| - 1])
    requires StartsWith(s, "Verse") && 5 < |s| && IsPySpace(s[5])
    ensures var b := WordRunEnd(s, SpaceRunEnd(s, 5));
      HeaderMatch(s) == (if b < |s| then LanguageWord(s[SpaceRunEnd(s, b)..]) else None)
  {
    NextWord(s, 5);
    var b := WordRunEnd(s, SpaceRunEnd(s, 5));
    if b == |s| {
      assert SpaceRunEnd(s, b) == b;
    }
  }

  /** The header test on a line that starts with `Verse`. */
  lemma VerseWords(s: string)
    requires s != [] && !IsPySpace(s[0]) && !IsPySpace(s[|s| - 1])
    requires StartsWith(s, "Verse")
    ensures HeaderMatch(s) == HeaderOfWords(Words(s))
  {
    WordRunCovers(s, "Verse");
    if WordRunEnd(s, 0) > 5 || |s| == 5 {
      VerseWordOnly(s);
    } else {
      VerseWordsRest(s);
    }
  }

  /** The header test on a line that starts with `Chorus`. */
  lemma ChorusWords(s: string)
    requires s != [] && !IsPySpace(s[0]) && !IsPySpace(s[|s| - 1])
    requires StartsWith(s, "Chorus")
    ensures HeaderMatch(s) == HeaderOfWords(Words(s))
  {
    StartsWithExclusive(s, "Chorus", "Verse");
    var c := SpaceRunEnd(s, 6);
    assert HeaderMatch(s) == (if 6 < c then LanguageWord(s[c..]) else None);
    WordRunCovers(s, "Chorus");
    var b0 := WordRunEnd(s, 0);
    var w := s[..b0];
    assert Words(s) == [w] + WordsFrom(s, b0);
    if b0 > 6 {
      assert c == 6;
      assert HeaderOfWords(Words(s)) == None by {
        assert w[0] == s[0] && |w| > 6;
        assert s[0] == 'C' by {
          assert s[0] == s[..6][0];
        }
      }
    } else if b0 == |s| {
      assert c == 6;
      assert WordsFrom(s, b0) == [];
    } else {
      var rest := WordsFrom(s, 6);
      assert HeaderOfWords(Words(s)) == (if |rest| == 1 then LanguageWord(rest[0]) else None) by {
        assert w == "Chorus";
      }
      LastWordLanguage(s, 6);
    }
  }

  /** The regular expression and the word reading agree on every stripped
      line. */
  lemma HeaderMatchWords(s: string)
    requires s == [] || (!IsPySpace(s[0]) && !IsPySpace(s[|s| - 1]))
    ensures HeaderMatch(s) == HeaderOfWords(Words(s))
  {
    if s != [] {
      if StartsWith(s, "Verse") {
        VerseWords(s);
      } else if StartsWith(s, "Chorus") {
        ChorusWords(s);
      } else {
        var b0 := WordRunEnd(s, 0);
        assert Words(s) == [s[..b0]] + WordsFrom(s, b0);
        assert s[..b0] != "Verse" && s[..b0] != "Chorus";
      }
    }
  }

  /** `_section_lang` reads a line by its words: after stripping, the line
      is `Verse`, one more word and `English:` or `Chinese:`, or `Chorus`
      and `English:` or `Chinese:`, with any whitespace between the words. */
  lemma SectionLangWords(line: string)
    ensures SectionLang(line) == HeaderOfWords(Words(PyStrip(line)))
  {
    PyStripIsStripped(line);
    HeaderMatchWords(PyStrip(line));
  }

  // ---- headings written by `fmt` ----

  /** The language labels `generate_hymns` passes to `fmt`. */
  predicate IsLanguageLabel(langLabel: string) {
    langLabel == "English" || langLabel == "Chinese"
  }

  function CodeOf(langLabel: string): LangCode {
    if langLabel == "English" then En else Cn
  }

  /** The language word `fmt` writes after a label. */
  lemma LabelWord(langLabel: string)
    requires IsLanguageLabel(langLabel)
    ensures var word := langLabel + ":";
      (word == "English:" || word == "Chinese:") && LanguageWord(word) == Some(CodeOf(langLabel))
  {
    if langLabel == "English" {
      assert langLabel + ":" == "English:";
    } else {
      assert langLabel + ":" == "Chinese:";
    }
  }

  /** `Chorus`, one space and a language word is a header of that language. */
  lemma ChorusHeaderMatch(word: string)
    requires word == "English:" || word == "Chinese:"
    ensures HeaderMatch("Chorus " + word) == LanguageWord(word)
  {
    var h := "Chorus " + word;
    assert StartsWith(h, "Chorus") && !StartsWith(h, "Verse") by {
      assert h[..6] == "Chorus" && h[0] == 'C';
    }
    assert SpaceRunEnd(h, 6) == 7 by {
      assert h[6] == ' ' && h[7] == word[0];
      assert SpaceRunEnd(h, 7) == 7;
    }
    assert h[7..] == word;
    ChorusShape(h, 7);
  }

  /** Past `Chorus` and its spaces, the header pattern reads the language word. */
  lemma ChorusShape(h: string, c: nat)
    requires StartsWith(h, "Chorus") && !StartsWith(h, "Verse")
    requires 6 < c && SpaceRunEnd(h, 6) == c
    ensures HeaderMatch(h) == LanguageWord(h[c..])
  {
  }

  /** `Verse`, one space, a run of digits, one space and a language word is
      a header of that language. */
  lemma VerseHeaderMatch(tag: string, word: string)
    requires tag != [] && AllDigits(tag)
    requires word == "English:" || word == "Chinese:"
    ensures HeaderMatch("Verse " + tag + " " + word) == LanguageWord(word)
  {
    var h := "Verse " + tag + " " + word;
    var n := |tag|;
    VerseHeadOf(tag, word);
    VerseLabelOf(tag, word);
    VerseWordOf(tag, word);
    VerseShape(h, 6, 6 + n, 7 + n);
  }

  lemma VerseHeadOf(tag: string, word: string)
    requires tag != [] && AllDigits(tag)
    ensures var h := "Verse " + tag + " " + word;
      StartsWith(h, "Verse") && SpaceRunEnd(h, 5) == 6
  {
    var h := "Verse " + tag + " " + word;
    assert h[..5] == "Verse";
    assert h[6] == tag[0];
    assert SpaceRunEnd(h, 6) == 6;
  }

  lemma VerseLabelOf(tag: string, word: string)
    requires tag != [] && AllDigits(tag)
    ensures WordRunEnd("Verse " + tag + " " + word, 6) == 6 + |tag|
  {
    var h := "Verse " + tag + " " + word;
    var n := |tag|;
    assert forall k :: 6 <= k < 6 + n ==> h[k] == tag[k - 6];
    WordRunEndAt(h, 6, 6 + n);
  }

  lemma VerseWordOf(tag: string, word: string)
    requires word == "English:" || word == "Chinese:"
    ensures var h := "Verse " + tag + " " + word;
      && SpaceRunEnd(h, 6 + |tag|) == 7 + |tag|
      && h[7 + |tag|..] == word
  {
    var pre := "Verse " + tag;
    assert "Verse " + tag + " " + word == pre + " " + word;
    LanguageWordStart(word);
    SpaceThenWord(pre, word);
  }

  /** A language word starts with a letter. */
  lemma LanguageWordStart(word: string)
    requires word == "English:" || word == "Chinese:"
    ensures word != [] && !IsPySpace(word[0])
  {
    assert word[0] == 'E' || word[0] == 'C';
  }

  /** One space before a word is a run of one space. */
  lemma SpaceThenWord(pre: string, word: string)
    requires word != [] && !IsPySpace(word[0])
    ensures var h := pre + " " + word;
      && SpaceRunEnd(h, |pre|) == |pre| + 1
      && h[|pre| + 1..] == word
  {
    var h := pre + " " + word;
    var n := |pre|;
    assert h[n] == ' ';
    assert h[n + 1..] == word;
    assert h[n + 1] == h[n + 1..][0];
    assert SpaceRunEnd(h, n + 1) == n + 1;
  }

  /** Past `Verse`, its spaces, the label and its spaces, the header pattern
      reads the language word. */
  lemma VerseShape(h: string, a: nat, b: nat, c: nat)
    requires StartsWith(h, "Verse") && 5 < a < b < c
    requires SpaceRunEnd(h, 5) == a && WordRunEnd(h, a) == b && SpaceRunEnd(h, b) == c
    ensures HeaderMatch(h) == LanguageWord(h[c..])
  {
  }

  /** A heading `fmt` writes for a well-labelled section is a header, of the
      language of its label. */
  lemma FmtHeadingClassified(sec: ScriptSection, langLabel: string)
    requires WellLabelled(sec) && IsLanguageLabel(langLabel)
    ensures SectionLang(HeadingLine(sec, langLabel)) == Some(CodeOf(langLabel))
  {
    var h := HeadingLine(sec, langLabel);
    HeadingEnds(sec, langLabel);
    PyStripFixed(h);
    var word := langLabel + ":";
    LabelWord(langLabel);
    match sec.kind
    case ChorusSection =>
      assert h == "Chorus " + word;
      ChorusHeaderMatch(word);
    case VerseSection =>
      assert h == "Verse " + sec.labelText + " " + word;
      VerseHeaderMatch(sec.labelText, word);
  }

  /** The language tail `fmt` writes, as the app reads it. */
  lemma LabelTail(langLabel: string)
    requires IsLanguageLabel(langLabel)
    ensures H.TailLanguage(" " + langLabel + ":") == Some(LanguageOf(langLabel))
  {
    if langLabel == "English" {
      assert " " + langLabel + ":" == " English:";
      LowerTail(" English:", " english:");
    } else {
      assert " " + langLabel + ":" == " Chinese:";
      LowerTail(" Chinese:", " chinese:");
    }
  }

  /** Lower-casing the two language tails. */
  lemma LowerTail(tail: string, lowered: string)
    requires (tail == " English:" && lowered == " english:") || (tail == " Chinese:" && lowered == " chinese:")
    ensures Lower(tail) == lowered
  {
  }

  /** What the app needs of a section name: trimmed it is itself, it holds
      no line terminator, and lower-cased it starts with a section word. */
  predicate AppReadableName(name: string) {
    && JsTrim(name) == name
    && (forall j :: 0 <= j < |name| ==> !IsLineTerminator(name[j]))
    && H.StartsWithSectionWord(Lower(name))
  }

  lemma ChorusNameReadable()
    ensures AppReadableName("Chorus")
    ensures H.DetectType("Chorus") == Hy.ChorusSection
  {
    TrimmedFixed("Chorus", IsJsSpace);
    assert Lower("Chorus")[..6] == "chorus";
    assert Lower("Chorus")[0] == 'c';
  }

  lemma VerseNameReadable(tag: string)
    requires tag != [] && AllDigits(tag)
    ensures AppReadableName("Verse " + tag)
    ensures H.DetectType("Verse " + tag) == Hy.VerseSection
  {
    VerseNameTrimmed(tag);
    VerseNameOneLine(tag);
    VerseNameLower(tag);
  }

  lemma VerseNameTrimmed(tag: string)
    requires tag != [] && AllDigits(tag)
    ensures JsTrim("Verse " + tag) == "Verse " + tag
  {
    var name := "Verse " + tag;
    assert name[|name| - 1] == tag[|tag| - 1];
    TrimmedFixed(name, IsJsSpace);
  }

  lemma VerseNameOneLine(tag: string)
    requires AllDigits(tag)
    ensures var name := "Verse " + tag;
      forall j :: 0 <= j < |name| ==> !IsLineTerminator(name[j])
  {
    var name := "Verse " + tag;
    assert forall j :: 6 <= j < |name| ==> name[j] == tag[j - 6];
  }

  lemma VerseNameLower(tag: string)
    ensures StartsWith(Lower("Verse " + tag), "verse")
  {
    var name := "Verse " + tag;
    assert Lower(name)[..5] == "verse";
  }

  /** The app's language for a label. */
  function LanguageOf(langLabel: string): H.Language {
    if langLabel == "English" then H.English else H.Chinese
  }

  /** The app's `matchSectionHeading` accepts a readable name followed by a
      space, a language label and a colon; the base is the name. */
  lemma AppAcceptsHeading(name: string, langLabel: string)
    requires AppReadableName(name) && IsLanguageLabel(langLabel)
    ensures var m := H.MatchSectionHeading(name + " " + langLabel + ":");
      m.Some? && m.value.base == name && m.value.lang == LanguageOf(langLabel)
  {
    var h := name + " " + langLabel + ":";
    var tail := " " + langLabel + ":";
    assert h == name + tail;
    assert h[..|h| - 9] == name && h[|h| - 9..] == tail;
    LabelTail(langLabel);
    assert forall j :: 0 <= j < |h| - 9 ==> h[j] == name[j];
    assert H.IsSectionHeading(h);
  }

  /** The app's `matchSectionHeading` accepts a heading `fmt` writes for a
      well-labelled section: its base is the section name, its language that
      of the label, and `detectType` gives back the section's kind. */
  lemma FmtHeadingAccepted(sec: ScriptSection, langLabel: string)
    requires WellLabelled(sec) && IsLanguageLabel(langLabel)
    ensures var m := H.MatchSectionHeading(HeadingLine(sec, langLabel));
      && m.Some?
      && m.value.base == SectionName(sec)
      && m.value.lang == LanguageOf(langLabel)
      && H.DetectType(m.value.base) == (if sec.kind == ChorusSection then Hy.ChorusSection else Hy.VerseSection)
  {
    var name := SectionName(sec);
    assert AppReadableName(name) && H.DetectType(name) == (if sec.kind == ChorusSection then Hy.ChorusSection else Hy.VerseSection) by {
      match sec.kind
      case ChorusSection =>
        ChorusNameReadable();
      case VerseSection =>
        VerseNameReadable(sec.labelText);
    }
    assert HeadingLine(sec, langLabel) == name + " " + langLabel + ":";
    AppAcceptsHeading(name, langLabel);
  }

  /** Every heading in the text `fmt` writes for well-labelled sections is
      read by both the script and the app as the heading of that section. */
  lemma FmtHeadingsRecognised(secs: seq<ScriptSection>, langLabel: string, k: nat)
    requires IsLanguageLabel(langLabel)
    requires forall j :: 0 <= j < |secs| ==> WellLabelled(secs[j])
    requires k < |secs|
    ensures var lines := FmtLines(secs, langLabel);
      var at := |FmtLines(secs[..k], langLabel)|;
      && at < |lines|
      && lines[at] == HeadingLine(secs[k], langLabel)
      && SectionLang(lines[at]) == Some(CodeOf(langLabel))
      && H.MatchSectionHeading(lines[at]).Some?
      && H.MatchSectionHeading(lines[at]).value.base == SectionName(secs[k])
  {
    FmtHeadingAt(secs, k, langLabel);
    FmtHeadingClassified(secs[k], langLabel);
    FmtHeadingAccepted(secs[k], langLabel);
  }
}
