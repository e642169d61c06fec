/**
 * `parse_block` of scripts/process_hymns.py: the lines of one language
 * block of the hymn index are split into verse and chorus sections, and
 * each section's lines are then collapsed to at most four.
 */
module BlockParser {
  import opened Wrappers
  import opened Strings
  import opened HymnScript

  datatype SectionKind = VerseSection | ChorusSection

  /** One entry of the returned list: `{'type', 'label', 'lines'}`. */
  datatype ScriptSection = ScriptSection(kind: SectionKind, labelText: string, lines: seq<string>)

  /** The `lang` argument; only `'en'` and `'cn'` change how a line is read. */
  datatype BlockLang = BlockEn | BlockCn | BlockOther

  function BlockLangOf(lang: string): BlockLang {
    if lang == "en" then BlockEn else if lang == "cn" then BlockCn else BlockOther
  }

  /** `lang_code` of the collapse step: `'en'` for English, `'cn'` for every
      other block. */
  function CollapseLang(lang: BlockLang): LangCode {
    if lang == BlockEn then En else Cn
  }

  // ---------------------------------------------------------------------
  // Reading one line
  // ---------------------------------------------------------------------

  /** `token in text`. */
  predicate Contains(text: string, token: string)
    decreases |text|
  {
    StartsWith(text, token) || (text != [] && Contains(text[1..], token))
  }

  /** `token` occurs in `text` at position `i`. */
  predicate OccursAt(text: string, token: string, i: nat) {
    i + |token| <= |text| && text[i..i + |token|] == token
  }

  /** `token in text` holds exactly when `token` occurs at some position. */
  lemma {:induction false} ContainsAt(text: string, token: string)
    ensures Contains(text, token) <==> exists i: nat :: OccursAt(text, token, i)
    decreases |text|
  {
    assert StartsWith(text, token) <==> OccursAt(text, token, 0);
    if text != [] {
      ContainsAt(text[1..], token);
      forall i: nat | OccursAt(text[1..], token, i)
        ensures OccursAt(text, token, i + 1)
      {
        assert text[1..][i..i + |token|] == text[i + 1..i + 1 + |token|];
      }
      forall i: nat | 1 <= i && OccursAt(text, token, i)
        ensures OccursAt(text[1..], token, i - 1)
      {
        assert text[1..][i - 1..i - 1 + |token|] == text[i..i + |token|];
      }
    }
  }

  /** `METADATA_TOKENS`: '赞美和敬拜' (U+8D5E U+7F8E U+548C U+656C U+62DC) and
      'Praise and Worship'. */
  const MetadataTokens: seq<string> := ["\U{8D5E}\U{7F8E}\U{548C}\U{656C}\U{62DC}", "Praise and Worship"]

  /** `CHORUS_TOKENS_EN`, tried in this order on the lower-cased line. */
  const ChorusTokensEn: seq<string> := ["chorus", "(c)", "c)"]

  /** `CHORUS_TOKENS_CN`: '和' (U+548C) and '副歌' (U+526F U+6B4C). */
  const ChorusTokensCn: seq<string> := ["\U{548C}", "\U{526F}\U{6B4C}"]

  /** The characters stripped after an English chorus token: `' :.-'`. */
  const ChorusStripEn: set<char> := {' ', ':', '.', '-'}

  /** The characters stripped after a Chinese chorus token: `' ：:'`
      (the full-width colon is U+FF1A). */
  const ChorusStripCn: set<char> := {' ', '\U{FF1A}', ':'}

  predicate IsMetadataLine(stripped: string) {
    Contains(stripped, MetadataTokens[0]) || Contains(stripped, MetadataTokens[1])
  }

  /** The first of `tokens` that `text` starts with. */
  function FirstToken(text: string, tokens: seq<string>): (r: Option<string>)
    ensures r.Some? ==> r.value in tokens && StartsWith(text, r.value)
    ensures r.None? <==> forall k :: 0 <= k < |tokens| ==> !StartsWith(text, tokens[k])
  {
    if tokens == [] then None
    else if StartsWith(text, tokens[0]) then Some(tokens[0])
    else
      assert forall k :: 0 < k < |tokens| ==> tokens[k] == tokens[1..][k - 1];
      FirstToken(text, tokens[1..])
  }

  /** The end of the run of characters from `chars` that starts at `i`. */
  function CharRunEnd(text: string, chars: set<char>, i: nat): (j: nat)
    requires i <= |text|
    ensures i <= j <= |text|
    ensures forall k :: i <= k < j ==> text[k] in chars
    ensures j == |text| || text[j] !in chars
    decreases |text| - i
  {
    if i < |text| && text[i] in chars then CharRunEnd(text, chars, i + 1) else i
  }

  /** `text.lstrip(chars)`. */
  function LStripChars(text: string, chars: set<char>): string {
    text[CharRunEnd(text, chars, 0)..]
  }

  /** The chorus token a stripped line opens with, for the block's language:
      the first English token that the lower-cased line starts with, or the
      first Chinese token that the line starts with. */
  function ChorusToken(stripped: string, lang: BlockLang): (r: Option<string>)
    ensures r.Some? ==> |r.value| <= |stripped|
  {
    match lang
    case BlockEn => FirstToken(Lower(stripped), ChorusTokensEn)
    case BlockCn => FirstToken(stripped, ChorusTokensCn)
    case BlockOther => None
  }

  /** The separators dropped after the token. */
  function ChorusSeparators(lang: BlockLang): set<char> {
    if lang == BlockEn then ChorusStripEn else ChorusStripCn
  }

  /** The chorus reading of a stripped line: the rest of the line after its
      chorus token, without the separators that follow the token. */
  function ChorusRest(stripped: string, lang: BlockLang): Option<string> {
    match ChorusToken(stripped, lang)
    case Some(tok) => Some(LStripChars(stripped[|tok|..], ChorusSeparators(lang)))
    case None => None
  }

  /** The line without the one newline that `$` may stand before. */
  function DropFinalNewline(s: string): string {
    if |s| > 0 && s[|s| - 1] == '\n' then s[..|s| - 1] else s
  }

  /** `re.match(r'^(\d+)\s+(.*)$', line)`: the digit run at the start and the
      text after the whitespace run that follows it. `\s+` takes the whole
      run (a digit is no whitespace, so no shorter run can let `\d+` or
      `(.*)` match otherwise), and `.` refuses a newline, which only may
      come last, where `$` matches before it. */
  function VerseHead(line: string): Option<(string, string)> {
    var digits := DigitPrefix(line);
    var n := |digits|;
    if n == 0 || n == |line| || !IsPySpace(line[n]) then None
    else
      var text := DropFinalNewline(line[SpaceRunEnd(line, n)..]);
      if NoNewline(text) then Some((digits, text)) else None
  }

  /** A match of the verse rule splits the line into the digits, a
      whitespace run and the text; and any such split is the match. */
  lemma VerseHeadSplit(line: string, digits: string, space: string, text: string)
    requires line == digits + space + text
    requires digits != [] && AllDigits(digits)
    requires space != [] && forall k :: 0 <= k < |space| ==> IsPySpace(space[k])
    requires text == [] || !IsPySpace(text[0])
    requires NoNewline(text)
    ensures VerseHead(line) == Some((digits, text))
  {
    var n := |digits|;
    assert line[n] == space[0];
    DigitPrefixOf(line, digits);
    SpaceRunOf(line, n, |space|);
    assert line[n + |space|..] == text;
  }

  lemma VerseHeadParts(line: string)
    requires VerseHead(line).Some?
    ensures var (digits, text) := VerseHead(line).value;
      && digits != [] && AllDigits(digits) && line[..|digits|] == digits
      && |digits| < |line| && IsPySpace(line[|digits|])
      && (text == [] || !IsPySpace(text[0]))
      && NoNewline(text)
  {
  }

  lemma {:induction false} DigitPrefixOf(line: string, digits: string)
    requires AllDigits(digits) && |digits| < |line| && line[..|digits|] == digits && !IsDigit(line[|digits|])
    ensures DigitPrefix(line) == digits
    decreases |digits|
  {
    if digits != [] {
      assert line[1..][..|digits| - 1] == digits[1..];
      DigitPrefixOf(line[1..], digits[1..]);
      assert digits == [line[0]] + digits[1..];
    }
  }

  lemma {:induction false} SpaceRunOf(line: string, i: nat, len: nat)
    requires i + len <= |line|
    requires forall k :: i <= k < i + len ==> IsPySpace(line[k])
    requires i + len == |line| || !IsPySpace(line[i + len])
    ensures SpaceRunEnd(line, i) == i + len
    decreases len
  {
    if len > 0 {
      SpaceRunOf(line, i + 1, len - 1);
    }
  }

  /** What one line does to the sections. */
  datatype LineKind =
    | Skipped
    | ChorusStart(rest: string)
    | VerseStart(labelText: string, number: nat, text: string)
    | Lyric(text: string)

  /** The rules of the loop, in their order: blank and metadata lines are
      skipped, a chorus token starts a chorus, `N text` starts verse `N`,
      and anything else is a lyric line. */
  function ClassifyLine(raw: string, lang: BlockLang): LineKind {
    var stripped := PyStrip(raw);
    if stripped == [] || IsMetadataLine(stripped) then Skipped
    else
      match ChorusRest(stripped, lang)
      case Some(rest) => ChorusStart(rest)
      case None => NumberedOrLyric(stripped)
  }

  /** The last two rules: `N text` starts verse `N`, anything else is lyric. */
  function NumberedOrLyric(stripped: string): LineKind {
    match VerseHead(stripped)
    case Some((digits, text)) => VerseStart(digits, DecimalValue(digits), PyStrip(text))
    case None => Lyric(stripped)
  }

  // ---------------------------------------------------------------------
  // The section loop
  // ---------------------------------------------------------------------

  /** `sections` and `stanza_counter` of the loop. */
  datatype BlockState = BlockState(sections: seq<ScriptSection>, counter: nat)

  /** `[text] if text else []`. */
  function FirstLines(text: string): seq<string> {
    if text == [] then [] else [text]
  }

  /** One turn of the loop. */
  function ScanLine(st: BlockState, kind: LineKind): BlockState {
    match kind
    case Skipped => st
    case ChorusStart(rest) =>
      st.(sections := st.sections + [ScriptSection(ChorusSection, "C", FirstLines(rest))])
    case VerseStart(labelText, number, text) =>
      BlockState(st.sections + [ScriptSection(VerseSection, labelText, FirstLines(text))], number)
    case Lyric(text) =>
      if st.sections == [] then
        BlockState([ScriptSection(VerseSection, NatToString(st.counter + 1), [text])], st.counter + 1)
      else
        var last := st.sections[|st.sections| - 1];
        st.(sections := st.sections[..|st.sections| - 1] + [last.(lines := last.lines + [text])])
  }

  /** The loop over the whole block. */
  function Scan(lines: seq<string>, lang: BlockLang): BlockState {
    if lines == [] then BlockState([], 0)
    else ScanLine(Scan(lines[..|lines| - 1], lang), ClassifyLine(lines[|lines| - 1], lang))
  }

  /** The second loop: each section's lines collapsed to at most four. */
  function Collapsed(sections: seq<ScriptSection>, code: LangCode): seq<ScriptSection> {
    seq(|sections|, k requires 0 <= k < |sections| =>
      sections[k].(lines := Collapse(NonBlankStripped(sections[k].lines), code, 4)))
  }

  /** The chorus-token loop: `any(...)` over the tokens and, for the first
      token that matches, the rest of the line after it. */
  method ChorusRemainder(stripped: string, text: string, tokens: seq<string>, chars: set<char>)
    returns (found: bool, rest: string)
    requires |text| == |stripped|
    ensures found <==> FirstToken(text, tokens).Some?
    ensures found ==> rest == LStripChars(stripped[|FirstToken(text, tokens).value|..], chars)
  {
    found := false;
    rest := stripped;
    var k := 0;
    while k < |tokens|
      invariant k <= |tokens|
      invariant FirstToken(text, tokens) == FirstToken(text, tokens[k..])
      decreases |tokens| - k
    {
      assert tokens[k..][0] == tokens[k] && tokens[k..][1..] == tokens[k + 1..];
      if StartsWith(text, tokens[k]) {
        found := true;
        rest := LStripChars(stripped[|tokens[k]|..], chars);
        return;
      }
      k := k + 1;
    }
  }

  /** The scan of one more line. */
  lemma ScanNext(lines: seq<string>, lang: BlockLang, i: nat)
    requires i < |lines|
    ensures Scan(lines[..i + 1], lang) == ScanLine(Scan(lines[..i], lang), ClassifyLine(lines[i], lang))
  {
    assert lines[..i + 1][..i] == lines[..i];
  }

  /** The first loop of `parse_block`: the sections and the stanza counter
      after every line of the block. */
  method ScanBlock(blockLines: seq<string>, bl: BlockLang) returns (sections: seq<ScriptSection>, stanzaCounter: nat)
    ensures BlockState(sections, stanzaCounter) == Scan(blockLines, bl)
  {
    sections := [];
    stanzaCounter := 0;
    for i := 0 to |blockLines|
      invariant BlockState(sections, stanzaCounter) == Scan(blockLines[..i], bl)
    {
      ScanNext(blockLines, bl, i);
      sections, stanzaCounter := ScanTurn(sections, stanzaCounter, blockLines[i], bl);
    }
    assert blockLines[..|blockLines|] == blockLines;
  }

  /** One turn of the first loop: blank and metadata lines, then the chorus
      tokens of the block's language. */
  method ScanTurn(sections: seq<ScriptSection>, stanzaCounter: nat, raw: string, bl: BlockLang)
    returns (sections': seq<ScriptSection>, stanzaCounter': nat)
    ensures BlockState(sections', stanzaCounter') == ScanLine(BlockState(sections, stanzaCounter), ClassifyLine(raw, bl))
  {
    sections', stanzaCounter' := sections, stanzaCounter;
    var stripped := PyStrip(raw);
    if stripped == [] || IsMetadataLine(stripped) {
      return;
    }
    if bl == BlockEn {
      var found, rest := ChorusRemainder(stripped, Lower(stripped), ChorusTokensEn, ChorusStripEn);
      if found {
        sections' := sections + [ScriptSection(ChorusSection, "C", FirstLines(rest))];
        return;
      }
    }
    if bl == BlockCn {
      var found, rest := ChorusRemainder(stripped, stripped, ChorusTokensCn, ChorusStripCn);
      if found {
        sections' := sections + [ScriptSection(ChorusSection, "C", FirstLines(rest))];
        return;
      }
    }
    assert ClassifyLine(raw, bl) == NumberedOrLyric(stripped);
    sections', stanzaCounter' := NumberedTurn(sections, stanzaCounter, stripped);
  }

  /** The rest of a turn: a numbered line starts a verse; any other line is
      added to the last section, opening a verse when there is none. */
  method NumberedTurn(sections: seq<ScriptSection>, stanzaCounter: nat, stripped: string)
    returns (sections': seq<ScriptSection>, stanzaCounter': nat)
    ensures BlockState(sections', stanzaCounter') == ScanLine(BlockState(sections, stanzaCounter), NumberedOrLyric(stripped))
  {
    sections', stanzaCounter' := sections, stanzaCounter;
    var head := VerseHead(stripped);
    if head.Some? {
      var digits := head.value.0;
      stanzaCounter' := DecimalValue(digits);
      var text := PyStrip(head.value.1);
      sections' := sections + [ScriptSection(VerseSection, digits, FirstLines(text))];
      return;
    }
    if sections' == [] {
      stanzaCounter' := stanzaCounter' + 1;
      sections' := sections' + [ScriptSection(VerseSection, NatToString(stanzaCounter'), [])];
    }
    var last := sections'[|sections'| - 1];
    if sections == [] {
      assert sections'[..|sections'| - 1] == [] && last.lines + [stripped] == [stripped];
    }
    sections' := sections'[..|sections'| - 1] + [last.(lines := last.lines + [stripped])];
  }

  /** `parse_block(block_lines, lang)`. */
  method ParseBlock(blockLines: seq<string>, lang: string) returns (sections: seq<ScriptSection>)
    ensures sections == Collapsed(Scan(blockLines, BlockLangOf(lang)).sections, CollapseLang(BlockLangOf(lang)))
  {
    var bl := BlockLangOf(lang);
    var stanzaCounter;
    sections, stanzaCounter := ScanBlock(blockLines, bl);
    var code := CollapseLang(bl);
    ghost var scanned := sections;
    for k := 0 to |sections|
      invariant |sections| == |scanned|
      invariant forall j :: 0 <= j < k ==> sections[j] == Collapsed(scanned, code)[j]
      invariant forall j :: k <= j < |sections| ==> sections[j] == scanned[j]
    {
      var collapsed := CollapseLines(sections[k].lines, code, 4);
      sections := sections[k := sections[k].(lines := collapsed)];
    }
  }

  // ---------------------------------------------------------------------
  // Properties
  // ---------------------------------------------------------------------

  /** `text.lstrip(chars)` drops exactly the leading run of `chars`. */
  lemma LStripCharsParts(text: string, chars: set<char>)
    ensures var r := LStripChars(text, chars);
      && |r| <= |text| && text == text[..|text| - |r|] + r
      && (forall k :: 0 <= k < |text| - |r| ==> text[k] in chars)
      && (r == [] || r[0] !in chars)
  {
    var j := CharRunEnd(text, chars, 0);
    assert text == text[..j] + text[j..];
  }

  /** A line starts a chorus exactly when it is not blank, holds no metadata
      token, and opens with a chorus token of the block's language, compared
      without case in English; no chorus is recognised in other blocks. */
  lemma ChorusDetected(raw: string, lang: BlockLang)
    ensures var s := PyStrip(raw);
      ClassifyLine(raw, lang).ChorusStart? <==>
        && s != [] && !IsMetadataLine(s)
        && match lang
           case BlockEn => exists k :: 0 <= k < |ChorusTokensEn| && StartsWith(Lower(s), ChorusTokensEn[k])
           case BlockCn => exists k :: 0 <= k < |ChorusTokensCn| && StartsWith(s, ChorusTokensCn[k])
           case BlockOther => false
  {
    var s := PyStrip(raw);
    match NumberedOrLyric(s)
    case VerseStart(_, _, _) =>
    case Lyric(_) =>
  }

  /** What is left of a line after a token and the separators that follow
      it. */
  lemma AfterTokenParts(stripped: string, tok: string, chars: set<char>)
    requires |tok| <= |stripped|
    ensures var rest := LStripChars(stripped[|tok|..], chars);
      && |tok| <= |stripped| - |rest| && stripped[|stripped| - |rest|..] == rest
      && (forall k :: |tok| <= k < |stripped| - |rest| ==> stripped[k] in chars)
      && (rest == [] || rest[0] !in chars)
  {
    var after := stripped[|tok|..];
    var j := CharRunEnd(after, chars, 0);
    var rest := after[j..];
    assert stripped[|stripped| - |rest|..] == rest by {
      assert stripped[|tok| + j..] == after[j..];
    }
    assert forall k :: |tok| <= k < |stripped| - |rest| ==> stripped[k] in chars by {
      assert forall k :: |tok| <= k < |tok| + j ==> stripped[k] == after[k - |tok|];
    }
  }

  /** The first line of a chorus is what follows the chorus token once the
      separators after it are dropped. */
  lemma ChorusRemainderParts(stripped: string, lang: BlockLang)
    requires ChorusRest(stripped, lang).Some?
    ensures var rest := ChorusRest(stripped, lang).value;
      && ChorusToken(stripped, lang).Some?
      && var tok := ChorusToken(stripped, lang).value;
         && |tok| <= |stripped| - |rest| && stripped[|stripped| - |rest|..] == rest
         && (forall k :: |tok| <= k < |stripped| - |rest| ==> stripped[k] in ChorusSeparators(lang))
         && (rest == [] || rest[0] !in ChorusSeparators(lang))
  {
    AfterTokenParts(stripped, ChorusToken(stripped, lang).value, ChorusSeparators(lang));
  }

  /** The sections are well labelled: a chorus is labelled "C" and a verse
      by a non-empty run of digits; before the first section the stanza
      counter is still 0. */
  predicate WellLabelled(sec: ScriptSection) {
    match sec.kind
    case ChorusSection => sec.labelText == "C"
    case VerseSection => sec.labelText != [] && AllDigits(sec.labelText)
  }

  ghost predicate ScanInvariant(st: BlockState) {
    && (forall k :: 0 <= k < |st.sections| ==> WellLabelled(st.sections[k]))
    && (st.sections == [] ==> st.counter == 0)
  }

  lemma ScanLineKeeps(st: BlockState, kind: LineKind)
    requires ScanInvariant(st)
    requires kind.VerseStart? ==> kind.labelText != [] && AllDigits(kind.labelText)
    ensures ScanInvariant(ScanLine(st, kind))
  {
    if kind.Lyric? && st.sections != [] {
      var n := |st.sections|;
      var next := ScanLine(st, kind).sections;
      assert forall k :: 0 <= k < n - 1 ==> next[k] == st.sections[k];
      assert next[n - 1].kind == st.sections[n - 1].kind && next[n - 1].labelText == st.sections[n - 1].labelText;
    }
  }

  lemma {:induction false} ScanWellLabelled(lines: seq<string>, lang: BlockLang)
    ensures ScanInvariant(Scan(lines, lang))
  {
    if lines != [] {
      ScanWellLabelled(lines[..|lines| - 1], lang);
      var kind := ClassifyLine(lines[|lines| - 1], lang);
      if kind.VerseStart? {
        var s := PyStrip(lines[|lines| - 1]);
        VerseHeadParts(s);
      }
      ScanLineKeeps(Scan(lines[..|lines| - 1], lang), kind);
    }
  }

  /** The scan of a block with one more line. */
  lemma ScanSnoc(lines: seq<string>, raw: string, lang: BlockLang)
    ensures Scan(lines + [raw], lang) == ScanLine(Scan(lines, lang), ClassifyLine(raw, lang))
  {
    assert (lines + [raw])[..|lines|] == lines;
  }

  /** A lyric line goes to the end of the last section, or opens the first
      verse. */
  lemma LyricTurn(st: BlockState, text: string)
    ensures st.sections == [] ==>
      ScanLine(st, Lyric(text)) == BlockState([ScriptSection(VerseSection, NatToString(st.counter + 1), [text])], st.counter + 1)
    ensures st.sections != [] ==>
      var before := st.sections;
      var after := ScanLine(st, Lyric(text)).sections;
      && |after| == |before|
      && after[..|after| - 1] == before[..|before| - 1]
      && after[|after| - 1] == before[|before| - 1].(lines := before[|before| - 1].lines + [text])
  {
    if st.sections != [] {
      var before := st.sections;
      var after := ScanLine(st, Lyric(text)).sections;
      assert after[..|after| - 1] == before[..|before| - 1];
    }
  }

  /** A lyric line that comes before any section opens verse "1". */
  lemma FirstLyricOpensVerseOne(lines: seq<string>, raw: string, lang: BlockLang)
    requires Scan(lines, lang).sections == []
    requires ClassifyLine(raw, lang).Lyric?
    ensures Scan(lines + [raw], lang) == BlockState([ScriptSection(VerseSection, "1", [PyStrip(raw)])], 1)
  {
    ScanWellLabelled(lines, lang);
    ScanSnoc(lines, raw, lang);
    assert ClassifyLine(raw, lang) == Lyric(PyStrip(raw));
    LyricTurn(Scan(lines, lang), PyStrip(raw));
    assert NatToString(1) == [DigitChar(1)];
  }

  /** A numbered line starts a verse labelled by its digits, with the text
      after them as its first line, and sets the stanza counter to their
      number. */
  lemma NumberedLineStartsVerse(lines: seq<string>, raw: string, lang: BlockLang)
    requires ClassifyLine(raw, lang).VerseStart?
    ensures var s := PyStrip(raw);
      var digits := DigitPrefix(s);
      && digits != []
      && Scan(lines + [raw], lang).sections == Scan(lines, lang).sections + [ScriptSection(VerseSection, digits, FirstLines(ClassifyLine(raw, lang).text))]
      && Scan(lines + [raw], lang).counter == DecimalValue(digits)
  {
    ScanSnoc(lines, raw, lang);
    VerseHeadParts(PyStrip(raw));
  }

  /** Blank lines and metadata lines change nothing. */
  lemma SkippedLineKeeps(lines: seq<string>, raw: string, lang: BlockLang)
    requires PyStrip(raw) == [] || IsMetadataLine(PyStrip(raw))
    ensures Scan(lines + [raw], lang) == Scan(lines, lang)
  {
    ScanSnoc(lines, raw, lang);
  }

  /** Every other line goes to the end of the last section. */
  lemma LyricLineAppends(lines: seq<string>, raw: string, lang: BlockLang)
    requires Scan(lines, lang).sections != []
    requires ClassifyLine(raw, lang).Lyric?
    ensures var before := Scan(lines, lang).sections;
      var after := Scan(lines + [raw], lang).sections;
      && |after| == |before|
      && after[..|after| - 1] == before[..|before| - 1]
      && after[|after| - 1] == before[|before| - 1].(lines := before[|before| - 1].lines + [PyStrip(raw)])
  {
    ScanSnoc(lines, raw, lang);
    assert ClassifyLine(raw, lang) == Lyric(PyStrip(raw));
    LyricTurn(Scan(lines, lang), PyStrip(raw));
  }

  /** The lines of all sections, in order. */
  function SectionText(sections: seq<ScriptSection>): seq<string> {
    if sections == [] then [] else SectionText(sections[..|sections| - 1]) + sections[|sections| - 1].lines
  }

  /** The text a line contributes to the sections. */
  function LineText(kind: LineKind): seq<string> {
    match kind
    case Skipped => []
    case ChorusStart(rest) => FirstLines(rest)
    case VerseStart(_, _, text) => FirstLines(text)
    case Lyric(text) => [text]
  }

  function BlockText(lines: seq<string>, lang: BlockLang): seq<string> {
    if lines == [] then [] else BlockText(lines[..|lines| - 1], lang) + LineText(ClassifyLine(lines[|lines| - 1], lang))
  }

  /** One turn adds the line's text after the text already there. */
  lemma LineTextAppends(st: BlockState, kind: LineKind)
    ensures SectionText(ScanLine(st, kind).sections) == SectionText(st.sections) + LineText(kind)
  {
    var secs := ScanLine(st, kind).sections;
    match kind
    case Skipped =>
    case ChorusStart(_) =>
      assert secs[..|secs| - 1] == st.sections;
    case VerseStart(_, _, _) =>
      assert secs[..|secs| - 1] == st.sections;
    case Lyric(text) =>
      if st.sections == [] {
        assert secs[..0] == [];
      } else {
        var init := st.sections[..|st.sections| - 1];
        assert secs[..|secs| - 1] == init;
        assert st.sections[..|st.sections| - 1] == init;
      }
  }

  /** No text is lost, added or reordered by the section loop: the lines of
      the sections, read in order, are the texts the lines contribute. */
  lemma {:induction false} ScanKeepsText(lines: seq<string>, lang: BlockLang)
    ensures SectionText(Scan(lines, lang).sections) == BlockText(lines, lang)
  {
    if lines != [] {
      var init := lines[..|lines| - 1];
      ScanKeepsText(init, lang);
      LineTextAppends(Scan(init, lang), ClassifyLine(lines[|lines| - 1], lang));
    }
  }

  /** What `parse_block` returns: one section per section of the loop, of
      the same type and label, with at most four lines, each non-empty and
      stripped. */
  lemma ParseBlockShape(blockLines: seq<string>, lang: string)
    ensures var scanned := Scan(blockLines, BlockLangOf(lang)).sections;
      var result := Collapsed(scanned, CollapseLang(BlockLangOf(lang)));
      && |result| == |scanned|
      && forall k :: 0 <= k < |result| ==>
        && result[k].kind == scanned[k].kind
        && result[k].labelText == scanned[k].labelText
        && WellLabelled(result[k])
        && |result[k].lines| <= 4
        && (forall j :: 0 <= j < |result[k].lines| ==> IsStrippedLine(result[k].lines[j]))
  {
    var bl := BlockLangOf(lang);
    var scanned := Scan(blockLines, bl).sections;
    var code := CollapseLang(bl);
    ScanWellLabelled(blockLines, bl);
    forall k | 0 <= k < |scanned|
      ensures var lines := Collapse(NonBlankStripped(scanned[k].lines), code, 4);
        |lines| <= 4 && forall j :: 0 <= j < |lines| ==> IsStrippedLine(lines[j])
    {
      CollapseBounds(NonBlankStripped(scanned[k].lines), code, 4);
      CollapseStripped(NonBlankStripped(scanned[k].lines), code, 4);
    }
  }
}
