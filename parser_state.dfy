/**
 * The working state of `parseHymnFile` (src/App.tsx) as a value, and each of
 * its helpers as a function from the old state to the new one. The class in
 * module HymnParser performs these updates in place and is proved to agree
 * with them; module ParserProperties proves what they guarantee.
 */
module ParserState {
  import opened Wrappers
  import opened Strings
  import opened Hymn
  import opened HymnHeadings

  /** A working section record: label, lines per language, type, and whether
      a Chinese heading has been paired with it. */
  datatype Section = Section(
    labelText: string,
    english: seq<string>,
    chinese: seq<string>,
    stype: SectionType,
    hasChinese: bool)

  /** Every variable the pass updates. `currentSectionKey` is "" before the
      first heading, as in the source. */
  datatype ParseState = ParseState(
    title: string,
    ccliNo: Option<string>,
    inMetadata: bool,
    currentSectionKey: string,
    currentLanguage: Option<Language>,
    verseOrder: seq<string>,
    sectionCounts: map<string, nat>,
    baseQueues: map<string, seq<string>>,
    baseKeyBySection: map<string, string>,
    sections: map<string, Section>)

  const Initial: ParseState :=
    ParseState("Untitled", None, true, "", None, [], map[], map[], map[], map[])

  function QueueOf(queues: map<string, seq<string>>, base: string): seq<string> {
    if base in queues then queues[base] else []
  }

  /** `sectionCounts[baseKey] || 0` */
  function CountOf(counts: map<string, nat>, base: string): nat {
    if base in counts then counts[base] else 0
  }

  /** `sections[key]?.hasChinese` */
  predicate HasChinese(sections: map<string, Section>, key: string) {
    key in sections && sections[key].hasChinese
  }

  /** The position of the oldest queued key not yet paired with Chinese. */
  function FirstPending(queue: seq<string>, sections: map<string, Section>): (r: Option<nat>)
    ensures r.Some? ==> r.value < |queue| && !HasChinese(sections, queue[r.value])
    ensures r.Some? ==> forall j :: 0 <= j < r.value ==> HasChinese(sections, queue[j])
    ensures r.None? ==> forall j :: 0 <= j < |queue| ==> HasChinese(sections, queue[j])
  {
    if queue == [] then None
    else if !HasChinese(sections, queue[0]) then Some(0)
    else match FirstPending(queue[1..], sections)
      case None => None
      case Some(i) => Some(i + 1)
  }

  /** A section with no Chinese yet, of type `t` when one is given. A key
      without a record never qualifies (the source's `find` callbacks would
      read `undefined` there; module ParserProperties shows no such key occurs). */
  predicate Unpaired(sections: map<string, Section>, key: string, t: Option<SectionType>) {
    key in sections && !sections[key].hasChinese && (t.None? || sections[key].stype == t.value)
  }

  /** `verseOrder.find(...)`: the first position of an unpaired section (of
      type `t` when one is given). */
  function FirstUnpaired(order: seq<string>, sections: map<string, Section>, t: Option<SectionType>): (r: Option<nat>)
    ensures r.Some? ==> r.value < |order| && Unpaired(sections, order[r.value], t)
    ensures r.Some? ==> forall j :: 0 <= j < r.value ==> !Unpaired(sections, order[j], t)
    ensures r.None? ==> forall j :: 0 <= j < |order| ==> !Unpaired(sections, order[j], t)
  {
    if order == [] then None
    else if Unpaired(sections, order[0], t) then Some(0)
    else match FirstUnpaired(order[1..], sections, t)
      case None => None
      case Some(i) => Some(i + 1)
  }

  /** `queue.indexOf(key)` */
  function IndexOf(q: seq<string>, key: string): (i: int)
    ensures -1 <= i < |q|
    ensures i >= 0 ==> q[i] == key && key !in q[..i]
    ensures i < 0 <==> key !in q
  {
    if q == [] then -1
    else if q[0] == key then 0
    else
      var j := IndexOf(q[1..], key);
      assert j >= 0 ==> q[1..][..j] == q[1..j + 1];
      if j < 0 then -1 else j + 1
  }

  /** A section with one more line in the given language. */
  function Appended(s: Section, lang: Language, line: string): Section {
    if lang == English then s.(english := s.english + [line]) else s.(chinese := s.chinese + [line])
  }

  // ---- createSectionKey ----

  /** The key `createSectionKey(base)` returns: `base` for the first
      occurrence, `base#N` for the Nth. */
  function NextKey(st: ParseState, base: string): string {
    KeyFor(base, CountOf(st.sectionCounts, base) + 1)
  }

  /** The state after `createSectionKey(base)`: one more occurrence counted. */
  function Counted(st: ParseState, base: string): ParseState {
    st.(sectionCounts := st.sectionCounts[base := CountOf(st.sectionCounts, base) + 1])
  }

  // ---- ensureSectionRecord ----

  function WithRecord(sections: map<string, Section>, key: string, labelText: string, t: SectionType): (r: map<string, Section>)
    ensures key in r
  {
    if key !in sections then sections[key := Section(labelText, [], [], t, false)]
    else if sections[key].labelText == "" then sections[key := sections[key].(labelText := labelText)]
    else sections
  }

  /** The state after `ensureSectionRecord(key, label, t)`: a key without a
      record gets an empty one and joins the presentation order; an existing
      record only gains a label when it had none. */
  function EnsureRecord(st: ParseState, key: string, labelText: string, t: SectionType): ParseState {
    st.(sections := WithRecord(st.sections, key, labelText, t),
        verseOrder := if key in st.sections then st.verseOrder else st.verseOrder + [key])
  }

  // ---- releaseFromBaseQueue ----

  /** The queues after `releaseFromBaseQueue(key)`: the first occurrence of
      `key` leaves the queue of the base it was last recorded under. */
  function Released(queues: map<string, seq<string>>, baseOf: map<string, string>, key: string): map<string, seq<string>> {
    if key in baseOf && baseOf[key] != "" && baseOf[key] in queues && IndexOf(queues[baseOf[key]], key) >= 0 then
      var q := queues[baseOf[key]];
      var i := IndexOf(q, key);
      queues[baseOf[key] := q[..i] + q[i + 1..]]
    else queues
  }

  // ---- findSectionForChinese ----

  /** `baseKey || \`section-${verseOrder.length + 1}\`` */
  function SynthBase(base: string, orderLength: nat): string {
    if base != "" then base else "section-" + NatToString(orderLength + 1)
  }

  /** The section a Chinese heading with this base and type is paired with,
      in priority order: the oldest queued section of the same base without
      Chinese; the first section of the same type without Chinese; the first
      section without Chinese; a new key. */
  function ChineseTarget(st: ParseState, base: string, t: SectionType): string {
    match Pending(st.baseQueues, st.sections, base)
    case Some(key) => key
    case None =>
      match FirstUnpaired(st.verseOrder, st.sections, Some(t))
      case Some(j) => st.verseOrder[j]
      case None =>
        match FirstUnpaired(st.verseOrder, st.sections, None)
        case Some(j) => st.verseOrder[j]
        case None => NextKey(st, SynthBase(base, |st.verseOrder|))
  }

  /** The oldest key in the base's queue not yet paired with Chinese. */
  function Pending(queues: map<string, seq<string>>, sections: map<string, Section>, base: string): Option<string> {
    var q := QueueOf(queues, base);
    match FirstPending(q, sections)
    case Some(i) => Some(q[i])
    case None => None
  }

  /** No queued, typed or untyped candidate exists. */
  predicate NeedsSynthesis(st: ParseState, base: string, t: SectionType) {
    && Pending(st.baseQueues, st.sections, base).None?
    && FirstUnpaired(st.verseOrder, st.sections, Some(t)).None?
    && FirstUnpaired(st.verseOrder, st.sections, None).None?
  }

  /** The queues after the lookup: `queue.shift()` has consumed every entry up
      to and including the one returned, or all of them when none qualified. */
  function QueuesAfterLookup(queues: map<string, seq<string>>, sections: map<string, Section>, base: string): map<string, seq<string>> {
    var q := QueueOf(queues, base);
    match FirstPending(q, sections)
    case Some(i) => queues[base := q[i + 1..]]
    case None => if base in queues then queues[base := []] else queues
  }

  /** The state after `findSectionForChinese(base, t, labelText)`. Only the last
      resort changes more than the base's queue. */
  function AfterLookup(st: ParseState, base: string, t: SectionType, labelText: string): ParseState {
    var st1 := st.(baseQueues := QueuesAfterLookup(st.baseQueues, st.sections, base));
    if NeedsSynthesis(st, base, t) then
      var d := SynthBase(base, |st.verseOrder|);
      var key := NextKey(st, d);
      var st2 := EnsureRecord(Counted(st1, d), key, labelText, t);
      st2.(baseKeyBySection := st2.baseKeyBySection[key := d])
    else st1
  }

  // ---- handleSectionHeading ----

  /** An English heading: a fresh occurrence key, recorded, queued under its base. */
  function AfterEnglishHeading(st: ParseState, base: string): ParseState {
    var baseKey := NormalizeBase(base);
    var key := NextKey(st, baseKey);
    var st1 := EnsureRecord(Counted(st, baseKey), key, base, DetectType(base));
    st1.(baseKeyBySection := st1.baseKeyBySection[key := baseKey],
         baseQueues := st1.baseQueues[baseKey := QueueOf(st1.baseQueues, baseKey) + [key]],
         currentSectionKey := key,
         currentLanguage := Some(English))
  }

  /** A Chinese heading: the target section is recorded, released from its
      queue and marked as paired. */
  function AfterChineseHeading(st: ParseState, base: string): ParseState {
    var baseKey := NormalizeBase(base);
    var t := DetectType(base);
    var key := ChineseTarget(st, baseKey, t);
    var st1 := AfterLookup(st, baseKey, t, base);
    var existing := if key in st1.sections && st1.sections[key].labelText != "" then st1.sections[key].labelText else base;
    var st2 := EnsureRecord(st1, key, existing, t);
    var st3 := st2.(baseQueues := Released(st2.baseQueues, st2.baseKeyBySection, key));
    st3.(sections := st3.sections[key := st3.sections[key].(hasChinese := true)],
         currentSectionKey := key,
         currentLanguage := Some(Chinese))
  }

  function AfterHeading(st: ParseState, h: Heading): ParseState {
    if h.lang == English then AfterEnglishHeading(st, h.base) else AfterChineseHeading(st, h.base)
  }

  // ---- the line loop ----

  /** A content line goes to the active section's list for the active language. */
  function AppendLine(st: ParseState, line: string): ParseState {
    var key := st.currentSectionKey;
    if line != "" && key != "" && st.currentLanguage.Some? && key in st.sections then
      st.(sections := st.sections[key := Appended(st.sections[key], st.currentLanguage.value, line)])
    else st
  }

  /** One iteration of `for (const line of lines)`. */
  function AfterLine(st: ParseState, line: string): ParseState {
    Step(st, line, MatchSectionHeading(line))
  }

  /** One iteration, given what `matchSectionHeading(line)` returned. */
  function Step(st: ParseState, line: string, m: Option<Heading>): ParseState {
    if st.inMetadata then
      if StartsWith(line, "Title:") then st.(title := JsTrim(line[6..]))
      else if StartsWith(line, "CCLI:") then st.(ccliNo := Some(JsTrim(line[5..])))
      else match m
        case Some(h) => AfterHeading(st, h).(inMetadata := false)
        case None => st
    else match m
      case Some(h) => AfterHeading(st, h)
      case None => AppendLine(st, line)
  }

  /** The state after the loop has seen `lines`. */
  function Run(lines: seq<string>): ParseState {
    if lines == [] then Initial else AfterLine(Run(lines[..|lines| - 1]), lines[|lines| - 1])
  }

  // ---- assembling the song ----

  /** The verse the second loop builds for a section record. */
  function VerseOf(s: Section): Verse {
    Verse(s.labelText, Interleaved(s.english, s.chinese), s.stype)
  }

  /** `verses` after the second loop has visited `keys`. */
  function VersesOf(keys: seq<string>, sections: map<string, Section>): map<string, Verse> {
    if keys == [] then map[]
    else
      var key := keys[|keys| - 1];
      var verses := VersesOf(keys[..|keys| - 1], sections);
      if key in sections then verses[key := VerseOf(sections[key])] else verses
  }

  // ---- input lines ----

  /** `text.split(/\r?\n/)`: pieces between line feeds, each without the
      carriage return that precedes its line feed. */
  function SplitLines(text: string): (r: seq<string>)
    ensures |r| >= 1
    decreases |text|
  {
    match FirstIndexOf(text, c => c == '\n')
    case None => [text]
    case Some(i) =>
      var piece := text[..i];
      var piece' := if piece != [] && piece[|piece| - 1] == '\r' then piece[..|piece| - 1] else piece;
      [piece'] + SplitLines(text[i + 1..])
  }

  /** `.map(line => line.trim()).filter(Boolean)` */
  function TrimmedNonEmpty(pieces: seq<string>): (r: seq<string>)
    ensures forall i :: 0 <= i < |r| ==> r[i] != ""
  {
    if pieces == [] then []
    else
      var t := JsTrim(pieces[0]);
      (if t == "" then [] else [t]) + TrimmedNonEmpty(pieces[1..])
  }

  function SourceLines(text: string): seq<string> {
    TrimmedNonEmpty(SplitLines(text))
  }

  // ---- reference definitions of what the loop extracts ----

  /** A line that ends the metadata block: a recognised heading that is not a
      `Title:` or `CCLI:` line. */
  predicate EndsMetadata(line: string) {
    !StartsWith(line, "Title:") && !StartsWith(line, "CCLI:") && MatchSectionHeading(line).Some?
  }

  /** The index of the first element satisfying `p`, or |s| when none does. */
  function FirstWhere<T>(s: seq<T>, p: T -> bool): (r: nat)
    ensures r <= |s|
  {
    if s == [] then 0
    else if p(s[0]) then 0
    else 1 + FirstWhere(s[1..], p)
  }

  lemma {:induction false} FirstWhereIsFirst<T>(s: seq<T>, p: T -> bool)
    ensures FirstWhere(s, p) < |s| ==> p(s[FirstWhere(s, p)])
    ensures forall j :: 0 <= j < FirstWhere(s, p) ==> !p(s[j])
  {
    if s != [] && !p(s[0]) {
      FirstWhereIsFirst(s[1..], p);
      assert forall j :: 1 <= j < FirstWhere(s, p) ==> s[j] == s[1..][j - 1];
    }
  }

  /** Extending the sequence moves the first match only when there was none. */
  lemma {:induction false} FirstWhereSnoc<T>(s: seq<T>, x: T, p: T -> bool)
    ensures FirstWhere(s + [x], p) ==
      if FirstWhere(s, p) < |s| then FirstWhere(s, p)
      else if p(x) then |s| else |s| + 1
  {
    if s == [] {
      assert [x][1..] == [];
    } else {
      assert (s + [x])[0] == s[0];
      assert (s + [x])[1..] == s[1..] + [x];
      FirstWhereSnoc(s[1..], x, p);
    }
  }

  /** The index of the first line that ends the metadata block, or |lines|. */
  function MetadataEnd(lines: seq<string>): (r: nat)
    ensures r <= |lines|
  {
    FirstWhere(lines, EndsMetadata)
  }

  /** The trimmed rest of the last line starting with `prefix`. */
  function LastValue(lines: seq<string>, prefix: string): Option<string> {
    if lines == [] then None
    else
      var l := lines[|lines| - 1];
      if StartsWith(l, prefix) then Some(JsTrim(l[|prefix|..]))
      else LastValue(lines[..|lines| - 1], prefix)
  }

  /** The title the last `Title:` line of the metadata block gives, or "Untitled". */
  function TitleOf(lines: seq<string>): string {
    LastValue(lines[..MetadataEnd(lines)], "Title:").GetOr("Untitled")
  }

  function CcliOf(lines: seq<string>): Option<string> {
    LastValue(lines[..MetadataEnd(lines)], "CCLI:")
  }

  /** The non-empty lines that are not headings. */
  function NonHeadings(lines: seq<string>): seq<string> {
    if lines == [] then []
    else
      var l := lines[|lines| - 1];
      NonHeadings(lines[..|lines| - 1]) + (if l != "" && MatchSectionHeading(l).None? then [l] else [])
  }

  /** The lyric lines: those after the first heading that are not headings. */
  function ContentLines(lines: seq<string>): seq<string> {
    var f := MetadataEnd(lines);
    if f == |lines| then [] else NonHeadings(lines[f + 1..])
  }

  /** A Chinese heading that the loop would handle as one. */
  predicate IsChineseHeading(line: string) {
    MatchSectionHeading(line).Some? && MatchSectionHeading(line).value.lang == Chinese
  }
}
