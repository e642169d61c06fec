/**
 * What the pending queues of `parseHymnFile` (src/App.tsx:41-104) promise:
 * every key still waiting in a queue belongs to a section with no Chinese
 * yet, and the section a Chinese heading is paired with is left in no queue.
 *
 * Both rest on `createSectionKey` handing out keys no section has yet. That
 * holds as long as no base label contains '#'; a base such as "Verse 1#2"
 * gets the same key as the second "Verse 1", and the two headings then
 * share one record.
 */
module QueueProperties {
  import opened Wrappers
  import opened Strings
  import opened Hymn
  import opened HymnHeadings
  import opened ParserState
  import opened ParserProperties

  predicate NoHash(s: string) {
    '#' !in s
  }

  /** `key` is one of the occurrence keys already handed out for `base`. */
  predicate Issued(key: string, base: string, counts: map<string, nat>) {
    exists n: nat :: 1 <= n <= CountOf(counts, base) && key == KeyFor(base, n)
  }

  /** Every section remembers the '#'-free base its key was issued for. */
  predicate KeysIssuedIn(sections: map<string, Section>, baseOf: map<string, string>, counts: map<string, nat>) {
    forall k :: k in sections ==>
      && k in baseOf
      && NoHash(baseOf[k])
      && Issued(k, baseOf[k], counts)
  }

  predicate KeysIssued(st: ParseState) {
    KeysIssuedIn(st.sections, st.baseKeyBySection, st.sectionCounts)
  }

  predicate NoRepeats(q: seq<string>) {
    forall i, j :: 0 <= i < j < |q| ==> q[i] != q[j]
  }

  /** Every queued key is a section without Chinese, queued once, under the
      base it was recorded with; no queue belongs to the empty base. */
  predicate QueuesCleanIn(queues: map<string, seq<string>>, baseOf: map<string, string>, sections: map<string, Section>) {
    && (forall b, k :: b in queues && k in queues[b] ==>
          && k in sections
          && !sections[k].hasChinese
          && k in baseOf
          && baseOf[k] == b)
    && (forall b :: b in queues ==> b != "" && NoRepeats(queues[b]))
  }

  predicate QueuesClean(st: ParseState) {
    QueuesCleanIn(st.baseQueues, st.baseKeyBySection, st.sections)
  }

  predicate Pairing(st: ParseState) {
    KeysIssued(st) && QueuesClean(st)
  }

  // ---- fresh keys ----

  /** For '#'-free bases, a key determines both its base and its occurrence. */
  lemma KeyForUnique(b: string, m: nat, c: string, n: nat)
    requires NoHash(b) && NoHash(c) && 1 <= m && 1 <= n
    ensures KeyFor(b, m) == KeyFor(c, n) ==> b == c && m == n
  {
    var k, k' := KeyFor(b, m), KeyFor(c, n);
    assert m != 1 ==> k[|b|] == '#';
    assert n != 1 ==> k'[|c|] == '#';
    if k == k' && m != 1 && n != 1 {
      // '#' first occurs at |b| in k and at |c| in k'.
      assert forall i :: 0 <= i < |b| ==> k[i] == b[i];
      assert forall i :: 0 <= i < |c| ==> k'[i] == c[i];
      assert |b| == |c|;
      assert b == k[..|b|];
      assert c == k'[..|c|];
      assert k[|b| + 1..] == NatToString(m);
      assert k'[|c| + 1..] == NatToString(n);
      NatToStringInjective(m, n);
    }
  }

  /** The next key of a '#'-free base has no record yet. */
  lemma FreshKey(st: ParseState, b: string)
    requires KeysIssued(st) && NoHash(b)
    ensures NextKey(st, b) !in st.sections
  {
    forall k | k in st.sections
      ensures k != NextKey(st, b)
    {
      var c := st.baseKeyBySection[k];
      var n: nat :| 1 <= n <= CountOf(st.sectionCounts, c) && k == KeyFor(c, n);
      KeyForUnique(b, CountOf(st.sectionCounts, b) + 1, c, n);
    }
  }

  /** A new key, issued for `d` and recorded with section `sec`. */
  lemma IssueKey(st: ParseState, d: string, key: string, sec: Section)
    requires KeysIssued(st) && NoHash(d) && key == NextKey(st, d)
    ensures KeysIssuedIn(st.sections[key := sec], st.baseKeyBySection[key := d], Counted(st, d).sectionCounts)
  {
    var counts := Counted(st, d).sectionCounts;
    forall k | k in st.sections && k != key
      ensures Issued(k, st.baseKeyBySection[k], counts)
    {
      var c := st.baseKeyBySection[k];
      var n: nat :| 1 <= n <= CountOf(st.sectionCounts, c) && k == KeyFor(c, n);
      assert 1 <= n <= CountOf(counts, c);
    }
    assert 1 <= CountOf(counts, d) && key == KeyFor(d, CountOf(counts, d));
  }

  /** Queuing a new, unpaired key under a non-empty base. */
  lemma EnqueueClean(queues: map<string, seq<string>>, baseOf: map<string, string>, sections: map<string, Section>,
                     b: string, key: string, sec: Section)
    requires QueuesCleanIn(queues, baseOf, sections)
    requires key !in sections && b != "" && !sec.hasChinese
    ensures QueuesCleanIn(queues[b := QueueOf(queues, b) + [key]], baseOf[key := b], sections[key := sec])
  {
    var q := QueueOf(queues, b);
    assert key !in q by {
      assert forall j :: 0 <= j < |q| ==> q[j] in q;
    }
    assert NoRepeats(q + [key]) by {
      assert b in queues ==> NoRepeats(q);
    }
  }

  // ---- one heading ----

  /** An English heading queues a new, unpaired key under its base. */
  lemma EnglishPairing(st: ParseState, base: string)
    requires Pairing(st)
    requires NormalizeBase(base) != "" && NoHash(NormalizeBase(base))
    ensures Pairing(AfterEnglishHeading(st, base))
  {
    var baseKey := NormalizeBase(base);
    var key := NextKey(st, baseKey);
    var sec := Section(base, [], [], DetectType(base), false);
    FreshKey(st, baseKey);
    IssueKey(st, baseKey, key, sec);
    EnqueueClean(st.baseQueues, st.baseKeyBySection, st.sections, baseKey, key, sec);
    var st' := AfterEnglishHeading(st, base);
    assert st'.sections == st.sections[key := sec];
    assert st'.baseKeyBySection == st.baseKeyBySection[key := baseKey];
    assert st'.baseQueues == st.baseQueues[baseKey := QueueOf(st.baseQueues, baseKey) + [key]];
    assert st'.sectionCounts == Counted(st, baseKey).sectionCounts;
  }

  lemma NoRepeatsSuffix(q: seq<string>, i: nat)
    requires NoRepeats(q) && i <= |q|
    ensures NoRepeats(q[i..])
  {
    forall x, y | 0 <= x < y < |q| - i
      ensures q[i..][x] != q[i..][y]
    {
      assert q[i..][x] == q[i + x] && q[i..][y] == q[i + y];
      assert q[i + x] != q[i + y];
    }
  }

  /** Replacing one queue by a suffix of itself. */
  lemma SuffixClean(queues: map<string, seq<string>>, baseOf: map<string, string>, sections: map<string, Section>, b: string, i: nat)
    requires QueuesCleanIn(queues, baseOf, sections)
    requires b in queues && i <= |queues[b]|
    ensures QueuesCleanIn(queues[b := queues[b][i..]], baseOf, sections)
  {
    var q := queues[b];
    assert forall c :: c in q[i..] ==> c in q;
    NoRepeatsSuffix(q, i);
  }

  /** The lookup's queue scan only drops entries. */
  lemma ShiftClean(queues: map<string, seq<string>>, baseOf: map<string, string>, sections: map<string, Section>, b: string)
    requires QueuesCleanIn(queues, baseOf, sections)
    ensures QueuesCleanIn(QueuesAfterLookup(queues, sections, b), baseOf, sections)
  {
    var q := QueueOf(queues, b);
    match FirstPending(q, sections)
    case Some(i) =>
      SuffixClean(queues, baseOf, sections, b, i + 1);
    case None =>
      if b in queues {
        SuffixClean(queues, baseOf, sections, b, |q|);
      }
  }

  /** A synthesised base is '#'-free whenever the heading's base is. */
  lemma SynthBaseNoHash(base: string, n: nat)
    requires NoHash(base)
    ensures NoHash(SynthBase(base, n))
  {
    if base == "" {
      var digits := NatToString(n + 1);
      assert forall i :: 0 <= i < |digits| ==> IsDigit(digits[i]);
      assert forall i :: 0 <= i < |"section-" + digits| ==> ("section-" + digits)[i] != '#';
    }
  }

  /** Recording a new key under a base queues it nowhere. */
  lemma RecordClean(queues: map<string, seq<string>>, baseOf: map<string, string>, sections: map<string, Section>,
                    key: string, b: string, sec: Section)
    requires QueuesCleanIn(queues, baseOf, sections) && key !in sections
    ensures QueuesCleanIn(queues, baseOf[key := b], sections[key := sec])
  {
  }

  /** The last resort of the lookup: a fresh key, recorded, queued nowhere. */
  lemma SynthPairing(st: ParseState, queues1: map<string, seq<string>>, d: string, labelText: string, t: SectionType)
    requires Pairing(st) && NoHash(d)
    requires QueuesCleanIn(queues1, st.baseKeyBySection, st.sections)
    ensures Pairing(EnsureRecord(Counted(st.(baseQueues := queues1), d), NextKey(st, d), labelText, t)
                      .(baseKeyBySection := st.baseKeyBySection[NextKey(st, d) := d]))
  {
    var key := NextKey(st, d);
    FreshKey(st, d);
    var sec := Section(labelText, [], [], t, false);
    IssueKey(st, d, key, sec);
    RecordClean(queues1, st.baseKeyBySection, st.sections, key, d, sec);
    var st1 := Counted(st.(baseQueues := queues1), d);
    assert EnsureRecord(st1, key, labelText, t).sections == st.sections[key := sec];
  }

  /** The lookup of a '#'-free base keeps the invariant. */
  lemma LookupPairing(st: ParseState, base: string, t: SectionType, labelText: string)
    requires Pairing(st) && NoHash(base)
    ensures Pairing(AfterLookup(st, base, t, labelText))
  {
    ShiftClean(st.baseQueues, st.baseKeyBySection, st.sections, base);
    var queues1 := QueuesAfterLookup(st.baseQueues, st.sections, base);
    if NeedsSynthesis(st, base, t) {
      SynthBaseNoHash(base, |st.verseOrder|);
      SynthPairing(st, queues1, SynthBase(base, |st.verseOrder|), labelText, t);
    }
  }

  /** Dropping the entry at `i` of a queue without repeats. */
  lemma NoRepeatsRemove(q: seq<string>, i: nat)
    requires NoRepeats(q) && i < |q|
    ensures NoRepeats(q[..i] + q[i + 1..])
    ensures q[i] !in q[..i] + q[i + 1..]
    ensures forall c :: c in q[..i] + q[i + 1..] ==> c in q
  {
    var q' := q[..i] + q[i + 1..];
    assert forall j :: 0 <= j < |q'| ==> q'[j] == (if j < i then q[j] else q[j + 1]);
  }

  /** Dropping one entry of a queue; the entry then occurs in no queue. */
  lemma RemoveClean(queues: map<string, seq<string>>, baseOf: map<string, string>, sections: map<string, Section>, b: string, i: nat)
    requires QueuesCleanIn(queues, baseOf, sections)
    requires b in queues && i < |queues[b]|
    ensures QueuesCleanIn(queues[b := queues[b][..i] + queues[b][i + 1..]], baseOf, sections)
    ensures queues[b][i] !in queues[b][..i] + queues[b][i + 1..]
  {
    NoRepeatsRemove(queues[b], i);
  }

  /** A key is queued, if at all, under the base recorded for it. */
  lemma QueuedUnderBase(queues: map<string, seq<string>>, baseOf: map<string, string>, sections: map<string, Section>, key: string)
    requires QueuesCleanIn(queues, baseOf, sections)
    ensures forall b :: b in queues && key in queues[b] ==>
      key in baseOf && baseOf[key] == b && b != "" && IndexOf(queues[b], key) >= 0
  {
  }

  /** `releaseFromBaseQueue(key)` removes the key's only queue entry. */
  lemma ReleasedClean(queues: map<string, seq<string>>, baseOf: map<string, string>, sections: map<string, Section>, key: string)
    requires QueuesCleanIn(queues, baseOf, sections)
    ensures QueuesCleanIn(Released(queues, baseOf, key), baseOf, sections)
    ensures forall b :: b in Released(queues, baseOf, key) ==> key !in Released(queues, baseOf, key)[b]
  {
    QueuedUnderBase(queues, baseOf, sections, key);
    if key in baseOf && baseOf[key] != "" && baseOf[key] in queues && IndexOf(queues[baseOf[key]], key) >= 0 {
      RemoveClean(queues, baseOf, sections, baseOf[key], IndexOf(queues[baseOf[key]], key));
    }
  }

  /** Replacing the record of an existing key keeps every key issued. */
  lemma ReplaceIssued(sections: map<string, Section>, baseOf: map<string, string>, counts: map<string, nat>, key: string, sec: Section)
    requires KeysIssuedIn(sections, baseOf, counts) && key in sections
    ensures KeysIssuedIn(sections[key := sec], baseOf, counts)
  {
  }

  /** Replacing a record without changing whether it is paired. */
  lemma ReplaceClean(queues: map<string, seq<string>>, baseOf: map<string, string>, sections: map<string, Section>, key: string, sec: Section)
    requires QueuesCleanIn(queues, baseOf, sections) && key in sections
    requires sec.hasChinese == sections[key].hasChinese
    ensures QueuesCleanIn(queues, baseOf, sections[key := sec])
  {
  }

  /** Pairing a section that no queue holds. */
  lemma MarkClean(queues: map<string, seq<string>>, baseOf: map<string, string>, sections: map<string, Section>, key: string)
    requires QueuesCleanIn(queues, baseOf, sections) && key in sections
    requires forall b :: b in queues ==> key !in queues[b]
    ensures QueuesCleanIn(queues, baseOf, sections[key := sections[key].(hasChinese := true)])
  {
  }

  /** `ensureSectionRecord` on a recorded key only relabels it. */
  lemma RecordPairing(st: ParseState, key: string, labelText: string, t: SectionType)
    requires Pairing(st) && key in st.sections
    ensures Pairing(EnsureRecord(st, key, labelText, t))
    ensures key in EnsureRecord(st, key, labelText, t).sections
  {
    var sec := WithRecord(st.sections, key, labelText, t)[key];
    assert WithRecord(st.sections, key, labelText, t) == st.sections[key := sec];
    ReplaceIssued(st.sections, st.baseKeyBySection, st.sectionCounts, key, sec);
    ReplaceClean(st.baseQueues, st.baseKeyBySection, st.sections, key, sec);
  }

  /** The tail of a Chinese heading: release the target, pair it, activate it. */
  lemma ReleaseAndPair(st: ParseState, key: string)
    requires Pairing(st) && key in st.sections
    ensures var st3 := st.(baseQueues := Released(st.baseQueues, st.baseKeyBySection, key));
      var st' := st3.(sections := st3.sections[key := st3.sections[key].(hasChinese := true)],
                      currentSectionKey := key, currentLanguage := Some(Chinese));
      && Pairing(st')
      && HasChinese(st'.sections, key)
      && (forall b :: b in st'.baseQueues ==> key !in st'.baseQueues[b])
  {
    ReleasedClean(st.baseQueues, st.baseKeyBySection, st.sections, key);
    var st3 := st.(baseQueues := Released(st.baseQueues, st.baseKeyBySection, key));
    MarkClean(st3.baseQueues, st3.baseKeyBySection, st3.sections, key);
    ReplaceIssued(st3.sections, st3.baseKeyBySection, st3.sectionCounts, key, st3.sections[key].(hasChinese := true));
  }

  /** A Chinese heading of a '#'-free base keeps the invariant; its section
      is paired and left in no queue. */
  lemma ChinesePairing(st: ParseState, base: string)
    requires Inv(st) && Pairing(st) && NoHash(NormalizeBase(base))
    ensures Pairing(AfterChineseHeading(st, base))
    ensures HasChinese(AfterChineseHeading(st, base).sections, AfterChineseHeading(st, base).currentSectionKey)
    ensures forall b :: b in AfterChineseHeading(st, base).baseQueues ==>
      AfterChineseHeading(st, base).currentSectionKey !in AfterChineseHeading(st, base).baseQueues[b]
  {
    var baseKey := NormalizeBase(base);
    var t := DetectType(base);
    var key := ChineseTarget(st, baseKey, t);
    LookupPairing(st, baseKey, t, base);
    LookupStep(st, baseKey, t, base);
    var st1 := AfterLookup(st, baseKey, t, base);
    var existing := if key in st1.sections && st1.sections[key].labelText != "" then st1.sections[key].labelText else base;
    RecordPairing(st1, key, existing, t);
    var st2 := EnsureRecord(st1, key, existing, t);
    ReleaseAndPair(st2, key);
  }

  // ---- '#'-free lines give '#'-free bases ----

  lemma NoHashSlice(s: string, i: nat, j: nat)
    requires NoHash(s) && i <= j <= |s|
    ensures NoHash(s[i..j])
  {
    assert forall c :: c in s[i..j] ==> c in s;
  }

  lemma NoHashTrim(s: string)
    requires NoHash(s)
    ensures NoHash(JsTrim(s))
  {
    var r := TrimStart(s, IsJsSpace);
    NoHashSlice(s, |s| - |r|, |s|);
    NoHashSlice(r, 0, |TrimEnd(r, IsJsSpace)|);
  }

  lemma NoHashLower(s: string)
    requires NoHash(s)
    ensures NoHash(Lower(s))
  {
    var r := Lower(s);
    assert forall i :: 0 <= i < |r| ==> r[i] == LowerChar(s[i]) && s[i] != '#';
  }

  lemma {:induction false} NoHashCollapse(s: string)
    requires NoHash(s)
    ensures NoHash(CollapseSpaces(s))
    decreases |s|
  {
    if s != [] {
      if IsJsSpace(s[0]) {
        var r := TrimStart(s, IsJsSpace);
        NoHashSlice(s, |s| - |r|, |s|);
        NoHashCollapse(r);
      } else {
        NoHashSlice(s, 1, |s|);
        NoHashCollapse(s[1..]);
      }
    }
  }

  /** A heading on a line without '#' has a '#'-free, non-empty key base. */
  lemma HeadingNoHash(line: string)
    requires NoHash(line) && MatchSectionHeading(line).Some?
    ensures NoHash(NormalizeBase(MatchSectionHeading(line).value.base))
    ensures NormalizeBase(MatchSectionHeading(line).value.base) != ""
  {
    var base := MatchSectionHeading(line).value.base;
    NoHashSlice(line, 0, |line| - 9);
    NoHashTrim(line[..|line| - 9]);
    NoHashTrim(base);
    NoHashLower(JsTrim(base));
    NoHashCollapse(Lower(JsTrim(base)));
    HeadingBaseKeyNonEmpty(line);
  }

  // ---- the whole loop ----

  lemma HeadingPairing(st: ParseState, h: Heading)
    requires Inv(st) && Pairing(st)
    requires NormalizeBase(h.base) != "" && NoHash(NormalizeBase(h.base))
    ensures Pairing(AfterHeading(st, h))
  {
    if h.lang == English {
      EnglishPairing(st, h.base);
    } else {
      ChinesePairing(st, h.base);
    }
  }

  /** A lyric line changes only the lists of one record. */
  lemma AppendPairing(st: ParseState, line: string)
    requires Pairing(st)
    ensures Pairing(AppendLine(st, line))
  {
    var key := st.currentSectionKey;
    if line != "" && key != "" && st.currentLanguage.Some? && key in st.sections {
      var sec := Appended(st.sections[key], st.currentLanguage.value, line);
      ReplaceIssued(st.sections, st.baseKeyBySection, st.sectionCounts, key, sec);
      ReplaceClean(st.baseQueues, st.baseKeyBySection, st.sections, key, sec);
    }
  }

  lemma StepPairing(st: ParseState, line: string, m: Option<Heading>)
    requires Inv(st) && Pairing(st)
    requires m.Some? ==> NormalizeBase(m.value.base) != "" && NoHash(NormalizeBase(m.value.base))
    ensures Pairing(Step(st, line, m))
  {
    if st.inMetadata && (StartsWith(line, "Title:") || StartsWith(line, "CCLI:")) {
    } else if m.Some? {
      HeadingPairing(st, m.value);
    } else if !st.inMetadata {
      AppendPairing(st, line);
    }
  }

  lemma LinePairing(st: ParseState, line: string)
    requires Inv(st) && Pairing(st) && NoHash(line)
    ensures Pairing(AfterLine(st, line))
  {
    var m := MatchSectionHeading(line);
    if m.Some? {
      HeadingNoHash(line);
    }
    StepPairing(st, line, m);
  }

  /** The invariant holds after every prefix of a file without '#'. */
  lemma {:induction false} RunPairing(lines: seq<string>)
    requires forall i :: 0 <= i < |lines| ==> NoHash(lines[i])
    ensures Pairing(Run(lines))
  {
    if lines != [] {
      var ls := lines[..|lines| - 1];
      RunPairing(ls);
      RunInv(ls);
      LinePairing(Run(ls), lines[|lines| - 1]);
    }
  }

  /** Every key still waiting in a queue is a section without Chinese. */
  lemma QueuedUnpaired(lines: seq<string>)
    requires forall i :: 0 <= i < |lines| ==> NoHash(lines[i])
    ensures forall b, k :: b in Run(lines).baseQueues && k in Run(lines).baseQueues[b] ==>
      k in Run(lines).sections && !Run(lines).sections[k].hasChinese
  {
    RunPairing(lines);
  }

  /** One step on a Chinese heading pairs and activates its section and
      leaves it in no queue. */
  lemma ChineseStepPairs(st: ParseState, line: string, h: Heading)
    requires Inv(st) && Pairing(st) && NoHash(NormalizeBase(h.base)) && h.lang == Chinese
    requires !StartsWith(line, "Title:") && !StartsWith(line, "CCLI:")
    ensures HasChinese(Step(st, line, Some(h)).sections, Step(st, line, Some(h)).currentSectionKey)
    ensures forall b :: b in Step(st, line, Some(h)).baseQueues ==>
      Step(st, line, Some(h)).currentSectionKey !in Step(st, line, Some(h)).baseQueues[b]
  {
    ChinesePairing(st, h.base);
    StepOnHeading(st, line, h);
  }

  /** Outside `Title:` and `CCLI:` lines, a heading step is the heading's
      transition, which also closes the metadata block. */
  lemma StepOnHeading(st: ParseState, line: string, h: Heading)
    requires !StartsWith(line, "Title:") && !StartsWith(line, "CCLI:")
    ensures Step(st, line, Some(h)) == AfterHeading(st, h).(inMetadata := false)
  {
    HeadingKeepsMetadata(st, h);
  }

  /** After a Chinese heading its section is paired, active, and in no queue. */
  lemma ChineseLinePairs(lines: seq<string>, line: string)
    requires forall i :: 0 <= i < |lines| ==> NoHash(lines[i])
    requires NoHash(line) && IsChineseHeading(line)
    ensures HasChinese(Run(lines + [line]).sections, Run(lines + [line]).currentSectionKey)
    ensures forall b :: b in Run(lines + [line]).baseQueues ==>
      Run(lines + [line]).currentSectionKey !in Run(lines + [line]).baseQueues[b]
  {
    assert (lines + [line])[..|lines|] == lines;
    RunPairing(lines);
    RunInv(lines);
    HeadingNoHash(line);
    HeadingNotMetadata(line);
    ChineseStepPairs(Run(lines), line, MatchSectionHeading(line).value);
  }

  // ---- the English branch ----

  /** An English heading whose key base has no '#' opens a new, empty,
      unpaired record under a key no section has yet, appends that key to
      the presentation order and appends it to the queue of its base. */
  lemma EnglishHeadingAppends(st: ParseState, base: string)
    requires Pairing(st) && NoHash(NormalizeBase(base))
    ensures var b := NormalizeBase(base);
      var k := NextKey(st, b);
      var st' := AfterEnglishHeading(st, base);
      && k !in st.sections
      && st'.verseOrder == st.verseOrder + [k]
      && st'.sections == st.sections[k := Section(base, [], [], DetectType(base), false)]
      && QueueOf(st'.baseQueues, b) == QueueOf(st.baseQueues, b) + [k]
      && st'.currentSectionKey == k && st'.currentLanguage == Some(English)
  {
    FreshKey(st, NormalizeBase(base));
  }

  /** In a file without '#', every English heading appends a new key to the
      presentation order and to its base's queue. */
  lemma EnglishLineAppends(lines: seq<string>, line: string)
    requires forall i :: 0 <= i < |lines| ==> NoHash(lines[i])
    requires NoHash(line) && MatchSectionHeading(line).Some? && MatchSectionHeading(line).value.lang == English
    ensures var b := NormalizeBase(MatchSectionHeading(line).value.base);
      var k := NextKey(Run(lines), b);
      && k !in Run(lines).sections
      && Run(lines + [line]).verseOrder == Run(lines).verseOrder + [k]
      && QueueOf(Run(lines + [line]).baseQueues, b) == QueueOf(Run(lines).baseQueues, b) + [k]
  {
    assert (lines + [line])[..|lines|] == lines;
    var h := MatchSectionHeading(line).value;
    RunPairing(lines);
    HeadingNoHash(line);
    HeadingNotMetadata(line);
    StepOnHeading(Run(lines), line, h);
    EnglishHeadingAppends(Run(lines), h.base);
  }
}
