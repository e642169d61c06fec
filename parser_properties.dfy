/**
 * What the state transitions of `parseHymnFile` (module ParserState)
 * guarantee: the section table stays consistent with the presentation order,
 * every lyric line after the first heading lands in exactly one section list,
 * the metadata comes from the block before the first heading, and a document
 * without Chinese headings leaves every Chinese list empty.
 */
module ParserProperties {
  import opened Wrappers
  import opened Strings
  import opened Hymn
  import opened HymnHeadings
  import opened ParserState

  /** The presentation order lists each section once and nothing else; keys
      are never empty; only a section paired with Chinese holds Chinese lines.
      In particular every `sections[key]` the source dereferences exists. */
  predicate Table(order: seq<string>, sections: map<string, Section>) {
    && Distinct(order)
    && (forall k :: k in order ==> k in sections)
    && (forall k :: k in sections ==> k in order)
    && (forall k :: k in sections ==> k != "")
    && (forall k :: k in sections && sections[k].chinese != [] ==> sections[k].hasChinese)
  }

  /** Every queued key has a record. */
  predicate QueuesListed(queues: map<string, seq<string>>, sections: map<string, Section>) {
    forall b, k :: b in queues && k in queues[b] ==> k in sections
  }

  /** After the first heading there is an active section with a language, and
      an active Chinese block belongs to a section paired with Chinese. */
  predicate Cursor(st: ParseState) {
    && (!st.inMetadata ==> st.currentSectionKey != "")
    && (st.currentSectionKey != "" ==> st.currentSectionKey in st.sections && st.currentLanguage.Some?)
    && (st.currentSectionKey != "" && st.currentLanguage == Some(Chinese) ==> HasChinese(st.sections, st.currentSectionKey))
  }

  /** The invariant of the line loop. */
  predicate Inv(st: ParseState) {
    Table(st.verseOrder, st.sections) && QueuesListed(st.baseQueues, st.sections) && Cursor(st)
  }

  /** A step that pairs nothing: a section is paired afterwards exactly when it was before. */
  predicate SameFlags(s: map<string, Section>, s': map<string, Section>) {
    forall k :: k in s' ==> (s'[k].hasChinese <==> HasChinese(s, k))
  }

  predicate NoneChinese(s: map<string, Section>) {
    forall k :: k in s ==> !s[k].hasChinese
  }

  function LinesOf(s: Section): multiset<string> {
    multiset(s.english) + multiset(s.chinese)
  }

  /** All lines held by the sections, over the presentation order. */
  function SectionLines(order: seq<string>, sections: map<string, Section>): multiset<string> {
    if order == [] then multiset{}
    else
      var key := order[|order| - 1];
      SectionLines(order[..|order| - 1], sections) + (if key in sections then LinesOf(sections[key]) else multiset{})
  }

  function Lines(st: ParseState): multiset<string> {
    SectionLines(st.verseOrder, st.sections)
  }

  // ---- the table ----

  lemma TableNewKey(order: seq<string>, sections: map<string, Section>, key: string, s: Section)
    requires Table(order, sections) && key !in sections && key != "" && s.chinese == []
    ensures key !in order
    ensures Table(order + [key], sections[key := s])
  {
    assert (order + [key])[..|order|] == order;
  }

  lemma TableReplace(order: seq<string>, sections: map<string, Section>, key: string, s: Section)
    requires Table(order, sections) && key in sections && (s.chinese != [] ==> s.hasChinese)
    ensures Table(order, sections[key := s])
  {
  }

  lemma QueuesListedUpdate(queues: map<string, seq<string>>, sections: map<string, Section>, base: string, q: seq<string>)
    requires QueuesListed(queues, sections) && forall c :: c in q ==> c in sections
    ensures QueuesListed(queues[base := q], sections)
  {
  }

  /** `FirstPending` is the first queued key not yet paired. */
  lemma FirstPendingAt(q: seq<string>, sections: map<string, Section>, i: nat)
    requires i < |q| && !HasChinese(sections, q[i])
    requires forall j :: 0 <= j < i ==> HasChinese(sections, q[j])
    ensures FirstPending(q, sections) == Some(i)
  {
  }

  // ---- the line count ----

  lemma {:induction false} SectionLinesOutside(order: seq<string>, sections: map<string, Section>, key: string, s: Section)
    requires key !in order
    ensures SectionLines(order, sections[key := s]) == SectionLines(order, sections)
  {
    if order != [] {
      SectionLinesOutside(order[..|order| - 1], sections, key, s);
    }
  }

  lemma {:induction false} SectionLinesSameLines(order: seq<string>, sections: map<string, Section>, key: string, s: Section)
    requires key in sections && LinesOf(s) == LinesOf(sections[key])
    ensures SectionLines(order, sections[key := s]) == SectionLines(order, sections)
  {
    if order != [] {
      SectionLinesSameLines(order[..|order| - 1], sections, key, s);
    }
  }

  lemma {:induction false} SectionLinesAppend(order: seq<string>, sections: map<string, Section>, key: string, lang: Language, line: string)
    requires Distinct(order) && key in order && key in sections
    ensures SectionLines(order, sections[key := Appended(sections[key], lang, line)])
         == SectionLines(order, sections) + multiset{line}
  {
    var front := order[..|order| - 1];
    var s := Appended(sections[key], lang, line);
    AppendedLines(sections[key], lang, line);
    if order[|order| - 1] == key {
      SectionLinesOutside(front, sections, key, s);
    } else {
      assert key in front;
      SectionLinesAppend(front, sections, key, lang, line);
    }
  }

  lemma AppendedLines(s: Section, lang: Language, line: string)
    ensures LinesOf(Appended(s, lang, line)) == LinesOf(s) + multiset{line}
  {
  }

  lemma SectionLinesNewKey(order: seq<string>, sections: map<string, Section>, key: string, s: Section)
    requires key !in order && LinesOf(s) == multiset{}
    ensures SectionLines(order + [key], sections[key := s]) == SectionLines(order, sections)
  {
    assert (order + [key])[..|order|] == order;
    SectionLinesOutside(order, sections, key, s);
  }

  // ---- one helper at a time ----

  /** `ensureSectionRecord` keeps the table, records the key, and moves no line. */
  lemma EnsureRecordStep(st: ParseState, key: string, labelText: string, t: SectionType)
    requires Inv(st) && key != ""
    ensures Inv(EnsureRecord(st, key, labelText, t))
    ensures key in EnsureRecord(st, key, labelText, t).sections
    ensures Lines(EnsureRecord(st, key, labelText, t)) == Lines(st)
    ensures SameFlags(st.sections, EnsureRecord(st, key, labelText, t).sections)
  {
    var st' := EnsureRecord(st, key, labelText, t);
    if key !in st.sections {
      var s := Section(labelText, [], [], t, false);
      assert st' == st.(sections := st.sections[key := s], verseOrder := st.verseOrder + [key]);
      NewRecordStep(st, key, s);
    } else if st.sections[key].labelText == "" {
      var s := st.sections[key].(labelText := labelText);
      assert st' == st.(sections := st.sections[key := s]);
      ReplaceKeeps(st.verseOrder, st.sections, key, s);
    } else {
      assert st' == st;
    }
  }

  lemma NewRecordStep(st: ParseState, key: string, s: Section)
    requires Inv(st) && key != "" && key !in st.sections && s.english == [] && s.chinese == [] && !s.hasChinese
    ensures Inv(st.(sections := st.sections[key := s], verseOrder := st.verseOrder + [key]))
    ensures SectionLines(st.verseOrder + [key], st.sections[key := s]) == Lines(st)
    ensures SameFlags(st.sections, st.sections[key := s])
  {
    TableNewKey(st.verseOrder, st.sections, key, s);
    SectionLinesNewKey(st.verseOrder, st.sections, key, s);
  }

  /** Replacing a record by one with the same lines and the same pairing. */
  lemma ReplaceKeeps(order: seq<string>, sections: map<string, Section>, key: string, s: Section)
    requires Table(order, sections) && key in sections && LinesOf(s) == LinesOf(sections[key])
    requires s.chinese == sections[key].chinese && s.hasChinese == sections[key].hasChinese
    ensures Table(order, sections[key := s])
    ensures SectionLines(order, sections[key := s]) == SectionLines(order, sections)
    ensures SameFlags(sections, sections[key := s])
    ensures sections[key := s].Keys == sections.Keys
  {
    TableReplace(order, sections, key, s);
    SectionLinesSameLines(order, sections, key, s);
  }

  /** An English heading keeps the invariant, moves no line and pairs nothing. */
  lemma EnglishHeadingStep(st: ParseState, base: string)
    requires Inv(st) && NormalizeBase(base) != ""
    ensures Inv(AfterEnglishHeading(st, base))
    ensures Lines(AfterEnglishHeading(st, base)) == Lines(st)
    ensures SameFlags(st.sections, AfterEnglishHeading(st, base).sections)
    ensures AfterEnglishHeading(st, base).currentSectionKey != ""
  {
    var baseKey := NormalizeBase(base);
    var key := NextKey(st, baseKey);
    KeyForNonEmpty(baseKey, CountOf(st.sectionCounts, baseKey) + 1);
    var st0 := Counted(st, baseKey);
    EnsureRecordStep(st0, key, base, DetectType(base));
    var st1 := EnsureRecord(st0, key, base, DetectType(base));
    QueuesListedUpdate(st1.baseQueues, st1.sections, baseKey, QueueOf(st1.baseQueues, baseKey) + [key]);
  }

  /** The queues after the lookup are parts of the old ones. */
  lemma QueuesAfterLookupListed(st: ParseState, base: string)
    requires QueuesListed(st.baseQueues, st.sections)
    ensures QueuesListed(QueuesAfterLookup(st.baseQueues, st.sections, base), st.sections)
  {
    var q := QueueOf(st.baseQueues, base);
    match FirstPending(q, st.sections)
    case Some(i) =>
      assert forall c :: c in q[i + 1..] ==> c in q;
      QueuesListedUpdate(st.baseQueues, st.sections, base, q[i + 1..]);
    case None =>
      if base in st.baseQueues {
        QueuesListedUpdate(st.baseQueues, st.sections, base, []);
      }
  }

  /** The lookup keeps the table, its answer is a recorded non-empty key, and
      it moves no line. */
  lemma LookupStep(st: ParseState, base: string, t: SectionType, labelText: string)
    requires Inv(st)
    ensures Inv(AfterLookup(st, base, t, labelText))
    ensures Lines(AfterLookup(st, base, t, labelText)) == Lines(st)
    ensures SameFlags(st.sections, AfterLookup(st, base, t, labelText).sections)
    ensures ChineseTarget(st, base, t) in AfterLookup(st, base, t, labelText).sections
    ensures ChineseTarget(st, base, t) != ""
  {
    QueuesAfterLookupListed(st, base);
    TargetFound(st, base, t);
    var st1 := st.(baseQueues := QueuesAfterLookup(st.baseQueues, st.sections, base));
    assert Inv(st1);
    if NeedsSynthesis(st, base, t) {
      var d := SynthBase(base, |st.verseOrder|);
      var key := NextKey(st, d);
      var st2 := EnsureRecord(Counted(st1, d), key, labelText, t);
      assert AfterLookup(st, base, t, labelText) == st2.(baseKeyBySection := st2.baseKeyBySection[key := d]);
      assert ChineseTarget(st, base, t) == key;
      KeyForNonEmpty(d, CountOf(st.sectionCounts, d) + 1);
      SynthStep(st1, d, key, labelText, t);
    } else {
      assert AfterLookup(st, base, t, labelText) == st1;
    }
  }

  /** Unless the lookup has to synthesise a key, its answer is a recorded,
      non-empty key. */
  lemma TargetFound(st: ParseState, base: string, t: SectionType)
    requires Table(st.verseOrder, st.sections) && QueuesListed(st.baseQueues, st.sections)
    ensures !NeedsSynthesis(st, base, t) ==> ChineseTarget(st, base, t) in st.sections && ChineseTarget(st, base, t) != ""
  {
    var q := QueueOf(st.baseQueues, base);
    match FirstPending(q, st.sections)
    case Some(i) =>
      assert q[i] in q;
    case None =>
  }

  /** The last resort of the lookup: a new occurrence key for the base. */
  lemma SynthStep(st: ParseState, d: string, key: string, labelText: string, t: SectionType)
    requires Inv(st) && key != ""
    ensures Inv(EnsureRecord(Counted(st, d), key, labelText, t).(baseKeyBySection := st.baseKeyBySection[key := d]))
    ensures Lines(EnsureRecord(Counted(st, d), key, labelText, t)) == Lines(st)
    ensures SameFlags(st.sections, EnsureRecord(Counted(st, d), key, labelText, t).sections)
    ensures key in EnsureRecord(Counted(st, d), key, labelText, t).sections
  {
    EnsureRecordStep(Counted(st, d), key, labelText, t);
  }

  /** `releaseFromBaseQueue` only removes a queue entry. */
  lemma ReleasedListed(queues: map<string, seq<string>>, baseOf: map<string, string>, sections: map<string, Section>, key: string)
    requires QueuesListed(queues, sections)
    ensures QueuesListed(Released(queues, baseOf, key), sections)
  {
    if key in baseOf && baseOf[key] != "" && baseOf[key] in queues && IndexOf(queues[baseOf[key]], key) >= 0 {
      var q := queues[baseOf[key]];
      var i := IndexOf(q, key);
      assert forall c :: c in q[..i] + q[i + 1..] ==> c in q;
      QueuesListedUpdate(queues, sections, baseOf[key], q[..i] + q[i + 1..]);
    }
  }

  /** Marking the active target as paired. */
  lemma PairStep(st: ParseState, key: string)
    requires Table(st.verseOrder, st.sections) && QueuesListed(st.baseQueues, st.sections) && key in st.sections
    ensures Inv(st.(sections := st.sections[key := st.sections[key].(hasChinese := true)],
                    currentSectionKey := key, currentLanguage := Some(Chinese)))
    ensures SectionLines(st.verseOrder, st.sections[key := st.sections[key].(hasChinese := true)]) == Lines(st)
  {
    var s := st.sections[key].(hasChinese := true);
    TableReplace(st.verseOrder, st.sections, key, s);
    SectionLinesSameLines(st.verseOrder, st.sections, key, s);
  }

  /** A Chinese heading keeps the invariant and moves no line; its target is
      paired and active afterwards. */
  lemma ChineseHeadingStep(st: ParseState, base: string)
    requires Inv(st)
    ensures Inv(AfterChineseHeading(st, base))
    ensures Lines(AfterChineseHeading(st, base)) == Lines(st)
    ensures AfterChineseHeading(st, base).currentSectionKey == ChineseTarget(st, NormalizeBase(base), DetectType(base))
    ensures AfterChineseHeading(st, base).currentLanguage == Some(Chinese)
    ensures HasChinese(AfterChineseHeading(st, base).sections, ChineseTarget(st, NormalizeBase(base), DetectType(base)))
  {
    var baseKey := NormalizeBase(base);
    var t := DetectType(base);
    var key := ChineseTarget(st, baseKey, t);
    LookupStep(st, baseKey, t, base);
    var st1 := AfterLookup(st, baseKey, t, base);
    var existing := if key in st1.sections && st1.sections[key].labelText != "" then st1.sections[key].labelText else base;
    EnsureRecordStep(st1, key, existing, t);
    var st2 := EnsureRecord(st1, key, existing, t);
    ReleasedListed(st2.baseQueues, st2.baseKeyBySection, st2.sections, key);
    var st3 := st2.(baseQueues := Released(st2.baseQueues, st2.baseKeyBySection, key));
    PairStep(st3, key);
  }

  lemma HeadingStep(st: ParseState, h: Heading)
    requires Inv(st) && NormalizeBase(h.base) != ""
    ensures Inv(AfterHeading(st, h))
    ensures Lines(AfterHeading(st, h)) == Lines(st)
    ensures AfterHeading(st, h).currentSectionKey != ""
    ensures h.lang == English ==> SameFlags(st.sections, AfterHeading(st, h).sections)
  {
    if h.lang == English {
      EnglishHeadingStep(st, h.base);
    } else {
      ChineseHeadingStep(st, h.base);
      LookupStep(st, NormalizeBase(h.base), DetectType(h.base), h.base);
    }
  }

  /** A content line lands in the active section's list. */
  lemma AppendStep(st: ParseState, line: string)
    requires Inv(st) && !st.inMetadata
    ensures Inv(AppendLine(st, line))
    ensures SameFlags(st.sections, AppendLine(st, line).sections)
    ensures Lines(AppendLine(st, line)) == Lines(st) + (if line != "" then multiset{line} else multiset{})
  {
    var key := st.currentSectionKey;
    if line != "" {
      var s := Appended(st.sections[key], st.currentLanguage.value, line);
      TableReplace(st.verseOrder, st.sections, key, s);
      SectionLinesAppend(st.verseOrder, st.sections, key, st.currentLanguage.value, line);
    }
  }

  /** One line of the loop, for any answer of the heading matcher whose base
      normalises to a non-empty key. */
  lemma StepKeeps(st: ParseState, line: string, m: Option<Heading>)
    requires Inv(st) && (m.Some? ==> NormalizeBase(m.value.base) != "")
    ensures Inv(Step(st, line, m))
    ensures Lines(Step(st, line, m)) == Lines(st) + (if !st.inMetadata && m.None? && line != "" then multiset{line} else multiset{})
    ensures (m.None? || m.value.lang == English) ==> SameFlags(st.sections, Step(st, line, m).sections)
  {
    if st.inMetadata && (StartsWith(line, "Title:") || StartsWith(line, "CCLI:")) {
      MetadataLineKeeps(st, Step(st, line, m));
    } else if m.Some? {
      HeadingLineKeeps(st, line, m.value);
    } else if !st.inMetadata {
      AppendStep(st, line);
    } else {
      MetadataLineKeeps(st, Step(st, line, m));
    }
  }

  /** A metadata line changes no section, no queue and no cursor. */
  lemma MetadataLineKeeps(st: ParseState, st': ParseState)
    requires Inv(st)
    requires st'.sections == st.sections && st'.verseOrder == st.verseOrder && st'.baseQueues == st.baseQueues
    requires st'.inMetadata == st.inMetadata && st'.currentSectionKey == st.currentSectionKey
    requires st'.currentLanguage == st.currentLanguage
    ensures Inv(st') && Lines(st') == Lines(st) && SameFlags(st.sections, st'.sections)
  {
  }

  /** A heading line, in or after the metadata block. */
  lemma HeadingLineKeeps(st: ParseState, line: string, h: Heading)
    requires Inv(st) && NormalizeBase(h.base) != ""
    requires !(st.inMetadata && (StartsWith(line, "Title:") || StartsWith(line, "CCLI:")))
    ensures Inv(Step(st, line, Some(h)))
    ensures Lines(Step(st, line, Some(h))) == Lines(st)
    ensures h.lang == English ==> SameFlags(st.sections, Step(st, line, Some(h)).sections)
  {
    HeadingStep(st, h);
    var st' := AfterHeading(st, h);
    if st.inMetadata {
      assert Step(st, line, Some(h)) == st'.(inMetadata := false);
    } else {
      assert Step(st, line, Some(h)) == st';
    }
  }

  /** Whether the loop files this line under a section. */
  predicate Counts(st: ParseState, line: string) {
    !st.inMetadata && MatchSectionHeading(line).None? && line != ""
  }

  /** One line of the loop: the invariant holds again, the line is counted
      exactly when it is a lyric line after the first heading, and only a
      Chinese heading pairs a section. */
  lemma LineStep(st: ParseState, line: string)
    requires Inv(st)
    ensures Inv(AfterLine(st, line))
    ensures Lines(AfterLine(st, line)) == Lines(st) + (if Counts(st, line) then multiset{line} else multiset{})
    ensures !IsChineseHeading(line) ==> SameFlags(st.sections, AfterLine(st, line).sections)
  {
    var m := MatchSectionHeading(line);
    if m.Some? {
      HeadingBaseKeyNonEmpty(line);
    }
    StepKeeps(st, line, m);
  }

  // ---- the whole loop ----

  lemma {:induction false} RunInv(lines: seq<string>)
    ensures Inv(Run(lines))
  {
    if lines != [] {
      RunInv(lines[..|lines| - 1]);
      LineStep(Run(lines[..|lines| - 1]), lines[|lines| - 1]);
    }
  }

  /** A heading leaves the metadata alone. */
  lemma HeadingKeepsMetadata(st: ParseState, h: Heading)
    ensures AfterHeading(st, h).title == st.title
    ensures AfterHeading(st, h).ccliNo == st.ccliNo
    ensures AfterHeading(st, h).inMetadata == st.inMetadata
  {
    if h.lang == English {
      EnglishKeepsMetadata(st, h.base);
    } else {
      ChineseKeepsMetadata(st, h.base);
    }
  }

  lemma EnglishKeepsMetadata(st: ParseState, base: string)
    ensures var st' := AfterEnglishHeading(st, base);
      st'.title == st.title && st'.ccliNo == st.ccliNo && st'.inMetadata == st.inMetadata
  {
    var baseKey := NormalizeBase(base);
    RecordKeepsMetadata(Counted(st, baseKey), NextKey(st, baseKey), base, DetectType(base));
  }

  lemma ChineseKeepsMetadata(st: ParseState, base: string)
    ensures var st' := AfterChineseHeading(st, base);
      st'.title == st.title && st'.ccliNo == st.ccliNo && st'.inMetadata == st.inMetadata
  {
    var baseKey := NormalizeBase(base);
    var t := DetectType(base);
    var key := ChineseTarget(st, baseKey, t);
    var st1 := AfterLookup(st, baseKey, t, base);
    assert st1.title == st.title && st1.ccliNo == st.ccliNo && st1.inMetadata == st.inMetadata by {
      if NeedsSynthesis(st, baseKey, t) {
        var d := SynthBase(baseKey, |st.verseOrder|);
        var st0 := st.(baseQueues := QueuesAfterLookup(st.baseQueues, st.sections, baseKey));
        RecordKeepsMetadata(Counted(st0, d), NextKey(st, d), base, t);
      }
    }
    var existing := if key in st1.sections && st1.sections[key].labelText != "" then st1.sections[key].labelText else base;
    RecordKeepsMetadata(st1, key, existing, t);
  }

  lemma RecordKeepsMetadata(st: ParseState, key: string, labelText: string, t: SectionType)
    ensures var st' := EnsureRecord(st, key, labelText, t);
      st'.title == st.title && st'.ccliNo == st.ccliNo && st'.inMetadata == st.inMetadata
  {
  }

  /** `MetadataEnd` is the first line that ends the metadata block. */
  lemma MetadataEndIsFirst(lines: seq<string>)
    ensures MetadataEnd(lines) < |lines| ==> EndsMetadata(lines[MetadataEnd(lines)])
    ensures forall j :: 0 <= j < MetadataEnd(lines) ==> !EndsMetadata(lines[j])
  {
    FirstWhereIsFirst(lines, EndsMetadata);
  }

  lemma MetadataEndSnoc(ls: seq<string>, l: string)
    ensures MetadataEnd(ls + [l]) ==
      if MetadataEnd(ls) < |ls| then MetadataEnd(ls)
      else if EndsMetadata(l) then |ls| else |ls| + 1
  {
    FirstWhereSnoc(ls, l, EndsMetadata);
  }

  lemma LastValueSnoc(ls: seq<string>, l: string, prefix: string)
    ensures LastValue(ls + [l], prefix) ==
      if StartsWith(l, prefix) then Some(JsTrim(l[|prefix|..])) else LastValue(ls, prefix)
  {
    assert (ls + [l])[..|ls|] == ls;
  }

  /** A line after the first heading leaves the metadata alone. */
  lemma MetadataAfter(st: ParseState, ls: seq<string>, l: string)
    requires !st.inMetadata && MetadataEnd(ls) < |ls|
    requires st.title == TitleOf(ls) && st.ccliNo == CcliOf(ls)
    ensures !AfterLine(st, l).inMetadata && MetadataEnd(ls + [l]) < |ls + [l]|
    ensures AfterLine(st, l).title == TitleOf(ls + [l])
    ensures AfterLine(st, l).ccliNo == CcliOf(ls + [l])
  {
    MetadataEndSnoc(ls, l);
    assert (ls + [l])[..MetadataEnd(ls)] == ls[..MetadataEnd(ls)];
    var m := MatchSectionHeading(l);
    if m.Some? {
      HeadingKeepsMetadata(st, m.value);
    }
  }

  /** A line of the metadata block: `Title:` and `CCLI:` lines set the
      metadata, the first other heading closes the block, the rest is dropped. */
  lemma MetadataInside(st: ParseState, ls: seq<string>, l: string)
    requires st.inMetadata && MetadataEnd(ls) == |ls|
    requires st.title == TitleOf(ls) && st.ccliNo == CcliOf(ls)
    ensures AfterLine(st, l).inMetadata <==> MetadataEnd(ls + [l]) == |ls + [l]|
    ensures AfterLine(st, l).title == TitleOf(ls + [l])
    ensures AfterLine(st, l).ccliNo == CcliOf(ls + [l])
  {
    MetadataEndSnoc(ls, l);
    assert ls[..|ls|] == ls;
    if EndsMetadata(l) {
      MetadataClosed(st, ls, l);
    } else {
      MetadataKept(st, ls, l);
    }
  }

  lemma MetadataClosed(st: ParseState, ls: seq<string>, l: string)
    requires st.inMetadata && EndsMetadata(l) && MetadataEnd(ls + [l]) == |ls|
    requires st.title == TitleOf(ls) && st.ccliNo == CcliOf(ls) && MetadataEnd(ls) == |ls|
    ensures !AfterLine(st, l).inMetadata
    ensures AfterLine(st, l).title == TitleOf(ls + [l])
    ensures AfterLine(st, l).ccliNo == CcliOf(ls + [l])
  {
    assert (ls + [l])[..|ls|] == ls;
    assert ls[..|ls|] == ls;
    HeadingKeepsMetadata(st, MatchSectionHeading(l).value);
  }

  lemma MetadataKept(st: ParseState, ls: seq<string>, l: string)
    requires st.inMetadata && !EndsMetadata(l) && MetadataEnd(ls + [l]) == |ls| + 1
    requires st.title == TitleOf(ls) && st.ccliNo == CcliOf(ls) && MetadataEnd(ls) == |ls|
    ensures AfterLine(st, l).inMetadata
    ensures AfterLine(st, l).title == TitleOf(ls + [l])
    ensures AfterLine(st, l).ccliNo == CcliOf(ls + [l])
  {
    assert (ls + [l])[..|ls| + 1] == ls + [l];
    assert ls[..|ls|] == ls;
    LastValueSnoc(ls, l, "Title:");
    LastValueSnoc(ls, l, "CCLI:");
    if StartsWith(l, "Title:") {
      StartsWithExclusive(l, "Title:", "CCLI:");
    }
  }

  /** The metadata is what the block before the first heading says. */
  lemma {:induction false} RunMetadata(lines: seq<string>)
    ensures Run(lines).inMetadata <==> MetadataEnd(lines) == |lines|
    ensures Run(lines).title == TitleOf(lines)
    ensures Run(lines).ccliNo == CcliOf(lines)
  {
    if lines != [] {
      var ls := lines[..|lines| - 1];
      var l := lines[|lines| - 1];
      assert lines == ls + [l];
      RunMetadata(ls);
      if Run(ls).inMetadata {
        MetadataInside(Run(ls), ls, l);
      } else {
        MetadataAfter(Run(ls), ls, l);
      }
    }
  }

  lemma NonHeadingsSnoc(ls: seq<string>, l: string)
    ensures NonHeadings(ls + [l]) == NonHeadings(ls) + (if l != "" && MatchSectionHeading(l).None? then [l] else [])
  {
    assert (ls + [l])[..|ls|] == ls;
  }

  lemma ContentLinesSnoc(ls: seq<string>, l: string)
    ensures ContentLines(ls + [l]) == ContentLines(ls) +
      (if MetadataEnd(ls) < |ls| && l != "" && MatchSectionHeading(l).None? then [l] else [])
  {
    MetadataEndSnoc(ls, l);
    if MetadataEnd(ls) < |ls| {
      ContentLinesSnocAfter(ls, l, MetadataEnd(ls));
    } else {
      ContentLinesSnocInside(ls, l);
    }
  }

  lemma ContentLinesSnocInside(ls: seq<string>, l: string)
    requires MetadataEnd(ls) == |ls| && MetadataEnd(ls + [l]) >= |ls|
    ensures ContentLines(ls) == []
    ensures ContentLines(ls + [l]) == []
  {
    if MetadataEnd(ls + [l]) == |ls| {
      assert (ls + [l])[|ls| + 1..] == [];
    }
  }

  lemma ContentLinesSnocAfter(ls: seq<string>, l: string, f: nat)
    requires f < |ls| && MetadataEnd(ls) == f && MetadataEnd(ls + [l]) == f
    ensures ContentLines(ls + [l]) == ContentLines(ls) + (if l != "" && MatchSectionHeading(l).None? then [l] else [])
  {
    assert ContentLines(ls + [l]) == NonHeadings((ls + [l])[f + 1..]);
    assert ContentLines(ls) == NonHeadings(ls[f + 1..]);
    assert (ls + [l])[f + 1..] == ls[f + 1..] + [l];
    NonHeadingsSnoc(ls[f + 1..], l);
  }

  /** Every lyric line after the first heading is in exactly one section
      list, and nothing else is. */
  lemma {:induction false} RunLines(lines: seq<string>)
    ensures Lines(Run(lines)) == multiset(ContentLines(lines))
  {
    if lines != [] {
      var ls := lines[..|lines| - 1];
      var l := lines[|lines| - 1];
      assert lines == ls + [l];
      RunLines(ls);
      RunInv(ls);
      RunMetadata(ls);
      LineStep(Run(ls), l);
      ContentLinesSnoc(ls, l);
    }
  }

  /** Without a Chinese heading no section is paired, so every Chinese list
      stays empty. */
  lemma {:induction false} RunNoChinese(lines: seq<string>)
    requires forall i :: 0 <= i < |lines| ==> !IsChineseHeading(lines[i])
    ensures NoneChinese(Run(lines).sections)
    ensures forall k :: k in Run(lines).sections ==> Run(lines).sections[k].chinese == []
  {
    RunInv(lines);
    if lines != [] {
      var ls := lines[..|lines| - 1];
      RunNoChinese(ls);
      RunInv(ls);
      LineStep(Run(ls), lines[|lines| - 1]);
    }
  }

  // ---- the assembled verses ----

  /** The second loop builds one verse per listed key that has a record,
      holding that record's interleaved lines. */
  lemma {:induction false} VersesOfAt(keys: seq<string>, sections: map<string, Section>)
    ensures forall k :: k in VersesOf(keys, sections) <==> k in keys && k in sections
    ensures forall k :: k in VersesOf(keys, sections) ==> VersesOf(keys, sections)[k] == VerseOf(sections[k])
  {
    if keys != [] {
      var front := keys[..|keys| - 1];
      VersesOfAt(front, sections);
      assert forall k :: k in keys <==> k in front || k == keys[|keys| - 1];
    }
  }

  /** The verses hold exactly the lines of the sections they come from. */
  lemma {:induction false} AllVerseLinesCount(verses: map<string, Verse>, order: seq<string>, sections: map<string, Section>)
    requires forall k :: k in order ==> (k in verses <==> k in sections)
    requires forall k :: k in order && k in verses ==> verses[k] == VerseOf(sections[k])
    ensures multiset(AllVerseLines(verses, order)) == SectionLines(order, sections)
  {
    if order != [] {
      var front := order[..|order| - 1];
      var key := order[|order| - 1];
      assert forall k :: k in front ==> k in order;
      AllVerseLinesCount(verses, front, sections);
      if key in sections {
        InterleavedContents(sections[key].english, sections[key].chinese);
      }
    }
  }
}
