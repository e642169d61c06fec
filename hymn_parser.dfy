/**
 * `parseHymnFile` (src/App.tsx): one pass over the trimmed non-empty lines
 * of a `.hymn` file that updates the working tables in place, then a second
 * pass that interleaves each section's English and Chinese lines.
 *
 * Every method of `Parser` is proved to perform exactly the transition that
 * module ParserState describes, so the guarantees of module ParserProperties
 * carry over to `ParseHymnFile`.
 */
module HymnParser {
  import opened Wrappers
  import opened Strings
  import opened Hymn
  import opened HymnHeadings
  import opened ParserState
  import opened ParserProperties

  /** The local variables of `parseHymnFile` that its closures update. */
  class Parser {
    var title: string
    var ccliNo: Option<string>
    var inMetadata: bool
    var currentSectionKey: string
    var currentLanguage: Option<Language>
    var verseOrder: seq<string>
    var sectionCounts: map<string, nat>
    var baseQueues: map<string, seq<string>>
    var baseKeyBySection: map<string, string>
    var sections: map<string, Section>

    /** The fields as one value. */
    function State(): ParseState
      reads this
    {
      ParseState(title, ccliNo, inMetadata, currentSectionKey, currentLanguage,
                 verseOrder, sectionCounts, baseQueues, baseKeyBySection, sections)
    }

    constructor ()
      ensures State() == Initial
    {
      title := "Untitled";
      ccliNo := None;
      inMetadata := true;
      currentSectionKey := "";
      currentLanguage := None;
      verseOrder := [];
      sectionCounts := map[];
      baseQueues := map[];
      baseKeyBySection := map[];
      sections := map[];
    }

    /** `createSectionKey`: counts one more occurrence of the base and returns
        `base` for the first one, `base#N` for the Nth. */
    method CreateSectionKey(baseKey: string) returns (key: string)
      modifies this`sectionCounts
      ensures key == NextKey(old(State()), baseKey)
      ensures State() == Counted(old(State()), baseKey)
    {
      var count := CountOf(sectionCounts, baseKey) + 1;
      sectionCounts := sectionCounts[baseKey := count];
      key := if count == 1 then baseKey else baseKey + "#" + NatToString(count);
    }

    /** `ensureSectionRecord`: a key without a record gets an empty one and
        joins the presentation order; an existing record only gains a label
        when it had none. */
    method EnsureSectionRecord(key: string, labelText: string, t: SectionType)
      modifies this`sections, this`verseOrder
      ensures State() == EnsureRecord(old(State()), key, labelText, t)
      ensures key in sections
    {
      if key !in sections {
        sections := sections[key := Section(labelText, [], [], t, false)];
        verseOrder := verseOrder + [key];
      } else if sections[key].labelText == "" {
        sections := sections[key := sections[key].(labelText := labelText)];
      }
    }

    /** `releaseFromBaseQueue`: removes the first occurrence of the key from
        the queue of the base it was last recorded under. */
    method ReleaseFromBaseQueue(key: string)
      modifies this`baseQueues
      ensures State() == old(State()).(baseQueues := Released(old(baseQueues), baseKeyBySection, key))
    {
      if key !in baseKeyBySection || baseKeyBySection[key] == "" {
        return;
      }
      var baseKey := baseKeyBySection[key];
      if baseKey !in baseQueues || |baseQueues[baseKey]| == 0 {
        assert baseKey in baseQueues ==> IndexOf(baseQueues[baseKey], key) < 0;
        return;
      }
      var queue := baseQueues[baseKey];
      var idx := IndexOf(queue, key);
      if idx >= 0 {
        baseQueues := baseQueues[baseKey := queue[..idx] + queue[idx + 1..]];
      }
    }

    /** The queue scan of `findSectionForChinese`: `queue.shift()` consumes
        the base's queue up to and including the first entry not yet paired
        with Chinese, which is returned, or the whole queue when there is none. */
    method ShiftPending(baseKey: string) returns (candidate: Option<string>)
      modifies this`baseQueues
      ensures candidate == Pending(old(baseQueues), sections, baseKey)
      ensures baseQueues == QueuesAfterLookup(old(baseQueues), sections, baseKey)
    {
      ghost var q0 := QueueOf(baseQueues, baseKey);
      if baseKey in baseQueues && |baseQueues[baseKey]| > 0 {
        // `queue` aliases `baseQueues[baseKey]`: each `shift` is written back.
        while |baseQueues[baseKey]| > 0
          invariant baseKey in baseQueues
          invariant |baseQueues[baseKey]| <= |q0| && baseQueues[baseKey] == q0[|q0| - |baseQueues[baseKey]|..]
          invariant forall j :: 0 <= j < |q0| - |baseQueues[baseKey]| ==> HasChinese(sections, q0[j])
          invariant baseQueues == old(baseQueues)[baseKey := baseQueues[baseKey]]
          decreases |baseQueues[baseKey]|
        {
          var next := baseQueues[baseKey][0];
          ghost var i := |q0| - |baseQueues[baseKey]|;
          assert next == q0[i];
          assert baseQueues[baseKey][1..] == q0[i + 1..];
          baseQueues := baseQueues[baseKey := baseQueues[baseKey][1..]];
          if !HasChinese(sections, next) {
            FirstPendingAt(q0, sections, i);
            return Some(next);
          }
        }
      } else if baseKey in baseQueues {
        assert old(baseQueues)[baseKey := []] == old(baseQueues);
      }
      return None;
    }

    /** `findSectionForChinese`: the section a Chinese heading belongs to:
        the oldest pending section of its base, then the first unpaired
        section of its type, then any unpaired section; only the last resort
        creates a section. Keys are never empty (ParserProperties.Table), so
        the source's `if (candidate)` tests after each `find` always pass and
        are not repeated here. */
    method FindSectionForChinese(baseKey: string, t: SectionType, fallbackLabel: string) returns (key: string)
      modifies this`baseQueues, this`sectionCounts, this`sections, this`verseOrder, this`baseKeyBySection
      ensures key == ChineseTarget(old(State()), baseKey, t)
      ensures State() == AfterLookup(old(State()), baseKey, t, fallbackLabel)
    {
      var pending := ShiftPending(baseKey);
      if pending.Some? {
        return pending.value;
      }
      // `if (type)` always holds: `detectType` never returns undefined.
      var typed := FirstUnpaired(verseOrder, sections, Some(t));
      if typed.Some? {
        return verseOrder[typed.value];
      }
      var fallback := FirstUnpaired(verseOrder, sections, None);
      if fallback.Some? {
        return verseOrder[fallback.value];
      }
      var derivedBase := SynthBase(baseKey, |verseOrder|);
      key := CreateSectionKey(derivedBase);
      EnsureSectionRecord(key, fallbackLabel, t);
      RecordBase(key, derivedBase);
    }

    /** `baseKeyBySection[key] = baseKey`. */
    method RecordBase(key: string, baseKey: string)
      modifies this`baseKeyBySection
      ensures State() == old(State()).(baseKeyBySection := old(baseKeyBySection)[key := baseKey])
    {
      baseKeyBySection := baseKeyBySection[key := baseKey];
    }

    /** Records the base of a new English section and queues it there.
        `baseQueues[baseKey] || []` keeps an existing queue even when empty. */
    method Enqueue(key: string, baseKey: string)
      modifies this`baseKeyBySection, this`baseQueues
      ensures State() == old(State()).(baseKeyBySection := old(baseKeyBySection)[key := baseKey],
                                       baseQueues := old(baseQueues)[baseKey := QueueOf(old(baseQueues), baseKey) + [key]])
    {
      RecordBase(key, baseKey);
      var queue := QueueOf(baseQueues, baseKey);
      baseQueues := baseQueues[baseKey := queue + [key]];
    }

    /** Makes `key` the active section, in `language`. */
    method Activate(key: string, language: Language)
      modifies this`currentSectionKey, this`currentLanguage
      ensures State() == old(State()).(currentSectionKey := key, currentLanguage := Some(language))
    {
      currentSectionKey := key;
      currentLanguage := Some(language);
    }

    /** The English branch of `handleSectionHeading`: a new occurrence key,
        recorded and queued under its base, becomes the active section. */
    method OpenEnglishSection(base: string)
      modifies this
      ensures State() == AfterEnglishHeading(old(State()), base)
    {
      var baseKey := NormalizeBase(base);
      var key := CreateSectionKey(baseKey);
      EnsureSectionRecord(key, base, DetectType(base));
      Enqueue(key, baseKey);
      Activate(key, English);
    }

    /** Sets the paired flag of a recorded section. */
    method MarkPaired(key: string)
      requires key in sections
      modifies this`sections
      ensures State() == old(State()).(sections := old(sections)[key := old(sections)[key].(hasChinese := true)])
    {
      sections := sections[key := sections[key].(hasChinese := true)];
    }

    /** The Chinese branch of `handleSectionHeading`: the section found for
        the heading is recorded, released from its queue, marked as paired
        and becomes the active section. */
    method OpenChineseSection(base: string)
      modifies this
      ensures State() == AfterChineseHeading(old(State()), base)
    {
      var sectionType := DetectType(base);
      var key := FindSectionForChinese(NormalizeBase(base), sectionType, base);
      var existing := if key in sections && sections[key].labelText != "" then sections[key].labelText else base;
      EnsureSectionRecord(key, existing, sectionType);
      ReleaseFromBaseQueue(key);
      MarkPaired(key);
      Activate(key, Chinese);
    }

    /** `handleSectionHeading`: returns whether the line is a heading, and
        for one opens (English) or pairs (Chinese) its section. */
    method HandleSectionHeading(line: string) returns (handled: bool)
      modifies this
      ensures handled <==> MatchSectionHeading(line).Some?
      ensures handled ==> State() == AfterHeading(old(State()), MatchSectionHeading(line).value)
      ensures !handled ==> State() == old(State())
    {
      var m := MatchSectionHeading(line);
      if m.None? {
        return false;
      }
      if m.value.lang == English {
        OpenEnglishSection(m.value.base);
      } else {
        OpenChineseSection(m.value.base);
      }
      return true;
    }

    /** A lyric line goes to the active section's list for the active language. */
    method AppendToSection(line: string)
      modifies this`sections
      ensures State() == AppendLine(old(State()), line)
    {
      if line != "" && currentSectionKey != "" {
        var key := currentSectionKey;
        if currentLanguage == Some(English) && key in sections {
          sections := sections[key := sections[key].(english := sections[key].english + [line])];
        } else if currentLanguage == Some(Chinese) && key in sections {
          sections := sections[key := sections[key].(chinese := sections[key].chinese + [line])];
        }
      }
    }

    /** A line read while the metadata block is still open. */
    method MetadataLine(line: string)
      requires inMetadata
      modifies this
      ensures State() == Step(old(State()), line, MatchSectionHeading(line))
    {
      ghost var st := State();
      if StartsWith(line, "Title:") {
        title := JsTrim(line[6..]);
        assert State() == st.(title := JsTrim(line[6..]));
        return;
      }
      if StartsWith(line, "CCLI:") {
        ccliNo := Some(JsTrim(line[5..]));
        assert State() == st.(ccliNo := Some(JsTrim(line[5..])));
        return;
      }
      var handled := HandleSectionHeading(line);
      if handled {
        CloseMetadata();
      }
    }

    /** The first heading ends the metadata block. */
    method CloseMetadata()
      modifies this`inMetadata
      ensures State() == old(State()).(inMetadata := false)
    {
      inMetadata := false;
    }

    /** A line read after the metadata block. */
    method BodyLine(line: string)
      requires !inMetadata
      modifies this
      ensures State() == AfterLine(old(State()), line)
    {
      var handled := HandleSectionHeading(line);
      if !handled {
        AppendToSection(line);
      }
    }

    /** One iteration of the line loop. */
    method ProcessLine(line: string)
      modifies this
      ensures State() == AfterLine(old(State()), line)
    {
      if inMetadata {
        MetadataLine(line);
      } else {
        BodyLine(line);
      }
    }
  }

  /** `fixedId || uid()`: an empty fixed id counts as missing. */
  function SongId(fixedId: Option<string>, generatedId: string): string {
    if fixedId.Some? && fixedId.value != "" then fixedId.value else generatedId
  }

  /** The first loop of `parseHymnFile`: every line through the parser. */
  method ReadLines(lines: seq<string>) returns (p: Parser)
    ensures fresh(p)
    ensures p.State() == Run(lines)
  {
    p := new Parser();
    for i := 0 to |lines|
      invariant p.State() == Run(lines[..i])
    {
      assert lines[..i + 1][..i] == lines[..i];
      p.ProcessLine(lines[i]);
    }
    assert lines[..|lines|] == lines;
  }

  /** The second loop of `parseHymnFile`: one verse per listed section, its
      lines interleaved. */
  method BuildVerses(order: seq<string>, sections: map<string, Section>) returns (verses: map<string, Verse>)
    ensures verses == VersesOf(order, sections)
  {
    verses := map[];
    for j := 0 to |order|
      invariant verses == VersesOf(order[..j], sections)
    {
      assert order[..j + 1][..j] == order[..j];
      var key := order[j];
      if key !in sections {
        continue;
      }
      var section := sections[key];
      var interleavedLines := Interleave(section.english, section.chinese);
      verses := verses[key := Verse(section.labelText, interleavedLines, section.stype)];
    }
    assert order[..|order|] == order;
  }

  /** `parseHymnFile(text, fixedId)`, with the random id `uid()` passed in. */
  method ParseHymnFile(text: string, fixedId: Option<string>, generatedId: string) returns (song: Song)
    ensures song.preInterleaved
    ensures song.id == SongId(fixedId, generatedId)
    ensures song.title == TitleOf(SourceLines(text))
    ensures song.ccliNo == CcliOf(SourceLines(text))
    ensures song.verseOrder == Run(SourceLines(text)).verseOrder
    ensures WellFormed(song)
    ensures forall k :: k in song.verses ==> k in Run(SourceLines(text)).sections && song.verses[k] == VerseOf(Run(SourceLines(text)).sections[k])
    ensures multiset(AllVerseLines(song.verses, song.verseOrder)) == multiset(ContentLines(SourceLines(text)))
    ensures NoChineseHeading(SourceLines(text)) ==> forall k :: k in song.verses ==> song.verses[k].lines == Run(SourceLines(text)).sections[k].english
  {
    var lines := SourceLines(text);
    var p := ReadLines(lines);
    ghost var st := p.State();
    assert st.title == p.title && st.ccliNo == p.ccliNo && st.verseOrder == p.verseOrder && st.sections == p.sections;
    var verses := BuildVerses(p.verseOrder, p.sections);
    song := Song(SongId(fixedId, generatedId), p.title, p.ccliNo, p.verseOrder, verses, true);
    RunMetadata(lines);
    SongFacts(lines, song);
  }

  predicate NoChineseHeading(lines: seq<string>) {
    forall i :: 0 <= i < |lines| ==> !IsChineseHeading(lines[i])
  }

  /** The assembled verses follow the section table. */
  lemma VersesFacts(order: seq<string>, sections: map<string, Section>, verses: map<string, Verse>)
    requires Table(order, sections)
    requires verses == VersesOf(order, sections)
    ensures Distinct(order)
    ensures forall k :: k in verses ==> k in order
    ensures forall i :: 0 <= i < |order| ==> order[i] in verses
    ensures forall k :: k in verses ==> k in sections && verses[k] == VerseOf(sections[k])
    ensures multiset(AllVerseLines(verses, order)) == SectionLines(order, sections)
  {
    VersesOfAt(order, sections);
    AllVerseLinesCount(verses, order, sections);
  }

  /** Without a Chinese heading every verse keeps just its English lines. */
  lemma EnglishOnlyFacts(lines: seq<string>, verses: map<string, Verse>)
    requires NoChineseHeading(lines)
    requires forall k :: k in verses ==> k in Run(lines).sections && verses[k] == VerseOf(Run(lines).sections[k])
    ensures forall k :: k in verses ==> verses[k].lines == Run(lines).sections[k].english
  {
    RunNoChinese(lines);
    forall k | k in verses
      ensures verses[k].lines == Run(lines).sections[k].english
    {
      EnglishOnlyUnchanged(Run(lines).sections[k].english);
    }
  }

  /** What the assembled song inherits from the line pass. */
  lemma SongFacts(lines: seq<string>, song: Song)
    requires song.verseOrder == Run(lines).verseOrder
    requires song.verses == VersesOf(Run(lines).verseOrder, Run(lines).sections)
    ensures WellFormed(song)
    ensures forall k :: k in song.verses ==> k in Run(lines).sections && song.verses[k] == VerseOf(Run(lines).sections[k])
    ensures multiset(AllVerseLines(song.verses, song.verseOrder)) == multiset(ContentLines(lines))
    ensures NoChineseHeading(lines) ==> forall k :: k in song.verses ==> song.verses[k].lines == Run(lines).sections[k].english
  {
    var st := Run(lines);
    RunInv(lines);
    assert Table(st.verseOrder, st.sections);
    VersesFacts(st.verseOrder, st.sections, song.verses);
    RunLines(lines);
    if NoChineseHeading(lines) {
      EnglishOnlyFacts(lines, song.verses);
    }
  }
}
