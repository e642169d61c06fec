# Hymn projector core, modelled in Dafny

The hymn projector shows bilingual (English and Chinese) hymns as slides.
Two parts of the repository carry its logic, and this project models both.

- **The app**, `src/App.tsx`:
  - `parseHymnFile` reads a `.hymn` text file into a song. A file holds
    `Title:` and `CCLI:` metadata, then section headings such as
    `Verse 1 English:` or `Chorus Chinese:`, each followed by its lyric
    lines.
  - Each Chinese section is paired with an English section: the first one
    still waiting under the same base label, else the first unpaired
    section of the same type, else the first unpaired section, else a new
    one.
  - Each section's lines are interleaved English, Chinese, English, and so
    on.
  - The `slides` memo cuts each verse into slides of 8 lines, or 10 for a
    ten-line verse in the pre-interleaved format, and 4 in the XML format.
    It labels the slides `a`, `b`, … and numbers the stanzas.
  - `totalStanzas` counts the distinct stanza numbers.
  - `filterSongsByCcli` keeps the songs whose CCLI number has the same
    numeric value as the digits of the query.
- **The generator script**, `scripts/process_hymns.py`:
  - `parse_block` turns a block of index lines into chorus and numbered
    verse sections.
  - `collapse_lines` merges neighbouring lines pairwise until at most four
    remain.
  - `fmt` writes sections out as heading lines followed by lyric lines.
  - `_section_lang` recognises those headings with `SECTION_HEADER_REGEX`.
  - `clean_title`, `has_cjk` and `_is_plain_heading` are small text
    predicates.

Where the source mutates state, the model is imperative, and each method is
proved against a specification function:

- `HymnParser.Parser` is a class whose fields are the parser's local tables
  (`sections`, `baseQueues`, `baseKeyBySection`, `sectionCounts`,
  `verseOrder`, the cursor and the metadata flag). Each helper closure of
  `parseHymnFile` is a method that maps `State()` to a pure transition in
  `ParserState`.
- The loops of the slide memo, `collapse_lines`, `parse_block` and `fmt` are
  methods with loop invariants. Each ensures it returns the value of its
  reference function.

The lemmas prove the following about those reference functions:

- the invariants of the parser's tables and queues;
- which lines end up in the song;
- the title and CCLI values;
- the pairing discipline;
- how slides are cut, labelled and numbered.

The property that ties the two halves together is also proved: every heading
that `fmt` writes is classified by `_section_lang` as the language it was
written for, and `matchSectionHeading` in the app accepts it as the heading
of that section.

Three external values become parameters:

- The random id `uid()` becomes `generatedId`.
- The order of `Object.keys(currentSong.verses)`, used when a song has no
  verse order, becomes `verseKeys`.
- The current song of the memo becomes an `Option<Song>`.

Modules:

- `Wrappers`: `Option`.
- `Strings`: whitespace classes, trimming, lower-casing, digits and number
  rendering.
- `Hymn`: `Verse` and `Song`.
- `HymnHeadings`: heading recognition, keys and interleaving.
- `ParserState` and `HymnParser`: the parser.
- `ParserProperties` and `QueueProperties`: the proofs about the parser.
- `Slides`: the slide memo and the stanza count.
- `CcliFilter`: the CCLI filter.
- `HymnScript`: the text helpers and `collapse_lines`.
- `BlockParser`: `parse_block`.
- `SectionFormat`: `fmt`.
- `SectionHeader`: the header regex and the compatibility lemmas.

## Model

| member | source | states |
|---|---|---|
| HymnParser.ParseHymnFile | src/App.tsx:7-159 | The song is marked pre-interleaved and takes `fixedId` when it is non-empty, else the generated id. Its title and CCLI number are the values of the last `Title:` / `CCLI:` lines before the first heading. Its verse order is the parser's order, every key is listed exactly once and has a verse, and each verse is its section's record with interleaved lines. The verses together hold exactly (as a multiset) the lyric lines after the first heading. Without a Chinese heading each verse's lines are its English lines. |
| HymnParser.SongFacts | src/App.tsx:134-155 | For the order and sections the loop produces: the song is well formed, each verse comes from its section, the lines are the file's content lines, and the English-only case holds. |
| HymnParser.VersesFacts | src/App.tsx:134-146 | The second loop on a table with distinct keys builds one verse per listed key, taken from its section, and its lines are the lines of all listed sections. |
| HymnParser.EnglishOnlyFacts | src/App.tsx:137-145 | With no Chinese heading in the file, each verse's lines are its section's English lines in order. |
| HymnParser.ReadLines | src/App.tsx:109-132 | Running the parser over the lines yields the state of the reference fold `Run`. |
| HymnParser.BuildVerses | src/App.tsx:134-146 | The verse map equals `VersesOf`: for each listed key with a record, the record's label, type and interleaved lines. |
| HymnParser.Parser.constructor | src/App.tsx:10-20 | The initial state: title "Untitled", no CCLI, in metadata, no current section or language, all tables empty. |
| HymnParser.Parser.CreateSectionKey | src/App.tsx:49-53 | Increments the base's count and returns the base for the first occurrence, `base#n` for the n-th; nothing else changes. |
| HymnParser.Parser.EnsureSectionRecord | src/App.tsx:41-48 | Creates a record with empty lines and appends its key to the order when the key is new; otherwise it fills an empty label only. Afterwards the key has a record. |
| HymnParser.Parser.ReleaseFromBaseQueue | src/App.tsx:54-60 | Removes the first occurrence of the key from its base's queue, when it has a recorded base and a non-empty queue. Only the queues change. |
| HymnParser.Parser.ShiftPending | src/App.tsx:62-68 | Shifts the queue up to and including the first key without Chinese and returns it. If there is none, it empties the queue and returns nothing. |
| HymnParser.Parser.FindSectionForChinese | src/App.tsx:61-81 | Returns, in priority order: the first pending key; the first unpaired key of the heading's type in verse order; the first unpaired key; or a new key under the base (or `section-<n+1>`) that it records. The new state is `AfterLookup`. |
| HymnParser.Parser.RecordBase | src/App.tsx:93 | Records the base of a key; nothing else changes. |
| HymnParser.Parser.Enqueue | src/App.tsx:93-95 | Records the key's base and appends the key to that base's queue, creating the queue when missing. |
| HymnParser.Parser.Activate | src/App.tsx:96-97 | Makes the key the current section and sets the current language. |
| HymnParser.Parser.OpenEnglishSection | src/App.tsx:90-97 | The English branch of a heading: the key `createSectionKey` gives, its record, its queue entry, and the cursor on it. That key is fresh when no base holds `#` (see `EnglishHeadingAppends`). |
| HymnParser.Parser.MarkPaired | src/App.tsx:102 | Sets `hasChinese` on the key's record and changes nothing else. |
| HymnParser.Parser.OpenChineseSection | src/App.tsx:98-105 | The Chinese branch of a heading: it finds the target, keeps an existing label, releases the target from its queue, marks it paired and moves the cursor to it in Chinese. |
| HymnParser.Parser.HandleSectionHeading | src/App.tsx:83-107 | Returns true exactly when the line is a section heading. The state then takes that heading's transition; on any other line it is unchanged. |
| HymnParser.Parser.AppendToSection | src/App.tsx:124-130 | A non-empty line under a current section is appended to the English or the Chinese list of that section, according to the current language. |
| HymnParser.Parser.MetadataLine | src/App.tsx:110-121 | In metadata: `Title:` and `CCLI:` lines set the trimmed value, a heading is handled and closes the metadata, and any other line is dropped. |
| HymnParser.Parser.CloseMetadata | src/App.tsx:120 | Clears the metadata flag only. |
| HymnParser.Parser.BodyLine | src/App.tsx:122-131 | After the metadata a heading is handled, and any other line is appended to the current section. |
| HymnParser.Parser.ProcessLine | src/App.tsx:110-131 | One iteration of the main loop equals the reference step `AfterLine`. |
| HymnHeadings.MatchSectionHeading | src/App.tsx:30-40 | Returns a heading exactly when the line meets the regex-free definition `IsSectionHeading`: a non-empty base, then ` English:` or ` Chinese:` in any case, where the trimmed base starts with one of the six section words. Its base is the trimmed text before the tail, and its language is that of the tail. |
| HymnHeadings.LazyGroupEnd | src/App.tsx:31 | The lazy group `(.+?)` ends exactly where the 9-character language tail begins. |
| HymnHeadings.HeadingNotMetadata | src/App.tsx:110-121 | A heading never starts with `Title:` or `CCLI:`, so the order of the metadata tests does not matter. |
| HymnHeadings.HeadingBaseKeyNonEmpty | src/App.tsx:22 | The normalised base of a heading is never empty, so the `currentSectionKey` guard always passes after a heading. |
| HymnHeadings.DetectTypeNormalized | src/App.tsx:22-29 | For a label with no leading whitespace (as `matchSectionHeading` gives it), the normalised base key has the same section type as the label. |
| HymnHeadings.SameKeySameType | src/App.tsx:83-88 | Two headings whose labels give the same base key get the same section type. |
| HymnHeadings.KeyForInjective | src/App.tsx:49-53 | Two occurrences of one base never get the same key. |
| HymnHeadings.KeyForNonEmpty | src/App.tsx:49-53 | A key made from a non-empty base is non-empty. |
| HymnHeadings.Interleave | src/App.tsx:139-144 | The interleaving loop returns `Interleaved(en, zh)`. |
| HymnHeadings.InterleavedContents | src/App.tsx:139-144 | The interleaving holds exactly the English and Chinese lines, as a multiset. |
| HymnHeadings.InterleavedPair | src/App.tsx:141-144 | While both lists last, English line i is at position 2i and Chinese line i at position 2i+1. |
| HymnHeadings.InterleavedEnglishTail | src/App.tsx:141-144 | Past the Chinese lines, the remaining English lines follow in order. |
| HymnHeadings.InterleavedChineseTail | src/App.tsx:141-144 | Past the English lines, the remaining Chinese lines follow in order. |
| HymnHeadings.EnglishOnlyUnchanged | src/App.tsx:141-144 | With no Chinese lines the verse's lines are its English lines. |
| ParserProperties.RunInv | src/App.tsx:109-132 | After every prefix of the input the tables agree: the order lists each record once and nothing else, every queued key has a record, and the cursor names a record. |
| ParserProperties.LineStep | src/App.tsx:110-131 | One line keeps the invariant and adds itself to the section lines exactly when it is a non-heading line after the metadata. Only a Chinese heading changes a paired flag. |
| ParserProperties.RunMetadata | src/App.tsx:110-121 | The parser is still in metadata exactly when no heading has occurred. The title and CCLI are the last values given before the first heading. |
| ParserProperties.RunLines | src/App.tsx:122-131 | The lines held by all sections are exactly the non-heading lines after the first heading. |
| ParserProperties.RunNoChinese | src/App.tsx:98-105 | Without a Chinese heading no section is paired and every Chinese list is empty. |
| ParserProperties.EnsureRecordStep | src/App.tsx:41-48 | Creating or relabelling a record keeps the invariant and the section lines. |
| ParserProperties.LookupStep | src/App.tsx:61-81 | The Chinese lookup keeps the invariant and the section lines, and returns a key that has a record. |
| ParserProperties.HeadingStep | src/App.tsx:83-107 | A heading transition keeps the invariant and changes no section's lines. |
| ParserProperties.VersesOfAt | src/App.tsx:134-146 | The verse map's keys are exactly the listed keys that have records, each mapped to its interleaved record. |
| ParserProperties.AllVerseLinesCount | src/App.tsx:134-146 | The verses built for a table hold, as a multiset, exactly the lines of its sections. |
| QueueProperties.KeyForUnique | src/App.tsx:49-53 | For bases without `#`, a key determines both its base and its occurrence number. |
| QueueProperties.FreshKey | src/App.tsx:49-53 | While every key was issued for a `#`-free base, the next key for a `#`-free base is not yet a section. |
| QueueProperties.LookupPairing | src/App.tsx:61-81 | For a state whose keys were all issued for `#`-free bases and a `#`-free base, the lookup keeps every key issued for its base and every queue clean (unpaired records, each once, under their base). |
| QueueProperties.ReleasedClean | src/App.tsx:54-60 | Releasing a key keeps the queues clean and removes that key from every queue. |
| QueueProperties.ChinesePairing | src/App.tsx:98-105 | For a `#`-free base key, after a Chinese heading the chosen section is paired and sits in no queue, and the pairing invariant holds. |
| QueueProperties.RunPairing | src/App.tsx:109-132 | In a file without `#`, every prefix keeps the pairing invariant. |
| QueueProperties.QueuedUnpaired | src/App.tsx:62-67 | In a file without `#`, every key waiting in a queue is a section without Chinese. |
| QueueProperties.ChineseLinePairs | src/App.tsx:98-105 | In a file without `#`, after a Chinese heading its section is paired, current and in no queue. |
| QueueProperties.EnglishHeadingAppends | src/App.tsx:90-96 | For a `#`-free base key, an English heading issues a key that is not yet a section, appends it to `verseOrder` and to its base's queue, records an empty section of the label's type, and makes it current in English. |
| QueueProperties.EnglishLineAppends | src/App.tsx:109-132 | In a file without `#`, each English heading line appends one new key to `verseOrder` and to its base's queue. |
| Slides.BuildSlides | src/App.tsx:468-529 | The memo returns no slides without a song. Otherwise it returns the slides of the verse order, or of the key order when the verse order is empty. |
| Slides.VerseStep | src/App.tsx:473-506 | Each verse increments the stanza count unless it is a chorus, and produces `VerseSlides` with that stanza. |
| Slides.SliceVerse | src/App.tsx:490-503 | The chunking loop returns exactly the slides `Chunks` of the plan. |
| Slides.PreInterleavedSlides | src/App.tsx:482-506 | The pre-interleaved chunks use size 10 for ten lines and 8 otherwise, and take their label base from the name, else the key. |
| Slides.XmlSlides | src/App.tsx:507-526 | The XML path cuts chunks of 4 lines labelled from the key. |
| Slides.PreChunkSize | src/App.tsx:485-488 | The chunk size is 10 exactly for a ten-line verse, and otherwise 8. |
| Slides.SuffixLetter | src/App.tsx:494 | Chunk i gets the letter `'a' + i`. |
| Slides.VerseSlidesLines | src/App.tsx:490-506 | A verse's slides, read in order, give back the verse's lines. |
| Slides.VerseSlideSizes | src/App.tsx:490-506 | No slide holds more than the chunk size. A slide is empty only for an empty verse in the pre-interleaved path. |
| Slides.VerseSlidesLayout | src/App.tsx:487-506 | A slide is dense exactly for a ten-line pre-interleaved verse, and never on the XML path. Every pre-interleaved verse gets a slide, and an empty one gets a single slide labelled with its key. An XML verse gets slides exactly when it has lines. |
| Slides.VerseSlidesLabels | src/App.tsx:493-494 | A single-slide verse carries its label base. The slides of a split verse carry the base plus `a`, `b`, … and are pairwise distinct. |
| Slides.VerseNumbering | src/App.tsx:476-480 | Every slide of a verse carries the verse's stanza index, chorus flag and stanza number. |
| Slides.SlidesOfLines | src/App.tsx:473-527 | All slides, read in order, give back the lines of the listed verses. |
| Slides.SlidesOfStanzas | src/App.tsx:476-480 | A slide has no stanza index exactly when it is a chorus, whose stanza number is "C". Stanza indices lie between 1 and the number of non-chorus verses. |
| Slides.ChunkIndex | src/App.tsx:490 | The loop enters chunk j exactly when j is below the ceiling of lines over size. |
| Slides.TotalStanzas | src/App.tsx:531-537 | Returns the number of distinct stanza indices. |
| Slides.TotalStanzasCount | src/App.tsx:531-537 | The stanza total is at most the number of non-chorus verses, and equal to it in the pre-interleaved path. |
| Slides.PreStanzaSet | src/App.tsx:480-506 | In the pre-interleaved path the stanza indices are exactly 1 … the number of non-chorus verses. |
| Slides.RangeSize | src/App.tsx:531-537 | The range 1..n has n elements. |
| CcliFilter.NormalizeDigits | src/App.tsx:185-187 | The result is all digits. It is empty exactly when the input has none, and an all-digit input is kept. |
| CcliFilter.TrimKeepsDigits | src/App.tsx:190 | Trimming the query does not change its digits. |
| CcliFilter.KeepMatching | src/App.tsx:194-200 | Keeps exactly the songs whose CCLI digits are non-empty and have the query's value. |
| CcliFilter.FilterSongsByCcli | src/App.tsx:189-201 | A query without digits returns the list unchanged. Otherwise a song is kept exactly when its CCLI digits have the query's numeric value. |
| CcliFilter.KeepMatchingAppend | src/App.tsx:194-200 | The filter keeps order: filtering a concatenation concatenates the filtered parts. |
| CcliFilter.FilterSongsByCcliIdempotent | src/App.tsx:189-201 | Filtering twice with the same query equals filtering once. |
| CcliFilter.SameDigitsSameMatch | src/App.tsx:192-199 | CCLI numbers differing only by leading zeros match the same queries. |
| HymnScript.HasCjk | scripts/process_hymns.py:46-47 | True exactly when some character lies in U+4E00..U+9FFF. |
| HymnScript.IsPlainHeading | scripts/process_hymns.py:67-75 | True exactly when no character is a digit or a punctuation mark; the empty text is plain. |
| HymnScript.CleanTitle | scripts/process_hymns.py:50-53 | The stripped title, cut before the first whitespace run that precedes a digit. |
| HymnScript.CleanTitleCutsAll | scripts/process_hymns.py:52 | For a one-line title, no whitespace-then-digit remains in the result. |
| HymnScript.CleanTitleKeeps | scripts/process_hymns.py:50-53 | A title with no whitespace before a digit comes back stripped only. |
| HymnScript.CleanTitleStripped | scripts/process_hymns.py:53 | The result has no leading or trailing whitespace. |
| HymnScript.CleanTitleIdempotent | scripts/process_hymns.py:50-53 | For a one-line title, cleaning twice equals cleaning once. |
| HymnScript.NonBlankStripped | scripts/process_hymns.py:20 | No more lines than the input, each non-empty and stripped. |
| HymnScript.NonBlankStrippedEmpty | scripts/process_hymns.py:20 | The result is empty exactly when every input line strips to nothing. |
| HymnScript.NonBlankStrippedSurvives | scripts/process_hymns.py:20 | Every line that is not blank is in the result, stripped. |
| HymnScript.NonBlankStrippedOrigin | scripts/process_hymns.py:20 | Every line of the result is the stripped form of some input line. |
| HymnScript.NonBlankStrippedAppend | scripts/process_hymns.py:20 | The filter works line by line in order: on a concatenation it gives the results of the two parts, one after the other. |
| HymnScript.NonBlankStrippedKeeps | scripts/process_hymns.py:20 | Already stripped, non-empty lines pass unchanged. |
| HymnScript.MergeOnce | scripts/process_hymns.py:31-41 | One pass of the inner loop returns `MergePass`, which joins lines 2k and 2k+1 and keeps a final odd line. |
| HymnScript.MergePassAt | scripts/process_hymns.py:31-41 | Position k of a pass is the join of lines 2k and 2k+1, or line 2k when it is the last. |
| HymnScript.CollapseLines | scripts/process_hymns.py:18-43 | Returns `Collapse` of the stripped non-blank lines: at most `max_lines` lines, and none exactly when every input line is blank. |
| HymnScript.CollapseBounds | scripts/process_hymns.py:30-43 | At most `max_lines` lines remain. The result is empty exactly when the input is, and lines already within the bound are unchanged. |
| HymnScript.JoinStripped | scripts/process_hymns.py:24-28 | Joining stripped lines is `a + joiner + b`: no joiner in Chinese or after a dash, one space otherwise. The result is stripped. |
| HymnScript.CollapseStripped | scripts/process_hymns.py:18-43 | Every collapsed line is non-empty and stripped. |
| HymnScript.CollapseChinese | scripts/process_hymns.py:24-41 | In Chinese, collapsing keeps the concatenated text unchanged. |
| BlockParser.ParseBlock | scripts/process_hymns.py:163-208 | Returns the scanned sections with their lines collapsed to four, in English mode for 'en' and Chinese mode for anything else. |
| BlockParser.ScanBlock | scripts/process_hymns.py:164-202 | The scanning loop returns the sections and the stanza counter of the reference scan. |
| BlockParser.ChorusRemainder | scripts/process_hymns.py:174-178 | Finds a chorus token exactly when the text starts with one. The remainder is what follows the first such token, after the separators are stripped. |
| BlockParser.ChorusDetected | scripts/process_hymns.py:168-189 | A line starts a chorus exactly when it is non-blank, holds no metadata token, and starts with a chorus token of the block's language (without case in English). |
| BlockParser.ChorusRemainderParts | scripts/process_hymns.py:177-186 | The chorus line's first line is the text after the token minus the leading separators, and it does not start with a separator. |
| BlockParser.NumberedLineStartsVerse | scripts/process_hymns.py:191-196 | A numbered line appends a verse labelled by its digits, with the text after them as its first line, and sets the counter to their value. |
| BlockParser.FirstLyricOpensVerseOne | scripts/process_hymns.py:198-202 | A lyric line before any section opens verse "1" holding that line, and the counter becomes 1. |
| BlockParser.LyricLineAppends | scripts/process_hymns.py:202 | A later lyric line is appended to the last section; the other sections are unchanged. |
| BlockParser.SkippedLineKeeps | scripts/process_hymns.py:169-170 | Blank lines and metadata lines change nothing. |
| BlockParser.ScanKeepsText | scripts/process_hymns.py:167-202 | The sections' lines, in order, are exactly the text each line contributes. |
| BlockParser.ParseBlockShape | scripts/process_hymns.py:204-208 | Collapsing keeps the sections' kinds and labels. Every section is well labelled, with at most four stripped, non-empty lines. |
| SectionFormat.Fmt | scripts/process_hymns.py:274-281 | Returns the stripped `'\n'`-join of, for each section, its heading, its lines and a blank line. |
| SectionFormat.FmtSectionAt | scripts/process_hymns.py:276-280 | Section k's block sits, intact, after the blocks of the sections before it. |
| SectionFormat.FmtHeadingAt | scripts/process_hymns.py:277-278 | The line at section k's offset is that section's heading. |
| SectionFormat.FmtDropsFinalBlank | scripts/process_hymns.py:280-281 | For writable sections, the final strip removes exactly the last blank line. |
| SectionFormat.FmtReadsBack | scripts/process_hymns.py:274-281 | Splitting the written text on line breaks gives back every line `fmt` wrote, except the final blank line. |
| SectionFormat.SplitJoin | scripts/process_hymns.py:281 | Splitting a `'\n'`-join of lines without line breaks gives back those lines. |
| SectionFormat.FmtEmpty | scripts/process_hymns.py:274-281 | No sections give the empty text. |
| SectionHeader.HeaderMatch | scripts/process_hymns.py:13 | A match starts with "Verse" or "Chorus" and ends with "English:" for 'en' or "Chinese:" for 'cn'. |
| SectionHeader.SectionLang | scripts/process_hymns.py:293-298 | Classifies the stripped line. A language is returned only for lines with the header's start and the matching `English:` / `Chinese:` end. |
| SectionHeader.HeaderMatchWords | scripts/process_hymns.py:13 | On a stripped line the regex model agrees with the word-level reading: `Verse <word> <Lang>:` or `Chorus <Lang>:`, gives the language. |
| SectionHeader.SectionLangWords | scripts/process_hymns.py:293-298 | `_section_lang` is the word-level reading of the stripped line. |
| SectionHeader.ChorusHeaderMatch | scripts/process_hymns.py:277-278 | `Chorus English:` / `Chorus Chinese:` match the header pattern with their language. |
| SectionHeader.VerseHeaderMatch | scripts/process_hymns.py:277-278 | `Verse <digits> English:` / `… Chinese:` match the header pattern with their language. |
| SectionHeader.FmtHeadingClassified | scripts/process_hymns.py:277-278 | The heading `fmt` writes for a well-labelled section under label English or Chinese is classified 'en' or 'cn' respectively. |
| SectionHeader.FmtHeadingAccepted | src/App.tsx:30-40 | The app's `matchSectionHeading` accepts that heading. The base is the section name, the language is the label's, and `detectType` gives chorus for a chorus and verse for a verse. |
| SectionHeader.FmtHeadingsRecognised | scripts/process_hymns.py:274-281 | In `fmt`'s output, the line at each section's offset is its heading, which `_section_lang` classifies by the label and the app reads with the section's name as base. |

## Left out

- `uid()` is random; the model takes the generated id as the parameter `generatedId`.
- The `try`/`catch` of `parseHymnFile` is not modelled: no modelled operation can throw, so the `null` result never arises.
- React state, effects, `BroadcastChannel`, `import.meta.glob` and `preloadedHymns` (src/App.tsx:160-168) are out of the core. So are the UI and keyboard handling.
- `interleaveSlides` (src/App.tsx:170-181) is never called and is not modelled.
- `Object.keys(currentSong.verses)` has a fixed order in JavaScript: integer-like keys in ascending order, then the other keys in insertion order. The model does not compute it. It takes the order as the parameter `verseKeys`, and the slide lemmas hold for every order.
- `Number(...)` is modelled as the exact decimal value of a digit string (`DecimalValue`). JavaScript rounds numbers beyond 2^53, so two different long CCLI numbers with the same double would match in the app but not in the model.
- Whitespace, digits, lower-casing and `/i` case folding are restricted to ASCII in both languages. Python's Unicode `\s`, `isdigit()` and `lower()`, and JavaScript's Unicode `\s` and `toLowerCase()`, are not modelled beyond ASCII and the U+1C..U+1F separators of `str.isspace()`.
- `String.fromCharCode(97 + i)` for chunk indices that reach the surrogate range gives a lone code unit; the model gives U+FFFD there.
- Keys of the form `base#n` can collide with a label that itself contains `#`. For example, the headings "Verse 1 English:", "Verse 1 English:" and "Verse 1#2 English:" give the third heading the key of the second. The pairing lemmas below are stated only for `#`-free bases, where this cannot happen.
- QueueProperties.LookupPairing: holds for a base without `#`, in a state whose keys were all issued for such bases.
- QueueProperties.ChinesePairing: holds for a base key without `#`, in such a state.
- QueueProperties.EnglishHeadingAppends and EnglishLineAppends: the key is fresh only for `#`-free bases. Otherwise "Verse 1#2" reuses an existing key and `verseOrder` does not grow.
- QueueProperties.RunPairing, QueuedUnpaired and ChineseLinePairs: hold for files without `#`.
- HymnScript.CleanTitleIdempotent and CleanTitleCutsAll: hold for titles without line breaks, because `.` in `\s+\d.*$` does not cross a newline.
- HymnScript.CollapseLines: requires max_lines ≥ 1, the only values the script uses. With 0 the source loop never ends.
- SectionHeader.HeaderMatch: models the regex on stripped lines only, which is the only way `_section_lang` calls it. There, `$` accepting a final newline cannot matter.
- SectionFormat.FmtReadsBack and FmtDropsFinalBlank: require writable sections: heading, lyric lines without line breaks, and a non-blank first and last line. `parse_block` produces these.
- SectionHeader.FmtHeadingClassified, FmtHeadingAccepted and FmtHeadingsRecognised: require well-labelled sections (a chorus labelled "C", a verse labelled by digits) and the label English or Chinese. These are exactly what `parse_block` and `generate_hymns` produce.
- `BlockParser.ParseBlock` picks its collapse language once. The source computes the same value per section.
- The rest of `scripts/process_hymns.py` is not modelled, because it reads and writes files: `sanitize_index`, `_strip_embedded_heading`, `generate_hymns` apart from `fmt` (index parsing, title lines, file naming and writing), `reformat` and `main`.
