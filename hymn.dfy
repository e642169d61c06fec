/**
 * The song record that the parser produces, the segmenter consumes and the
 * CCLI filter selects from (src/App.tsx, `Verse` and `Song`).
 */
module Hymn {
  import opened Wrappers

  /** `Verse['type']`. A verse whose type is missing behaves like `OtherSection`
      everywhere it is inspected (only `=== 'chorus'` is ever tested). */
  datatype SectionType = VerseSection | ChorusSection | OtherSection

  datatype Verse = Verse(name: string, lines: seq<string>, vtype: SectionType)

  /** `preInterleaved` left undefined is `false`. */
  datatype Song = Song(
    id: string,
    title: string,
    ccliNo: Option<string>,
    verseOrder: seq<string>,
    verses: map<string, Verse>,
    preInterleaved: bool)

  /** No element occurs twice: each one is absent from the part before it. */
  predicate Distinct<T(==)>(s: seq<T>) {
    s == [] || (s[|s| - 1] !in s[..|s| - 1] && Distinct(s[..|s| - 1]))
  }

  /** The song invariant: the presentation order has no duplicates and names
      exactly the keys of `verses`. */
  predicate WellFormed(song: Song) {
    && Distinct(song.verseOrder)
    && (forall k :: k in song.verses ==> k in song.verseOrder)
    && (forall i :: 0 <= i < |song.verseOrder| ==> song.verseOrder[i] in song.verses)
  }

  /** Every line of every verse, verse by verse in presentation order. */
  function AllVerseLines(verses: map<string, Verse>, order: seq<string>): seq<string> {
    if order == [] then []
    else
      var key := order[|order| - 1];
      AllVerseLines(verses, order[..|order| - 1]) + (if key in verses then verses[key].lines else [])
  }
}
