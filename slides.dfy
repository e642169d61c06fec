/**
 * The slide list the projector shows for the current song (the `slides`
 * memo of src/App.tsx) and the stanza total derived from it
 * (`totalStanzas`).
 *
 * The functions below say, verse by verse, which slides a song yields; the
 * methods `BuildSlides` and `TotalStanzas` are the source's loops, proved to
 * compute them. The lemmas state what the layout promises: the chunks of a
 * verse give back its lines, no chunk is larger than its chunk size, the
 * ten-line layout is chosen exactly for ten-line verses, an empty verse still
 * gets a slide, and the stanza numbering counts the non-chorus verses.
 */
module Slides {
  import opened Wrappers
  import opened Strings
  import opened Hymn

  /** One slide. `stzNumber` and `stanzaIndex` are undefined where the source
      leaves them undefined; `dense` is `layoutHint === 'dense'`. */
  datatype Slide = Slide(
    labelText: string,
    lines: seq<string>,
    stzNumber: Option<string>,
    stanzaIndex: Option<nat>,
    isChorus: bool,
    dense: bool)

  /** `XML_SLICE_SIZE` */
  const XmlSliceSize: nat := 4

  /** `Math.ceil(n / d)`, counted one `d` at a time (`CeilDivIsCeiling`
      relates it to division). */
  function CeilDiv(n: nat, d: nat): nat
    requires d > 0
    decreases n
  {
    if n == 0 then 0 else if n <= d then 1 else 1 + CeilDiv(n - d, d)
  }

  function Min(a: nat, b: nat): nat {
    if a <= b then a else b
  }

  /** `Math.ceil(n / 2) === 5 && Math.floor(n / 2) === 5`: the estimate of
      five English and five Chinese lines. */
  predicate FiveLineStanza(n: nat) {
    (n + 1) / 2 == 5 && n / 2 == 5
  }

  /** The chunk size of the pre-interleaved path: ten lines exactly for a
      ten-line verse, eight otherwise. */
  function PreChunkSize(n: nat): (size: nat)
    ensures size == 10 <==> n == 10
    ensures size != 10 ==> size == 8
  {
    if FiveLineStanza(n) then 10 else 8
  }

  /** `Math.ceil(n / chunkSize) || 1` */
  function PreChunkCount(n: nat): nat {
    if CeilDiv(n, PreChunkSize(n)) == 0 then 1 else CeilDiv(n, PreChunkSize(n))
  }

  /** `String.fromCharCode(97 + i)`: the UTF-16 code unit `(97 + i) mod 2^16`.
      A lone surrogate code unit is no character here; it becomes U+FFFD. */
  function SuffixLetter(i: nat): (c: char)
    ensures i < 26 ==> c == ('a' as int + i) as char
  {
    var code := (97 + i) % 0x1_0000;
    if 0xD800 <= code < 0xE000 then 0xFFFD as char else code as char
  }

  /** A chunk's label: suffixed with a letter only when the verse splits. */
  function ChunkLabel(base: string, chunkCount: nat, chunkIndex: nat): string {
    if chunkCount > 1 then base + [SuffixLetter(chunkIndex)] else base
  }

  /** The line at which chunk `j` starts, `j * size`, one loop step at a
      time. */
  function ChunkStart(j: nat, size: nat): nat {
    if j == 0 then 0 else ChunkStart(j - 1, size) + size
  }

  /** `lines.slice(start, start + size)` at the start of chunk `j`. */
  function Chunk(lines: seq<string>, size: nat, j: nat): seq<string> {
    lines[Min(ChunkStart(j, size), |lines|)..Min(ChunkStart(j, size) + size, |lines|)]
  }

  /** `v.name || key` */
  function BaseLabel(key: string, v: Verse): string {
    if v.name != "" then v.name else key
  }

  /** `baseLabel || key`, the label base of the pre-interleaved chunks. */
  function PreLabelBase(key: string, v: Verse): string {
    if BaseLabel(key, v) != "" then BaseLabel(key, v) else key
  }

  predicate IsChorusVerse(key: string, v: Verse) {
    v.vtype == ChorusSection || StartsWith(Lower(BaseLabel(key, v)), "chorus")
  }

  /** "C" for a chorus, otherwise the first run of digits of the label. */
  function StzNumber(key: string, v: Verse): Option<string> {
    if IsChorusVerse(key, v) then Some("C") else FirstDigitRun(BaseLabel(key, v))
  }

  /** What every slide of one verse carries, computed once per verse. */
  datatype VerseTag = VerseTag(stzNumber: Option<string>, stanzaIndex: Option<nat>, isChorus: bool)

  function TagOf(key: string, v: Verse, stanza: Option<nat>): VerseTag {
    VerseTag(StzNumber(key, v), stanza, IsChorusVerse(key, v))
  }

  /** How one verse is cut into slides: the chunk size, the chunk count
      its labels use, the label base, and the dense flag when the whole verse
      shares one (`None`: a chunk of ten or more lines is dense). */
  datatype ChunkPlan = ChunkPlan(size: nat, count: nat, labelBase: string, fixedDense: Option<bool>)

  /** The plan of the pre-interleaved path. */
  function PrePlan(n: nat, labelBase: string): ChunkPlan {
    ChunkPlan(PreChunkSize(n), PreChunkCount(n), labelBase, Some(FiveLineStanza(n)))
  }

  /** The plan of the path for songs read from XML. */
  function XmlPlan(n: nat, key: string): ChunkPlan {
    ChunkPlan(XmlSliceSize, CeilDiv(n, XmlSliceSize), key, None)
  }

  /** The plan the song's format chooses for a verse. */
  function PlanOf(key: string, v: Verse, preInterleaved: bool): ChunkPlan {
    if preInterleaved then PrePlan(|v.lines|, PreLabelBase(key, v)) else XmlPlan(|v.lines|, key)
  }

  /** Slide `j` of a verse cut by `plan`. */
  function ChunkSlide(lines: seq<string>, plan: ChunkPlan, tag: VerseTag, j: nat): Slide {
    var chunk := Chunk(lines, plan.size, j);
    Slide(ChunkLabel(plan.labelBase, plan.count, j), chunk, tag.stzNumber, tag.stanzaIndex, tag.isChorus,
          if plan.fixedDense.Some? then plan.fixedDense.value else |chunk| >= 10)
  }

  /** The first `m` slides of a verse cut by `plan`. */
  function ChunksTo(lines: seq<string>, plan: ChunkPlan, tag: VerseTag, m: nat): seq<Slide> {
    if m == 0 then [] else ChunksTo(lines, plan, tag, m - 1) + [ChunkSlide(lines, plan, tag, m - 1)]
  }

  /** All chunk slides of a verse cut by `plan`, one per started chunk. */
  function Chunks(lines: seq<string>, plan: ChunkPlan, tag: VerseTag): seq<Slide>
    requires plan.size > 0
  {
    ChunksTo(lines, plan, tag, CeilDiv(|lines|, plan.size))
  }

  /** The slide an empty pre-interleaved verse still gets. */
  function EmptyVerseSlide(key: string, tag: VerseTag): Slide {
    Slide(key, [], tag.stzNumber, tag.stanzaIndex, tag.isChorus, false)
  }

  /** The slides of one verse carrying stanza index `stanza`. */
  function VerseSlides(key: string, v: Verse, stanza: Option<nat>, preInterleaved: bool): seq<Slide> {
    var tag := TagOf(key, v, stanza);
    Chunks(v.lines, PlanOf(key, v, preInterleaved), tag)
      + (if preInterleaved && v.lines == [] then [EmptyVerseSlide(key, tag)] else [])
  }

  /** The number of verses of `order` that have a record and are no chorus. */
  function StanzaCount(order: seq<string>, verses: map<string, Verse>): nat {
    if order == [] then 0
    else
      var key := order[|order| - 1];
      StanzaCount(order[..|order| - 1], verses)
        + (if key in verses && !IsChorusVerse(key, verses[key]) then 1 else 0)
  }

  /** The stanza index of the last verse of `order`. */
  function StanzaOf(order: seq<string>, verses: map<string, Verse>): Option<nat>
    requires order != [] && order[|order| - 1] in verses
  {
    var key := order[|order| - 1];
    if IsChorusVerse(key, verses[key]) then None else Some(StanzaCount(order, verses))
  }

  /** The slides of the verses of `order`, in order. */
  function SlidesOf(order: seq<string>, verses: map<string, Verse>, preInterleaved: bool): seq<Slide> {
    if order == [] then []
    else
      var key := order[|order| - 1];
      SlidesOf(order[..|order| - 1], verses, preInterleaved)
        + (if key in verses then VerseSlides(key, verses[key], StanzaOf(order, verses), preInterleaved) else [])
  }

  /** `verseOrder` when it is non-empty, otherwise `Object.keys(verses)`,
      whose order is passed in. */
  function SlideOrder(song: Song, verseKeys: seq<string>): seq<string> {
    if |song.verseOrder| > 0 then song.verseOrder else verseKeys
  }

  /** The memo's value: no slides without a current song. */
  function Slides(song: Option<Song>, verseKeys: seq<string>): seq<Slide> {
    match song
    case None => []
    case Some(s) => SlidesOf(SlideOrder(s, verseKeys), s.verses, s.preInterleaved)
  }

  /** The stanza indices the slides define (`if (slide.stanzaIndex)` skips 0). */
  function StanzaSet(slides: seq<Slide>): set<nat> {
    set i | 0 <= i < |slides| && slides[i].stanzaIndex.Some? && slides[i].stanzaIndex.value != 0 :: slides[i].stanzaIndex.value
  }

  /** The lines of each slide, in order. */
  function LinesOf(slides: seq<Slide>): seq<seq<string>> {
    seq(|slides|, i requires 0 <= i < |slides| => slides[i].lines)
  }

  /** The concatenation of a list of line lists. */
  function Concat(xss: seq<seq<string>>): seq<string> {
    if xss == [] then [] else Concat(xss[..|xss| - 1]) + xss[|xss| - 1]
  }

  /** All lines of the slides, slide after slide. */
  function SlideLines(slides: seq<Slide>): seq<string> {
    Concat(LinesOf(slides))
  }

  /** What a verse's labels start with. */
  function LabelBase(key: string, v: Verse, preInterleaved: bool): string {
    if preInterleaved && v.lines != [] then PreLabelBase(key, v) else key
  }

  /** The numbers one to `n`. */
  function Range(n: nat): (r: set<nat>)
    ensures forall c :: c in r <==> 1 <= c <= n
  {
    if n == 0 then {} else Range(n - 1) + {n}
  }

  /** The concatenated lines of the present verses of `order`. */
  function OrderLines(order: seq<string>, verses: map<string, Verse>): seq<string> {
    if order == [] then []
    else
      var key := order[|order| - 1];
      OrderLines(order[..|order| - 1], verses) + (if key in verses then verses[key].lines else [])
  }

  // ---------------------------------------------------------------------
  // Chunk arithmetic
  // ---------------------------------------------------------------------

  /** The chunk sizes both paths use. */
  predicate UsedChunkSize(size: nat) {
    size == XmlSliceSize || size == 8 || size == 10
  }

  /** Chunk `j` starts inside the lines exactly when `j` is below the chunk
      count, and the chunk count is the first chunk that starts past them. */
  lemma {:induction false} ChunkIndex(n: nat, size: nat, j: nat)
    requires size > 0
    ensures ChunkStart(j, size) < n <==> j < CeilDiv(n, size)
    ensures ChunkStart(j, size) >= n && (j == 0 || ChunkStart(j - 1, size) < n) ==> j == CeilDiv(n, size)
    decreases n, j
  {
    if j > 0 {
      ChunkStartAtLeast(j, size);
      if n > size {
        ChunkIndex(n - size, size, j - 1);
      }
      ChunkIndex(n, size, j - 1);
    }
  }

  lemma {:induction false} ChunkStartAtLeast(j: nat, size: nat)
    requires j > 0
    ensures ChunkStart(j, size) >= size
  {
    if j > 1 {
      ChunkStartAtLeast(j - 1, size);
    }
  }

  /** Chunk `j` starts at line `j * size`. */
  lemma {:induction false} ChunkStartProduct(j: nat, size: nat)
    ensures ChunkStart(j, size) == j * size
  {
    if j > 0 {
      ChunkStartProduct(j - 1, size);
      assert (j - 1) * size + size == j * size;
    }
  }

  /** The loop's `Math.floor(i / size)` at the start of chunk `j` is `j`. */
  lemma ChunkDiv(j: nat, size: nat)
    requires UsedChunkSize(size)
    ensures ChunkStart(j, size) / size == j
  {
    ChunkStartProduct(j, size);
    if size == 4 {
      assert j * size == j * 4;
    } else if size == 8 {
      assert j * size == j * 8;
    } else {
      assert j * size == j * 10;
    }
  }

  /** The counting definition agrees with `(n + d - 1) / d`. */
  lemma {:induction false} CeilDivIsCeiling(n: nat, d: nat)
    requires UsedChunkSize(d)
    ensures CeilDiv(n, d) == (n + d - 1) / d
    decreases n
  {
    if n > d {
      CeilDivIsCeiling(n - d, d);
    }
  }

  /** Every chunk below the chunk count holds between one and `size` lines. */
  lemma ChunkSize(lines: seq<string>, size: nat, j: nat)
    requires size > 0 && j < CeilDiv(|lines|, size)
    ensures 1 <= |Chunk(lines, size, j)| <= size
  {
    ChunkIndex(|lines|, size, j);
  }

  /** The lines before chunk `j`. */
  function LinesBefore(lines: seq<string>, size: nat, j: nat): seq<string> {
    lines[..Min(ChunkStart(j, size), |lines|)]
  }

  /** Chunk `j` continues the lines before it. */
  lemma ChunkJoin(lines: seq<string>, size: nat, j: nat)
    ensures LinesBefore(lines, size, j) + Chunk(lines, size, j) == LinesBefore(lines, size, j + 1)
  {
    var a := ChunkStart(j, size);
    assert lines[..Min(a, |lines|)] + lines[Min(a, |lines|)..Min(a + size, |lines|)] == lines[..Min(a + size, |lines|)];
  }

  /** Past the last chunk the loop has covered every line. */
  lemma ChunksCover(n: nat, size: nat)
    requires size > 0
    ensures ChunkStart(CeilDiv(n, size), size) >= n
  {
    ChunkIndex(n, size, CeilDiv(n, size));
  }

  lemma ConcatAppend(xss: seq<seq<string>>, yss: seq<seq<string>>)
    ensures Concat(xss + yss) == Concat(xss) + Concat(yss)
    decreases |yss|
  {
    if yss != [] {
      assert (xss + yss)[..|xss + yss| - 1] == xss + yss[..|yss| - 1];
      ConcatAppend(xss, yss[..|yss| - 1]);
    } else {
      assert xss + yss == xss;
    }
  }

  lemma SlideLinesAppend(a: seq<Slide>, b: seq<Slide>)
    ensures SlideLines(a + b) == SlideLines(a) + SlideLines(b)
  {
    assert LinesOf(a + b) == LinesOf(a) + LinesOf(b);
    ConcatAppend(LinesOf(a), LinesOf(b));
  }

  /** The chunks `0 .. m - 1` of a verse's lines. */
  function ChunkList(lines: seq<string>, size: nat, m: nat): seq<seq<string>> {
    seq(m, j requires 0 <= j < m => Chunk(lines, size, j))
  }

  /** The first `m` chunks hold the lines before chunk `m`. */
  lemma {:induction false} ConcatChunks(lines: seq<string>, size: nat, m: nat)
    ensures Concat(ChunkList(lines, size, m)) == LinesBefore(lines, size, m)
  {
    if m > 0 {
      ConcatChunks(lines, size, m - 1);
      assert ChunkList(lines, size, m)[..m - 1] == ChunkList(lines, size, m - 1);
      ChunkJoin(lines, size, m - 1);
    }
  }

  // ---------------------------------------------------------------------
  // The chunks of one verse
  // ---------------------------------------------------------------------

  lemma {:induction false} ChunksToIndex(lines: seq<string>, plan: ChunkPlan, tag: VerseTag, m: nat)
    ensures |ChunksTo(lines, plan, tag, m)| == m
    ensures forall j :: 0 <= j < m ==> ChunksTo(lines, plan, tag, m)[j] == ChunkSlide(lines, plan, tag, j)
  {
    if m > 0 {
      ChunksToIndex(lines, plan, tag, m - 1);
    }
  }

  /** The chunk slides, one per chunk of the verse's lines. */
  lemma ChunksShape(lines: seq<string>, plan: ChunkPlan, tag: VerseTag)
    requires plan.size > 0
    ensures |Chunks(lines, plan, tag)| == CeilDiv(|lines|, plan.size)
    ensures forall j :: 0 <= j < |Chunks(lines, plan, tag)| ==> Chunks(lines, plan, tag)[j] == ChunkSlide(lines, plan, tag, j)
  {
    ChunksToIndex(lines, plan, tag, CeilDiv(|lines|, plan.size));
  }

  /** The chunk starting at line `ChunkStart(j, size)` while the loop is
      inside the lines: its index, its lines and its place in the count. */
  lemma ChunkAt(lines: seq<string>, size: nat, j: nat)
    requires UsedChunkSize(size) && ChunkStart(j, size) < |lines|
    ensures j < CeilDiv(|lines|, size)
    ensures ChunkStart(j, size) / size == j
    ensures Chunk(lines, size, j) == lines[ChunkStart(j, size)..Min(ChunkStart(j, size) + size, |lines|)]
  {
    ChunkIndex(|lines|, size, j);
    ChunkDiv(j, size);
  }

  /** The chunk slides give back the lines. */
  lemma ChunksLines(lines: seq<string>, plan: ChunkPlan, tag: VerseTag)
    requires plan.size > 0
    ensures SlideLines(Chunks(lines, plan, tag)) == lines
  {
    var count := CeilDiv(|lines|, plan.size);
    assert LinesOf(Chunks(lines, plan, tag)) == ChunkList(lines, plan.size, count) by {
      ChunksShape(lines, plan, tag);
    }
    ConcatChunks(lines, plan.size, count);
    ChunksCover(|lines|, plan.size);
    assert lines[..|lines|] == lines;
  }

  /** Every chunk slide holds one to `plan.size` lines. */
  lemma ChunksSizes(lines: seq<string>, plan: ChunkPlan, tag: VerseTag)
    requires plan.size > 0
    ensures forall i :: 0 <= i < |Chunks(lines, plan, tag)| ==> 1 <= |Chunks(lines, plan, tag)[i].lines| <= plan.size
  {
    ChunksShape(lines, plan, tag);
    forall i | 0 <= i < |Chunks(lines, plan, tag)|
      ensures 1 <= |Chunks(lines, plan, tag)[i].lines| <= plan.size
    {
      ChunkSize(lines, plan.size, i);
    }
  }

  // ---------------------------------------------------------------------
  // One verse
  // ---------------------------------------------------------------------

  /** The slides of a verse give back exactly its lines. */
  lemma VerseSlidesLines(key: string, v: Verse, stanza: Option<nat>, preInterleaved: bool)
    ensures SlideLines(VerseSlides(key, v, stanza, preInterleaved)) == v.lines
  {
    var tag := TagOf(key, v, stanza);
    var plan := PlanOf(key, v, preInterleaved);
    var chunks := Chunks(v.lines, plan, tag);
    ChunksLines(v.lines, plan, tag);
    if preInterleaved && v.lines == [] {
      var empty := EmptyVerseSlide(key, tag);
      assert VerseSlides(key, v, stanza, preInterleaved) == chunks + [empty];
      SlideLinesAppend(chunks, [empty]);
      assert LinesOf([empty]) == [[]];
      assert Concat([[]]) == Concat([]) + [];
    } else {
      assert VerseSlides(key, v, stanza, preInterleaved) == chunks;
    }
  }

  /** No slide holds more than the path's chunk size, and only an empty
      verse's slide is empty. */
  lemma VerseSlideSizes(key: string, v: Verse, stanza: Option<nat>, preInterleaved: bool)
    ensures forall i :: 0 <= i < |VerseSlides(key, v, stanza, preInterleaved)| ==>
      |VerseSlides(key, v, stanza, preInterleaved)[i].lines| <= (if preInterleaved then PreChunkSize(|v.lines|) else XmlSliceSize)
    ensures forall i :: 0 <= i < |VerseSlides(key, v, stanza, preInterleaved)| && VerseSlides(key, v, stanza, preInterleaved)[i].lines == [] ==>
      preInterleaved && v.lines == []
  {
    var tag := TagOf(key, v, stanza);
    var plan := PlanOf(key, v, preInterleaved);
    var chunks := Chunks(v.lines, plan, tag);
    ChunksSizes(v.lines, plan, tag);
    if preInterleaved && v.lines == [] {
      assert VerseSlides(key, v, stanza, preInterleaved) == chunks + [EmptyVerseSlide(key, tag)];
    } else {
      assert VerseSlides(key, v, stanza, preInterleaved) == chunks;
    }
  }

  /** The dense layout is chosen exactly for a ten-line pre-interleaved
      verse; the XML path, whose chunks hold at most four lines, never
      chooses it. Every verse of the pre-interleaved path gets a slide, an
      empty one exactly one slide labelled with its key. */
  lemma VerseSlidesLayout(key: string, v: Verse, stanza: Option<nat>, preInterleaved: bool)
    ensures forall i :: 0 <= i < |VerseSlides(key, v, stanza, preInterleaved)| ==>
      (VerseSlides(key, v, stanza, preInterleaved)[i].dense <==> preInterleaved && |v.lines| == 10)
    ensures preInterleaved ==> |VerseSlides(key, v, stanza, preInterleaved)| >= 1
    ensures preInterleaved && v.lines == [] ==>
      VerseSlides(key, v, stanza, preInterleaved) == [Slide(key, [], StzNumber(key, v), stanza, IsChorusVerse(key, v), false)]
    ensures !preInterleaved ==> (VerseSlides(key, v, stanza, preInterleaved) == [] <==> v.lines == [])
  {
    var n := |v.lines|;
    var tag := TagOf(key, v, stanza);
    var plan := PlanOf(key, v, preInterleaved);
    var chunks := Chunks(v.lines, plan, tag);
    ChunksShape(v.lines, plan, tag);
    ChunkIndex(n, plan.size, 0);
    if preInterleaved && n == 0 {
      assert VerseSlides(key, v, stanza, preInterleaved) == chunks + [EmptyVerseSlide(key, tag)];
    } else {
      assert VerseSlides(key, v, stanza, preInterleaved) == chunks;
      forall i | 0 <= i < |chunks|
        ensures chunks[i].dense <==> preInterleaved && n == 10
      {
        ChunkSize(v.lines, plan.size, i);
      }
    }
  }


  /** A verse on one slide carries its label base; a verse split over several
      slides labels them with the base followed by one letter per chunk,
      "a" for the first, and no two of them alike. */
  lemma VerseSlidesLabels(key: string, v: Verse, stanza: Option<nat>, preInterleaved: bool)
    ensures |VerseSlides(key, v, stanza, preInterleaved)| == 1 ==>
      VerseSlides(key, v, stanza, preInterleaved)[0].labelText == LabelBase(key, v, preInterleaved)
    ensures forall i :: 0 <= i < |VerseSlides(key, v, stanza, preInterleaved)| && |VerseSlides(key, v, stanza, preInterleaved)| > 1 ==>
      VerseSlides(key, v, stanza, preInterleaved)[i].labelText == LabelBase(key, v, preInterleaved) + [SuffixLetter(i)]
    ensures forall i, j :: 0 <= i < j < |VerseSlides(key, v, stanza, preInterleaved)| <= 0xD800 - 97 ==>
      VerseSlides(key, v, stanza, preInterleaved)[i].labelText != VerseSlides(key, v, stanza, preInterleaved)[j].labelText
  {
    var slides := VerseSlides(key, v, stanza, preInterleaved);
    var tag := TagOf(key, v, stanza);
    if preInterleaved && v.lines == [] {
      assert |slides| == 1;
    } else {
      var plan := PlanOf(key, v, preInterleaved);
      ChunksShape(v.lines, plan, tag);
      ChunkIndex(|v.lines|, plan.size, 0);
      assert slides == Chunks(v.lines, plan, tag);
      var base := LabelBase(key, v, preInterleaved);
      assert forall i :: 0 <= i < |slides| ==> slides[i].labelText == ChunkLabel(base, |slides|, i);
      forall i, j | 0 <= i < j < |slides| <= 0xD800 - 97
        ensures slides[i].labelText != slides[j].labelText
      {
        LettersDiffer(base, i, j);
      }
    }
  }

  /** Below the surrogate range the suffix letters are pairwise distinct. */
  lemma LettersDiffer(base: string, i: nat, j: nat)
    requires i < j < 0xD800 - 97
    ensures base + [SuffixLetter(i)] != base + [SuffixLetter(j)]
  {
    var a := base + [SuffixLetter(i)];
    var b := base + [SuffixLetter(j)];
    assert a[|base|] != b[|base|];
  }

  // ---------------------------------------------------------------------
  // The song
  // ---------------------------------------------------------------------

  /** Nothing is lost or reordered: the slides hold the lines of the present
      verses of the order, one verse after the other. */
  lemma {:induction false} SlidesOfLines(order: seq<string>, verses: map<string, Verse>, preInterleaved: bool)
    ensures SlideLines(SlidesOf(order, verses, preInterleaved)) == OrderLines(order, verses)
  {
    if order != [] {
      var front := order[..|order| - 1];
      var key := order[|order| - 1];
      SlidesOfLines(front, verses, preInterleaved);
      var rest := if key in verses then VerseSlides(key, verses[key], StanzaOf(order, verses), preInterleaved) else [];
      SlideLinesAppend(SlidesOf(front, verses, preInterleaved), rest);
      if key in verses {
        VerseSlidesLines(key, verses[key], StanzaOf(order, verses), preInterleaved);
      }
    }
  }

  /** A slide has no stanza index exactly when it belongs to a chorus, a
      chorus is numbered "C", and every stanza index lies between one and
      the number of non-chorus verses. */
  lemma {:induction false} SlidesOfStanzas(order: seq<string>, verses: map<string, Verse>, preInterleaved: bool)
    ensures forall i :: 0 <= i < |SlidesOf(order, verses, preInterleaved)| ==>
      (SlidesOf(order, verses, preInterleaved)[i].stanzaIndex.None? <==> SlidesOf(order, verses, preInterleaved)[i].isChorus)
    ensures forall i :: 0 <= i < |SlidesOf(order, verses, preInterleaved)| && SlidesOf(order, verses, preInterleaved)[i].isChorus ==>
      SlidesOf(order, verses, preInterleaved)[i].stzNumber == Some("C")
    ensures forall i :: 0 <= i < |SlidesOf(order, verses, preInterleaved)| && SlidesOf(order, verses, preInterleaved)[i].stanzaIndex.Some? ==>
      1 <= SlidesOf(order, verses, preInterleaved)[i].stanzaIndex.value <= StanzaCount(order, verses)
  {
    if order != [] {
      var front := order[..|order| - 1];
      var key := order[|order| - 1];
      SlidesOfStanzas(front, verses, preInterleaved);
      if key in verses {
        VerseNumbering(key, verses[key], StanzaOf(order, verses), preInterleaved);
      }
    }
  }

  /** Every slide of a verse carries the verse's numbering. */
  lemma VerseNumbering(key: string, v: Verse, stanza: Option<nat>, preInterleaved: bool)
    ensures forall i :: 0 <= i < |VerseSlides(key, v, stanza, preInterleaved)| ==>
      VerseSlides(key, v, stanza, preInterleaved)[i].stanzaIndex == stanza
    ensures forall i :: 0 <= i < |VerseSlides(key, v, stanza, preInterleaved)| ==>
      VerseSlides(key, v, stanza, preInterleaved)[i].isChorus == IsChorusVerse(key, v)
    ensures forall i :: 0 <= i < |VerseSlides(key, v, stanza, preInterleaved)| ==>
      VerseSlides(key, v, stanza, preInterleaved)[i].stzNumber == StzNumber(key, v)
  {
    var tag := TagOf(key, v, stanza);
    var plan := PlanOf(key, v, preInterleaved);
    var chunks := Chunks(v.lines, plan, tag);
    ChunksShape(v.lines, plan, tag);
    if preInterleaved && v.lines == [] {
      assert VerseSlides(key, v, stanza, preInterleaved) == chunks + [EmptyVerseSlide(key, tag)];
    } else {
      assert VerseSlides(key, v, stanza, preInterleaved) == chunks;
    }
  }

  /** Slides that all carry one stanza index define just that index. */
  lemma UniformStanzaSet(slides: seq<Slide>, stanza: Option<nat>)
    requires |slides| > 0
    requires forall i :: 0 <= i < |slides| ==> slides[i].stanzaIndex == stanza
    ensures StanzaSet(slides) == if stanza.Some? && stanza.value != 0 then {stanza.value} else {}
  {
    assert slides[0].stanzaIndex == stanza;
  }

  lemma StanzaSetAppend(a: seq<Slide>, b: seq<Slide>)
    ensures StanzaSet(a + b) == StanzaSet(a) + StanzaSet(b)
  {
    var ab := a + b;
    forall x | x in StanzaSet(ab)
      ensures x in StanzaSet(a) + StanzaSet(b)
    {
      var i :| 0 <= i < |ab| && ab[i].stanzaIndex.Some? && ab[i].stanzaIndex.value != 0 && ab[i].stanzaIndex.value == x;
      if i >= |a| {
        assert b[i - |a|] == ab[i];
      }
    }
    forall x | x in StanzaSet(b)
      ensures x in StanzaSet(ab)
    {
      var i :| 0 <= i < |b| && b[i].stanzaIndex.Some? && b[i].stanzaIndex.value != 0 && b[i].stanzaIndex.value == x;
      assert ab[|a| + i] == b[i];
    }
    forall x | x in StanzaSet(a)
      ensures x in StanzaSet(ab)
    {
      var i :| 0 <= i < |a| && a[i].stanzaIndex.Some? && a[i].stanzaIndex.value != 0 && a[i].stanzaIndex.value == x;
      assert ab[i] == a[i];
    }
  }

  /** On the pre-interleaved path every verse yields a slide, so the stanza
      indices are exactly one up to the number of non-chorus verses. */
  lemma {:induction false} PreStanzaSet(order: seq<string>, verses: map<string, Verse>)
    ensures StanzaSet(SlidesOf(order, verses, true)) == Range(StanzaCount(order, verses))
  {
    if order != [] {
      var front := order[..|order| - 1];
      var key := order[|order| - 1];
      PreStanzaSet(front, verses);
      var rest := if key in verses then VerseSlides(key, verses[key], StanzaOf(order, verses), true) else [];
      StanzaSetAppend(SlidesOf(front, verses, true), rest);
      if key in verses {
        VerseSlidesLayout(key, verses[key], StanzaOf(order, verses), true);
        VerseNumbering(key, verses[key], StanzaOf(order, verses), true);
        UniformStanzaSet(rest, StanzaOf(order, verses));
      }
    }
  }

  lemma {:induction false} RangeSize(n: nat)
    ensures |Range(n)| == n
  {
    if n > 0 {
      var r := Range(n - 1);
      RangeSize(n - 1);
      assert n !in r by {
        assert !(1 <= n <= n - 1);
      }
      assert Range(n) == r + {n};
    }
  }

  /** The stanza total counts the non-chorus verses on the pre-interleaved
      path and never exceeds that count. */
  lemma TotalStanzasCount(order: seq<string>, verses: map<string, Verse>, preInterleaved: bool)
    ensures |StanzaSet(SlidesOf(order, verses, preInterleaved))| <= StanzaCount(order, verses)
    ensures preInterleaved ==> |StanzaSet(SlidesOf(order, verses, preInterleaved))| == StanzaCount(order, verses)
  {
    var slides := SlidesOf(order, verses, preInterleaved);
    SlidesOfStanzas(order, verses, preInterleaved);
    RangeSize(StanzaCount(order, verses));
    assert StanzaSet(slides) <= Range(StanzaCount(order, verses));
    SubsetSize(StanzaSet(slides), Range(StanzaCount(order, verses)));
    if preInterleaved {
      PreStanzaSet(order, verses);
    }
  }

  lemma SubsetSize(a: set<nat>, b: set<nat>)
    requires a <= b
    ensures |a| <= |b|
  {
    assert b == a + (b - a);
  }

  // ---------------------------------------------------------------------
  // The loops
  // ---------------------------------------------------------------------

  /** One turn of the slicing loop: while chunk `k` starts inside the lines
      at line `i`, its slide is the one the loop builds from
      `lines.slice(i, i + size)` and `Math.floor(i / size)`, and the next
      chunk starts `size` lines later. */
  lemma SliceStep(lines: seq<string>, plan: ChunkPlan, tag: VerseTag, k: nat)
    requires UsedChunkSize(plan.size) && ChunkStart(k, plan.size) < |lines|
    ensures ChunkStart(k + 1, plan.size) == ChunkStart(k, plan.size) + plan.size
    ensures ChunkStart(k, plan.size) / plan.size == k
    ensures ChunksTo(lines, plan, tag, k + 1) == ChunksTo(lines, plan, tag, k) + [ChunkSlide(lines, plan, tag, k)]
    ensures var i := ChunkStart(k, plan.size);
      var chunk := lines[i..Min(i + plan.size, |lines|)];
      ChunkSlide(lines, plan, tag, k)
      == Slide(ChunkLabel(plan.labelBase, plan.count, k), chunk, tag.stzNumber, tag.stanzaIndex, tag.isChorus,
               if plan.fixedDense.Some? then plan.fixedDense.value else |chunk| >= 10)
  {
    ChunkAt(lines, plan.size, k);
  }

  /** The shared slicing loop of both paths: walks the lines `plan.size` at
      a time and emits one slide per chunk. */
  method SliceVerse(lines: seq<string>, plan: ChunkPlan, tag: VerseTag) returns (slides: seq<Slide>)
    requires UsedChunkSize(plan.size)
    ensures slides == Chunks(lines, plan, tag)
  {
    var n := |lines|;
    var size := plan.size;
    slides := [];
    var i := 0;
    ghost var j := 0;
    while i < n
      invariant i == ChunkStart(j, size)
      invariant j > 0 ==> ChunkStart(j - 1, size) < n
      invariant slides == ChunksTo(lines, plan, tag, j)
      decreases n - i
    {
      SliceStep(lines, plan, tag, j);
      var chunkIndex := i / size;
      var chunk := lines[i..Min(i + size, n)];
      var dense := if plan.fixedDense.Some? then plan.fixedDense.value else |chunk| >= 10;
      var slide := Slide(ChunkLabel(plan.labelBase, plan.count, chunkIndex), chunk, tag.stzNumber, tag.stanzaIndex, tag.isChorus, dense);
      assert slide == ChunkSlide(lines, plan, tag, j);
      slides := slides + [slide];
      i := i + size;
      j := j + 1;
    }
    assert j == CeilDiv(n, size) by {
      ChunkIndex(n, size, j);
    }
  }

  /** The pre-interleaved path of one verse: chunks of eight lines (ten for
      a ten-line verse), every chunk dense exactly when the verse has five
      line pairs, then the slide of an empty verse. */
  method PreInterleavedSlides(key: string, lines: seq<string>, baseLabel: string, tag: VerseTag) returns (slides: seq<Slide>)
    ensures slides == Chunks(lines, PrePlan(|lines|, if baseLabel != "" then baseLabel else key), tag)
      + (if lines == [] then [EmptyVerseSlide(key, tag)] else [])
  {
    var n := |lines|;
    var dense := FiveLineStanza(n);
    var size := PreChunkSize(n);
    var chunkCount := CeilDiv(n, size);
    if chunkCount == 0 {
      chunkCount := 1;
    }
    var labelBase := if baseLabel != "" then baseLabel else key;
    slides := SliceVerse(lines, ChunkPlan(size, chunkCount, labelBase, Some(dense)), tag);
    if n == 0 {
      slides := slides + [Slide(key, [], tag.stzNumber, tag.stanzaIndex, tag.isChorus, false)];
    }
  }

  /** The path for songs read from XML: four-line chunks labelled by key,
      each dense when it holds ten lines or more. */
  method XmlSlides(key: string, lines: seq<string>, tag: VerseTag) returns (slides: seq<Slide>)
    ensures slides == Chunks(lines, XmlPlan(|lines|, key), tag)
  {
    slides := SliceVerse(lines, ChunkPlan(XmlSliceSize, CeilDiv(|lines|, XmlSliceSize), key, None), tag);
  }

  /** The body of the memo's loop for one verse with a record: its tag,
      the running stanza counter and its slides. */
  method VerseStep(key: string, v: Verse, stanzaIdx: nat, preInterleaved: bool) returns (slides: seq<Slide>, next: nat)
    ensures next == stanzaIdx + (if IsChorusVerse(key, v) then 0 else 1)
    ensures slides == VerseSlides(key, v, if IsChorusVerse(key, v) then None else Some(next), preInterleaved)
  {
    var baseLabel := BaseLabel(key, v);
    var chorus := IsChorusVerse(key, v);
    var stz := if chorus then Some("C") else FirstDigitRun(baseLabel);
    next := stanzaIdx;
    if !chorus {
      next := next + 1;
    }
    var tag := VerseTag(stz, if chorus then None else Some(next), chorus);
    if preInterleaved {
      slides := PreInterleavedSlides(key, v.lines, baseLabel, tag);
    } else {
      slides := XmlSlides(key, v.lines, tag);
    }
  }

  /** One more key of the order: its verse's slides and stanza count
      follow those of the keys before it. */
  lemma OrderStep(order: seq<string>, j: nat, verses: map<string, Verse>, preInterleaved: bool)
    requires j < |order|
    ensures order[j] !in verses ==> SlidesOf(order[..j + 1], verses, preInterleaved) == SlidesOf(order[..j], verses, preInterleaved)
    ensures order[j] !in verses ==> StanzaCount(order[..j + 1], verses) == StanzaCount(order[..j], verses)
    ensures order[j] in verses ==>
      StanzaCount(order[..j + 1], verses) == StanzaCount(order[..j], verses) + (if IsChorusVerse(order[j], verses[order[j]]) then 0 else 1)
    ensures order[j] in verses ==>
      SlidesOf(order[..j + 1], verses, preInterleaved) == SlidesOf(order[..j], verses, preInterleaved) +
        VerseSlides(order[j], verses[order[j]], StanzaOf(order[..j + 1], verses), preInterleaved)
    ensures order[j] in verses ==>
      StanzaOf(order[..j + 1], verses) == if IsChorusVerse(order[j], verses[order[j]]) then None else Some(StanzaCount(order[..j + 1], verses))
  {
    assert order[..j + 1][..j] == order[..j];
  }

  /** The `slides` memo: the verses of the order, skipping keys without a
      record, with a running counter of the non-chorus verses. */
  method BuildSlides(song: Option<Song>, verseKeys: seq<string>) returns (out: seq<Slide>)
    ensures out == Slides(song, verseKeys)
  {
    if song.None? {
      return [];
    }
    var s := song.value;
    var order := if |s.verseOrder| > 0 then s.verseOrder else verseKeys;
    out := [];
    var stanzaIdx := 0;
    for j := 0 to |order|
      invariant out == SlidesOf(order[..j], s.verses, s.preInterleaved)
      invariant stanzaIdx == StanzaCount(order[..j], s.verses)
    {
      var key := order[j];
      OrderStep(order, j, s.verses, s.preInterleaved);
      if key !in s.verses {
        continue;
      }
      var verseSlides;
      verseSlides, stanzaIdx := VerseStep(key, s.verses[key], stanzaIdx, s.preInterleaved);
      out := out + verseSlides;
    }
    assert order[..|order|] == order;
  }

  /** `totalStanzas`: the number of distinct stanza indices of the slides. */
  method TotalStanzas(slides: seq<Slide>) returns (total: nat)
    ensures total == |StanzaSet(slides)|
  {
    var indices: set<nat> := {};
    for i := 0 to |slides|
      invariant indices == StanzaSet(slides[..i])
    {
      assert slides[..i + 1] == slides[..i] + [slides[i]];
      StanzaSetAppend(slides[..i], [slides[i]]);
      var idx := slides[i].stanzaIndex;
      if idx.Some? && idx.value != 0 {
        assert StanzaSet([slides[i]]) == {idx.value};
        indices := indices + {idx.value};
      } else {
        assert StanzaSet([slides[i]]) == {};
      }
    }
    assert slides[..|slides|] == slides;
    total := |indices|;
  }
}
