/**
 * The pure helpers of `parseHymnFile` (src/App.tsx): recognising a section
 * heading, normalising its base label, classifying it, forming section keys,
 * and interleaving a section's English and Chinese lines.
 */
module HymnHeadings {
  import opened Wrappers
  import opened Strings
  import opened Hymn

  datatype Language = English | Chinese

  /** What `matchSectionHeading` returns: the trimmed base label, the language
      and the lower-cased base. */
  datatype Heading = Heading(base: string, lang: Language, normalized: string)

  /** The language tail of a heading: ` English:` or ` Chinese:`, in any letter case. */
  function TailLanguage(tail: string): Option<Language> {
    if Lower(tail) == " english:" then Some(English)
    else if Lower(tail) == " chinese:" then Some(Chinese)
    else None
  }

  /** The six words a heading's base may start with (after lower-casing). */
  predicate StartsWithSectionWord(normalized: string) {
    || StartsWith(normalized, "verse")
    || StartsWith(normalized, "chorus")
    || StartsWith(normalized, "bridge")
    || StartsWith(normalized, "intro")
    || StartsWith(normalized, "outro")
    || StartsWith(normalized, "ending")
  }

  /** A section heading, stated without reference to regular expressions: the
      last nine characters are ` English:` or ` Chinese:` in any letter case,
      nothing before them is a line terminator, and the text before them,
      trimmed and lower-cased, starts with a section word. */
  predicate IsSectionHeading(line: string) {
    && |line| >= 9
    && TailLanguage(line[|line| - 9..]).Some?
    && (forall j :: 0 <= j < |line| - 9 ==> !IsLineTerminator(line[j]))
    && StartsWithSectionWord(Lower(JsTrim(line[..|line| - 9])))
  }

  /** How `^(.+?) (English|Chinese):$` (flag `i`) is tried on a line: the lazy
      group takes one more character at a time, each matched by `.`, until the
      rest of the line is a language tail. The result is the group's length. */
  function LazyGroupEnd(line: string, k: nat): (r: Option<nat>)
    requires 1 <= k <= |line|
    ensures r.Some? <==>
      && k + 9 <= |line|
      && TailLanguage(line[|line| - 9..]).Some?
      && (forall j :: k - 1 <= j < |line| - 9 ==> !IsLineTerminator(line[j]))
    ensures r.Some? ==> r.value == |line| - 9
    decreases |line| - k
  {
    if IsLineTerminator(line[k - 1]) then None
    else if TailLanguage(line[k..]).Some? then Some(k)
    else if k == |line| then None
    else LazyGroupEnd(line, k + 1)
  }

  /** `matchSectionHeading`: a heading exactly when `IsSectionHeading` holds;
      the base is then the trimmed text before the language tail. */
  function MatchSectionHeading(line: string): (r: Option<Heading>)
    ensures r.Some? <==> IsSectionHeading(line)
    ensures r.Some? ==> |line| >= 10
    ensures r.Some? ==> r.value.base == JsTrim(line[..|line| - 9])
    ensures r.Some? ==> r.value.lang == TailLanguage(line[|line| - 9..]).value
    ensures r.Some? ==> r.value.base != [] && !IsJsSpace(r.value.base[0])
  {
    if line == [] then None
    else match LazyGroupEnd(line, 1)
      case None => None
      case Some(k) =>
        var base := JsTrim(line[..k]);
        var normalized := Lower(base);
        if !StartsWithSectionWord(normalized) then None
        else
          TrimIsTrimmed(line[..k], IsJsSpace);
          Some(Heading(base, TailLanguage(line[k..]).value, normalized))
  }

  /** The first two letters a section word can start with. */
  lemma SectionWordStart(w: string)
    requires StartsWithSectionWord(w)
    ensures |w| >= 5 && w[0] in "vcbioe" && (w[0] == 'c' ==> w[1] == 'h')
  {
    assert w[0] == w[..5][0] && w[1] == w[..5][1];
  }

  /** A heading never looks like a `Title:` or `CCLI:` line, so the order of
      the tests in the metadata block does not matter for headings. */
  lemma HeadingNotMetadata(line: string)
    requires IsSectionHeading(line)
    ensures !StartsWith(line, "Title:") && !StartsWith(line, "CCLI:")
  {
    var p := line[..|line| - 9];
    var r := TrimStart(p, IsJsSpace);
    var t := JsTrim(p);
    var w := Lower(t);
    SectionWordStart(w);
    assert |p| >= 5 && p[0] == line[0] && p[1] == line[1];
    assert line[..5][0] == line[0] && line[..5][1] == line[1] && line[..6][0] == line[0];
    // The trimmed text keeps the first characters when they are not spaces.
    assert |r| == |p| || IsJsSpace(p[0]);
    assert |r| == |p| ==> t[0] == p[0] && t[1] == p[1];
    assert w[0] == LowerChar(t[0]) && w[1] == LowerChar(t[1]);
  }

  /** `normalizeBase`: trim, lower-case, collapse whitespace runs to one space. */
  function NormalizeBase(baseLabel: string): string {
    CollapseSpaces(Lower(JsTrim(baseLabel)))
  }

  /** A heading's base normalises to a non-empty key. */
  lemma HeadingBaseKeyNonEmpty(line: string)
    requires MatchSectionHeading(line).Some?
    ensures NormalizeBase(MatchSectionHeading(line).value.base) != []
  {
    var base := MatchSectionHeading(line).value.base;
    assert JsTrim(base) != [] by {
      TrimmedFixed(base, IsJsSpace);
    }
  }

  /** `detectType`: verse, then chorus, and every other base (bridge, intro,
      outro, ending and anything else) is "other". */
  function DetectType(baseLabel: string): (t: SectionType)
    ensures t == VerseSection <==> StartsWith(Lower(baseLabel), "verse")
    ensures t == ChorusSection <==> !StartsWith(Lower(baseLabel), "verse") && StartsWith(Lower(baseLabel), "chorus")
  {
    var normalized := Lower(baseLabel);
    if StartsWith(normalized, "verse") then VerseSection
    else if StartsWith(normalized, "chorus") then ChorusSection
    else OtherSection
  }

  /** Trimming keeps a whitespace-free prefix of lower-cased text, for a
      label that does not start with whitespace. */
  lemma TrimLowerStartsWith(b: string, p: string)
    requires b == [] || !IsJsSpace(b[0])
    requires p != [] && Spaceless(p)
    ensures StartsWith(Lower(JsTrim(b)), p) <==> StartsWith(Lower(b), p)
  {
    var t := TrimStart(b, IsJsSpace);
    assert t == b;
    var r := JsTrim(b);
    assert r == TrimEnd(b, IsJsSpace);
    assert r == b[..|r|];
    LowerPrefix(b, |r|);
    LowerKeepsSpaces(b, |r|);
    PrefixBeforeSpaces(Lower(b), |r|, p);
  }

  /** "verse" and "chorus" hold no whitespace. */
  lemma SectionWordsSpaceless()
    ensures Spaceless("verse") && Spaceless("chorus")
  {
  }

  /** The base key decides the type: `detectType` of the normalised base
      equals `detectType` of the base itself, for a base that does not start
      with whitespace (every heading's base is trimmed). */
  lemma DetectTypeNormalized(b: string)
    requires b == [] || !IsJsSpace(b[0])
    ensures DetectType(NormalizeBase(b)) == DetectType(b)
  {
    var y := Lower(JsTrim(b));
    var n := CollapseSpaces(y);
    assert IsLowered(y);
    CollapseLowered(y);
    assert Lower(n) == n;
    SectionWordsSpaceless();
    CollapseStartsWith(y, "verse");
    CollapseStartsWith(y, "chorus");
    TrimLowerStartsWith(b, "verse");
    TrimLowerStartsWith(b, "chorus");
  }

  /** Two headings with the same base key get the same section type, so the
      type a Chinese heading looks for is the type of the English sections
      of its base. */
  lemma SameKeySameType(line1: string, line2: string)
    requires MatchSectionHeading(line1).Some? && MatchSectionHeading(line2).Some?
    requires NormalizeBase(MatchSectionHeading(line1).value.base) == NormalizeBase(MatchSectionHeading(line2).value.base)
    ensures DetectType(MatchSectionHeading(line1).value.base) == DetectType(MatchSectionHeading(line2).value.base)
  {
    DetectTypeNormalized(MatchSectionHeading(line1).value.base);
    DetectTypeNormalized(MatchSectionHeading(line2).value.base);
  }

  /** The key `createSectionKey` gives the `n`th occurrence of a base:
      `base` for the first, `base#n` after that. */
  function KeyFor(base: string, n: nat): string {
    if n == 1 then base else base + "#" + NatToString(n)
  }

  /** Occurrences of one base get pairwise different keys. */
  lemma {:induction false} KeyForInjective(base: string, m: nat, n: nat)
    requires 1 <= m && 1 <= n && KeyFor(base, m) == KeyFor(base, n)
    ensures m == n
  {
    if m != 1 && n != 1 {
      var a, b := NatToString(m), NatToString(n);
      assert (base + "#" + a)[|base| + 1..] == a;
      assert (base + "#" + b)[|base| + 1..] == b;
      NatToStringInjective(m, n);
    }
  }

  /** A key formed from a non-empty base is non-empty. */
  lemma KeyForNonEmpty(base: string, n: nat)
    requires base != []
    ensures KeyFor(base, n) != []
  {
  }

  /** The lines of a section laid out EN, ZH, EN, ZH, ... by position, the
      longer list's extra lines following in order. */
  function Interleaved(en: seq<string>, zh: seq<string>): (r: seq<string>)
    ensures |r| == |en| + |zh|
    decreases |en| + |zh|
  {
    if en == [] then zh
    else if zh == [] then en
    else [en[0], zh[0]] + Interleaved(en[1..], zh[1..])
  }

  function Min(a: int, b: int): int {
    if a < b then a else b
  }

  function Take<T>(s: seq<T>, n: nat): seq<T> {
    s[..Min(n, |s|)]
  }

  /** An interleaving holds exactly the lines of both languages. */
  lemma {:induction false} InterleavedContents(en: seq<string>, zh: seq<string>)
    ensures multiset(Interleaved(en, zh)) == multiset(en) + multiset(zh)
    decreases |en| + |zh|
  {
    if en != [] && zh != [] {
      InterleavedContents(en[1..], zh[1..]);
      assert en == [en[0]] + en[1..] && zh == [zh[0]] + zh[1..];
    }
  }

  /** While both languages last, English line `i` sits at position `2i` and
      Chinese line `i` right after it. */
  lemma {:induction false} InterleavedPair(en: seq<string>, zh: seq<string>, i: nat)
    requires i < |en| && i < |zh|
    ensures Interleaved(en, zh)[2 * i] == en[i] && Interleaved(en, zh)[2 * i + 1] == zh[i]
  {
    if i > 0 {
      InterleavedPair(en[1..], zh[1..], i - 1);
    }
  }

  /** Past the end of the Chinese lines, the remaining English lines follow in order. */
  lemma {:induction false} InterleavedEnglishTail(en: seq<string>, zh: seq<string>, i: nat)
    requires |zh| <= i < |en|
    ensures Interleaved(en, zh)[|zh| + i] == en[i]
  {
    if zh != [] {
      InterleavedEnglishTail(en[1..], zh[1..], i - 1);
    }
  }

  /** Past the end of the English lines, the remaining Chinese lines follow in order. */
  lemma {:induction false} InterleavedChineseTail(en: seq<string>, zh: seq<string>, i: nat)
    requires |en| <= i < |zh|
    ensures Interleaved(en, zh)[|en| + i] == zh[i]
  {
    if en != [] {
      InterleavedChineseTail(en[1..], zh[1..], i - 1);
    }
  }

  /** With no Chinese lines a section's lines are its English lines, unchanged. */
  lemma EnglishOnlyUnchanged(en: seq<string>)
    ensures Interleaved(en, []) == en
  {
  }

  /** Interleaving two equally long blocks, then two more blocks, is
      interleaving the concatenations. */
  lemma {:induction false} InterleavedAppendEven(e0: seq<string>, z0: seq<string>, e1: seq<string>, z1: seq<string>)
    requires |e0| == |z0|
    ensures Interleaved(e0 + e1, z0 + z1) == Interleaved(e0, z0) + Interleaved(e1, z1)
  {
    if e0 == [] {
      assert e0 + e1 == e1 && z0 + z1 == z1;
    } else {
      InterleavedAppendEven(e0[1..], z0[1..], e1, z1);
      assert (e0 + e1)[0] == e0[0] && (e0 + e1)[1..] == e0[1..] + e1;
      assert (z0 + z1)[0] == z0[0] && (z0 + z1)[1..] == z0[1..] + z1;
    }
  }

  /** Once the Chinese lines are used up, further English lines are appended. */
  lemma {:induction false} InterleavedAppendEnglish(e: seq<string>, z: seq<string>, d: seq<string>)
    requires |e| >= |z|
    ensures Interleaved(e + d, z) == Interleaved(e, z) + d
  {
    if z == [] {
    } else {
      InterleavedAppendEnglish(e[1..], z[1..], d);
      assert (e + d)[0] == e[0] && (e + d)[1..] == e[1..] + d;
    }
  }

  /** Once the English lines are used up, further Chinese lines are appended. */
  lemma {:induction false} InterleavedAppendChinese(e: seq<string>, z: seq<string>, d: seq<string>)
    requires |z| >= |e|
    ensures Interleaved(e, z + d) == Interleaved(e, z) + d
  {
    if e == [] {
    } else {
      InterleavedAppendChinese(e[1..], z[1..], d);
      assert (z + d)[0] == z[0] && (z + d)[1..] == z[1..] + d;
    }
  }

  /** Interleaving one more index position appends that position's English
      line and then its Chinese line, whichever exist. */
  lemma InterleavedExtend(en: seq<string>, zh: seq<string>, i: nat)
    ensures Interleaved(Take(en, i + 1), Take(zh, i + 1))
         == Interleaved(Take(en, i), Take(zh, i))
            + (if i < |en| then [en[i]] else [])
            + (if i < |zh| then [zh[i]] else [])
  {
    var e0, z0 := Take(en, i), Take(zh, i);
    if i < |en| && i < |zh| {
      assert Take(en, i + 1) == e0 + [en[i]] && Take(zh, i + 1) == z0 + [zh[i]];
      InterleavedAppendEven(e0, z0, [en[i]], [zh[i]]);
      assert Interleaved([en[i]], [zh[i]]) == [en[i], zh[i]] + Interleaved([], []);
    } else if i < |en| {
      assert Take(en, i + 1) == e0 + [en[i]] && Take(zh, i + 1) == z0;
      InterleavedAppendEnglish(e0, z0, [en[i]]);
    } else if i < |zh| {
      assert Take(en, i + 1) == e0 && Take(zh, i + 1) == z0 + [zh[i]];
      InterleavedAppendChinese(e0, z0, [zh[i]]);
    } else {
      assert Take(en, i + 1) == e0 && Take(zh, i + 1) == z0;
    }
  }

  /** The interleaving loop of `parseHymnFile`. */
  method Interleave(en: seq<string>, zh: seq<string>) returns (r: seq<string>)
    ensures r == Interleaved(en, zh)
  {
    r := [];
    var maxLines := if |en| < |zh| then |zh| else |en|;
    var i := 0;
    while i < maxLines
      invariant 0 <= i <= maxLines
      invariant r == Interleaved(Take(en, i), Take(zh, i))
    {
      InterleavedExtend(en, zh, i);
      if i < |en| {
        r := r + [en[i]];
      }
      if i < |zh| {
        r := r + [zh[i]];
      }
      i := i + 1;
    }
    assert Take(en, i) == en && Take(zh, i) == zh;
  }
}
