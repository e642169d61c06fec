/**
 * The song-list search by CCLI number (src/App.tsx, `normalizeDigits` and
 * `filterSongsByCcli`). Both the query and each song's number are reduced
 * to their decimal digits and compared as numbers, so punctuation, spacing
 * and leading zeros do not matter; a query without digits keeps the whole
 * list.
 */
module CcliFilter {
  import opened Wrappers
  import opened Strings
  import opened Hymn

  /** `value.replace(/\D/g, '')`: the decimal digits of `value`, in order. */
  function NormalizeDigits(value: string): (r: string)
    ensures AllDigits(r)
    ensures r == [] <==> forall i :: 0 <= i < |value| ==> !IsDigit(value[i])
    ensures AllDigits(value) ==> r == value
  {
    if AllDigits(value) then
      FilterAll(value, IsDigit);
      Filter(value, IsDigit)
    else
      Filter(value, IsDigit)
  }

  /** Filtering keeps a string all of whose characters are kept. */
  lemma {:induction false} FilterAll(s: string, keep: char -> bool)
    requires forall i :: 0 <= i < |s| ==> keep(s[i])
    ensures Filter(s, keep) == s
  {
    if s != [] {
      assert forall i :: 0 <= i < |s[1..]| ==> s[1..][i] == s[i + 1];
      FilterAll(s[1..], keep);
    }
  }

  /** Whitespace dropped from either end of a string holds no digit. */
  lemma TrimStartKeepsDigits(s: string)
    ensures Filter(TrimStart(s, IsJsSpace), IsDigit) == Filter(s, IsDigit)
  {
    var a := TrimStart(s, IsJsSpace);
    var front := s[..|s| - |a|];
    assert s == front + a;
    assert Filter(front, IsDigit) == [];
    FilterAppend(front, a, IsDigit);
  }

  lemma TrimEndKeepsDigits(s: string)
    ensures Filter(TrimEnd(s, IsJsSpace), IsDigit) == Filter(s, IsDigit)
  {
    var t := TrimEnd(s, IsJsSpace);
    var back := s[|t|..];
    assert s == t + back;
    assert Filter(back, IsDigit) == [];
    FilterAppend(t, back, IsDigit);
  }

  /** `query.trim()` before normalising changes nothing: trimming only drops
      whitespace, which holds no digit. */
  lemma TrimKeepsDigits(query: string)
    ensures NormalizeDigits(JsTrim(query)) == NormalizeDigits(query)
  {
    TrimStartKeepsDigits(query);
    TrimEndKeepsDigits(TrimStart(query, IsJsSpace));
  }

  /** The digits of a song's CCLI number, `normalizeDigits(song.ccliNo || '')`. */
  function SongDigits(song: Song): string {
    NormalizeDigits(song.ccliNo.GetOr(""))
  }

  /** The per-song test of the filter: the song has a digit in its CCLI
      number and `Number` of those digits is the query number. */
  predicate MatchesNumber(song: Song, queryNumber: nat) {
    SongDigits(song) != [] && DecimalValue(SongDigits(song)) == queryNumber
  }

  /** `list.filter(...)` with the per-song test. */
  function KeepMatching(list: seq<Song>, queryNumber: nat): (r: seq<Song>)
    ensures |r| <= |list|
    ensures forall i :: 0 <= i < |r| ==> MatchesNumber(r[i], queryNumber)
    ensures forall s :: s in r <==> s in list && MatchesNumber(s, queryNumber)
  {
    if list == [] then []
    else
      var rest := KeepMatching(list[..|list| - 1], queryNumber);
      var last := list[|list| - 1];
      assert list == list[..|list| - 1] + [last];
      if MatchesNumber(last, queryNumber) then rest + [last] else rest
  }

  /** `filterSongsByCcli(list, query)`. `Number(digits)` of a string of decimal
      digits is never `NaN`, so both `isNaN` guards are dead. */
  function FilterSongsByCcli(list: seq<Song>, query: string): (r: seq<Song>)
    ensures NormalizeDigits(query) == [] ==> r == list
    ensures NormalizeDigits(query) != [] ==>
      forall s :: s in r <==> s in list && MatchesNumber(s, DecimalValue(NormalizeDigits(query)))
    ensures |r| <= |list|
  {
    TrimKeepsDigits(query);
    var digits := NormalizeDigits(JsTrim(query));
    if digits == [] then list
    else KeepMatching(list, DecimalValue(digits))
  }

  /** The filter keeps the list's order: filtering a concatenation filters
      each part. */
  lemma {:induction false} KeepMatchingAppend(a: seq<Song>, b: seq<Song>, queryNumber: nat)
    ensures KeepMatching(a + b, queryNumber) == KeepMatching(a, queryNumber) + KeepMatching(b, queryNumber)
    decreases |b|
  {
    if b == [] {
      assert a + b == a;
    } else {
      var b' := b[..|b| - 1];
      assert (a + b)[..|a + b| - 1] == a + b';
      assert (a + b)[|a + b| - 1] == b[|b| - 1];
      KeepMatchingAppend(a, b', queryNumber);
    }
  }

  /** Searching the result of a search again with the same query changes
      nothing. */
  lemma {:induction false} KeepMatchingIdempotent(list: seq<Song>, queryNumber: nat)
    ensures KeepMatching(KeepMatching(list, queryNumber), queryNumber) == KeepMatching(list, queryNumber)
    decreases |list|
  {
    if list != [] {
      var init := list[..|list| - 1];
      var last := list[|list| - 1];
      KeepMatchingIdempotent(init, queryNumber);
      if MatchesNumber(last, queryNumber) {
        KeepMatchingAppend(KeepMatching(init, queryNumber), [last], queryNumber);
        assert KeepMatching([last], queryNumber) == [last] by {
          assert [last][..0] == [];
        }
      }
    }
  }

  lemma FilterSongsByCcliIdempotent(list: seq<Song>, query: string)
    ensures FilterSongsByCcli(FilterSongsByCcli(list, query), query) == FilterSongsByCcli(list, query)
  {
    TrimKeepsDigits(query);
    var digits := NormalizeDigits(query);
    if digits != [] {
      var n := DecimalValue(digits);
      var once := KeepMatching(list, n);
      assert FilterSongsByCcli(list, query) == once;
      assert FilterSongsByCcli(once, query) == KeepMatching(once, n);
      KeepMatchingIdempotent(list, n);
    }
  }

  /** A leading zero does not change the number. */
  lemma {:induction false} LeadingZero(s: string)
    requires AllDigits(s)
    ensures DecimalValue("0" + s) == DecimalValue(s)
    decreases |s|
  {
    if s != [] {
      var init := s[..|s| - 1];
      assert ("0" + s)[..|"0" + s| - 1] == "0" + init;
      LeadingZero(init);
    } else {
      assert DecimalValue("0") == DecimalValue("") * 10 + 0;
    }
  }

  /** Any run of leading zeros does not change the number. */
  lemma {:induction false} LeadingZeros(zeros: string, s: string)
    requires forall i :: 0 <= i < |zeros| ==> zeros[i] == '0'
    requires AllDigits(s)
    ensures AllDigits(zeros + s) && DecimalValue(zeros + s) == DecimalValue(s)
    decreases |zeros|
  {
    if zeros != [] {
      assert zeros + s == "0" + (zeros[1..] + s);
      LeadingZeros(zeros[1..], s);
      LeadingZero(zeros[1..] + s);
    } else {
      assert zeros + s == s;
    }
  }

  /** Two songs whose CCLI numbers have the same digits up to leading zeros
      (whatever separators surround them) are found by the same queries. */
  lemma SameDigitsSameMatch(s1: Song, s2: Song, zeros: string, queryNumber: nat)
    requires forall i :: 0 <= i < |zeros| ==> zeros[i] == '0'
    requires SongDigits(s2) != [] && SongDigits(s1) == zeros + SongDigits(s2)
    ensures MatchesNumber(s1, queryNumber) <==> MatchesNumber(s2, queryNumber)
  {
    LeadingZeros(zeros, SongDigits(s2));
  }
}
