/** The two regular expressions the collector searches a status page with:

      numeric:  <p class="nbPlaces"><span[^>]*>(\d+)</span>
      textual:  <p class="nbPlaces"><span[^>]*>([^<]+)</span>

    They differ only in the capture group. At a fixed start position each can
    match in at most one way, because `[^>]*` cannot run past the first `>` and
    the group cannot run past the first `<`, which the closing tag needs. So
    matching at one position is a deterministic scan (MatchAt), `re.search` is
    the leftmost position where it succeeds (Search), and IsMatch states the
    regular expression's meaning directly, as a reference for both. */
module Markup {
  import opened Wrappers
  import opened Decimal

  const OpenTag := "<p class=\"nbPlaces\"><span"
  const CloseTag := "</span>"

  /** Which capture group: `(\d+)` or `([^<]+)`. `\d` is read as the ASCII digits. */
  datatype Pattern = Numeric | Textual

  predicate InGroup(p: Pattern, c: char) {
    match p
    case Numeric => IsDigit(c)
    case Textual => c != '<'
  }

  predicate HasAt(s: string, i: nat, t: string) {
    i + |t| <= |s| && s[i..i + |t|] == t
  }

  /** The first position at or after j holding c, or |s| if there is none. */
  function SkipTo(s: string, j: nat, c: char): (k: nat)
    requires j <= |s|
    ensures j <= k <= |s|
    ensures forall m :: j <= m < k ==> s[m] != c
    ensures k < |s| ==> s[k] == c
    decreases |s| - j
  {
    if j == |s| || s[j] == c then j else SkipTo(s, j + 1, c)
  }

  /** The end of the longest run of group characters starting at j. */
  function GroupEnd(s: string, j: nat, p: Pattern): (e: nat)
    requires j <= |s|
    ensures j <= e <= |s|
    ensures forall m :: j <= m < e ==> InGroup(p, s[m])
    ensures e < |s| ==> !InGroup(p, s[e])
    decreases |s| - j
  {
    if j == |s| || !InGroup(p, s[j]) then j else GroupEnd(s, j + 1, p)
  }

  /** The regular expression matches s[i..e + |CloseTag|], with `[^>]*` covering
      s[i + |OpenTag|..k], the literal `>` at k, and the group s[k + 1..e]. */
  ghost predicate IsMatch(s: string, i: nat, k: nat, e: nat, p: Pattern) {
    && i + |OpenTag| <= k && k + 1 < e
    && e + |CloseTag| <= |s|
    && s[i..i + |OpenTag|] == OpenTag
    && (forall m :: i + |OpenTag| <= m < k ==> s[m] != '>')
    && s[k] == '>'
    && (forall m :: k < m < e ==> InGroup(p, s[m]))
    && s[e..e + |CloseTag|] == CloseTag
  }

  /** The capture of the match starting at i, if the pattern matches there. */
  function MatchAt(s: string, i: nat, p: Pattern): (r: Option<string>)
    requires i <= |s|
    ensures r.Some? ==> |r.value| >= 1 && forall m :: 0 <= m < |r.value| ==> InGroup(p, r.value[m])
  {
    if !HasAt(s, i, OpenTag) then None
    else
      var k := SkipTo(s, i + |OpenTag|, '>');
      if k == |s| then None
      else
        var e := GroupEnd(s, k + 1, p);
        if e == k + 1 || !HasAt(s, e, CloseTag) then None
        else Some(s[k + 1..e])
  }

  /** MatchAt agrees with the regular expression at every start position: what it
      finds is a match, and every match is the one it finds (so there is at most one). */
  lemma MatchAtCorrect(s: string, i: nat, p: Pattern)
    requires i <= |s|
    ensures MatchAt(s, i, p).Some? ==>
              exists k: nat, e: nat :: IsMatch(s, i, k, e, p) && MatchAt(s, i, p).value == s[k + 1..e]
    ensures forall k: nat, e: nat :: IsMatch(s, i, k, e, p) ==> MatchAt(s, i, p) == Some(s[k + 1..e])
  {
    if MatchAt(s, i, p).Some? {
      MatchIsSound(s, i, p);
    }
    forall k: nat, e: nat | IsMatch(s, i, k, e, p)
      ensures MatchAt(s, i, p) == Some(s[k + 1..e])
    {
      MatchIsFound(s, i, k, e, p);
    }
  }

  lemma MatchIsSound(s: string, i: nat, p: Pattern)
    requires i <= |s| && MatchAt(s, i, p).Some?
    ensures var k := SkipTo(s, i + |OpenTag|, '>');
            var e := GroupEnd(s, k + 1, p);
            IsMatch(s, i, k, e, p) && MatchAt(s, i, p).value == s[k + 1..e]
  {
  }

  lemma MatchIsFound(s: string, i: nat, k: nat, e: nat, p: Pattern)
    requires IsMatch(s, i, k, e, p)
    ensures MatchAt(s, i, p) == Some(s[k + 1..e])
  {
    assert HasAt(s, i, OpenTag);
    var k' := SkipTo(s, i + |OpenTag|, '>');
    assert k' == k;
    assert s[e] == s[e..e + |CloseTag|][0] == '<';
    var e' := GroupEnd(s, k + 1, p);
    assert e' == e;
    assert HasAt(s, e, CloseTag);
  }

  /** A match with its start position, as `re.search` reports it. */
  datatype Found = Found(pos: nat, capture: string)

  /** The leftmost position at or after i where the pattern matches: no
      position it skips matches, and when it gives up no position from i on does. */
  function SearchFrom(s: string, i: nat, p: Pattern): (r: Option<Found>)
    requires i <= |s|
    ensures r.Some? ==> i <= r.value.pos <= |s| && MatchAt(s, r.value.pos, p) == Some(r.value.capture)
    ensures forall j :: i <= j <= |s| && (r.Some? ==> j < r.value.pos) ==> MatchAt(s, j, p).None?
    decreases |s| - i
  {
    var m := MatchAt(s, i, p);
    if m.Some? then Some(Found(i, m.value))
    else if i == |s| then None
    else SearchFrom(s, i + 1, p)
  }

  /** `re.search(pattern, s)`. */
  function Search(s: string, p: Pattern): (r: Option<Found>)
    ensures r.Some? ==> r.value.pos <= |s| && MatchAt(s, r.value.pos, p) == Some(r.value.capture)
    ensures r.Some? ==> forall j :: 0 <= j < r.value.pos ==> MatchAt(s, j, p).None?
    ensures r.None? ==> forall j :: 0 <= j <= |s| ==> MatchAt(s, j, p).None?
  {
    SearchFrom(s, 0, p)
  }

  /** Search agrees with the regular expression: it reports a match, and no
      match starts before the one it reports. */
  lemma SearchCorrect(s: string, p: Pattern)
    ensures Search(s, p).Some? ==>
              exists k: nat, e: nat :: IsMatch(s, Search(s, p).value.pos, k, e, p) &&
                             Search(s, p).value.capture == s[k + 1..e]
    ensures Search(s, p).Some? ==>
              forall i: nat, k: nat, e: nat :: IsMatch(s, i, k, e, p) ==> Search(s, p).value.pos <= i
    ensures Search(s, p).None? <==> forall i: nat, k: nat, e: nat :: !IsMatch(s, i, k, e, p)
  {
    var r := Search(s, p);
    if r.Some? {
      MatchAtCorrect(s, r.value.pos, p);
    }
    forall i: nat, k: nat, e: nat | IsMatch(s, i, k, e, p)
      ensures r.Some? && r.value.pos <= i
    {
      MatchIsFound(s, i, k, e, p);
    }
  }

  /** The match at i, with `>` at k and group end e, is a leftmost one: no match
      of the pattern starts before i. */
  ghost predicate IsLeftmost(s: string, i: nat, k: nat, e: nat, p: Pattern) {
    && IsMatch(s, i, k, e, p)
    && forall i': nat, k': nat, e': nat :: IsMatch(s, i', k', e', p) ==> i <= i'
  }

  /** Search reports exactly the leftmost match: its position and its capture. */
  lemma SearchIsLeftmost(s: string, p: Pattern, i: nat, k: nat, e: nat)
    requires IsLeftmost(s, i, k, e, p)
    ensures Search(s, p) == Some(Found(i, s[k + 1..e]))
  {
    SearchCorrect(s, p);
    var r := Search(s, p).value;
    var k': nat, e': nat :| IsMatch(s, r.pos, k', e', p) && r.capture == s[k' + 1..e'];
    assert r.pos == i;
    MatchIsFound(s, i, k, e, p);
  }

  /** The match that Search reports is a leftmost one, and its capture is the group. */
  lemma LeftmostOfSearch(s: string, p: Pattern) returns (k: nat, e: nat)
    requires Search(s, p).Some?
    ensures IsLeftmost(s, Search(s, p).value.pos, k, e, p)
    ensures Search(s, p).value.capture == s[k + 1..e]
  {
    SearchCorrect(s, p);
    k, e :| IsMatch(s, Search(s, p).value.pos, k, e, p) && Search(s, p).value.capture == s[k + 1..e];
  }

  /** Where the numeric pattern matches, the textual one matches too, with the same capture. */
  lemma NumericMatchIsTextual(s: string, i: nat)
    requires i <= |s|
    requires MatchAt(s, i, Numeric).Some?
    ensures MatchAt(s, i, Textual) == MatchAt(s, i, Numeric)
  {
    MatchAtCorrect(s, i, Numeric);
    var k: nat, e: nat :| IsMatch(s, i, k, e, Numeric) && MatchAt(s, i, Numeric).value == s[k + 1..e];
    assert IsMatch(s, i, k, e, Textual);
    MatchIsFound(s, i, k, e, Textual);
  }

  /** Where the textual pattern captures only digits, the numeric one matches as well. */
  lemma DigitTextIsNumeric(s: string, i: nat)
    requires i <= |s|
    requires MatchAt(s, i, Textual).Some? && AllDigits(MatchAt(s, i, Textual).value)
    ensures MatchAt(s, i, Numeric) == MatchAt(s, i, Textual)
  {
    MatchAtCorrect(s, i, Textual);
    var k: nat, e: nat :| IsMatch(s, i, k, e, Textual) && MatchAt(s, i, Textual).value == s[k + 1..e];
    forall m | k < m < e ensures IsDigit(s[m]) {
      assert s[m] == s[k + 1..e][m - k - 1];
    }
    assert IsMatch(s, i, k, e, Numeric);
    MatchIsFound(s, i, k, e, Numeric);
  }

  /** A numeric hit implies a textual hit no later than it. */
  lemma NumericSearchIsTextual(s: string)
    requires Search(s, Numeric).Some?
    ensures Search(s, Textual).Some?
    ensures Search(s, Textual).value.pos <= Search(s, Numeric).value.pos
  {
    NumericMatchIsTextual(s, Search(s, Numeric).value.pos);
  }

  /** If the leftmost textual capture is all digits, the numeric search reports
      that same position and capture. */
  lemma DigitTextSearchIsNumeric(s: string)
    requires Search(s, Textual).Some? && AllDigits(Search(s, Textual).value.capture)
    ensures Search(s, Numeric) == Search(s, Textual)
  {
    var t := Search(s, Textual).value;
    DigitTextIsNumeric(s, t.pos);
    assert MatchAt(s, t.pos, Numeric).Some?;
    var r := Search(s, Numeric);
    assert r.Some?;
    var n := r.value;
    if n.pos < t.pos {
      NumericMatchIsTextual(s, n.pos);
      assert false;
    }
    assert n.pos == t.pos;
  }

  /** When the numeric search misses, whatever the textual search captures is
      non-empty, holds no `<`, and is not made of digits only. */
  lemma TextualOnlyCapture(s: string)
    requires Search(s, Numeric).None? && Search(s, Textual).Some?
    ensures |Search(s, Textual).value.capture| >= 1
    ensures forall m :: 0 <= m < |Search(s, Textual).value.capture| ==>
              Search(s, Textual).value.capture[m] != '<'
    ensures !AllDigits(Search(s, Textual).value.capture)
  {
    var t := Search(s, Textual).value;
    if AllDigits(t.capture) {
      DigitTextIsNumeric(s, t.pos);
      assert false;
    }
  }
}
