/** The few regular-expression shapes the two engines use, matched the way
    Python's `re` module matches them with `re.IGNORECASE`, and the sentence
    splitter `re.split(r'[.!?]\s+', text)`.

    Every pattern of the analyzer is a literal head, then a gap, then one of
    an ordered list of literal alternatives:
      `automated\s+tool`                      head, one or more spaces, tails
      `10\s*%`                                head, zero or more spaces, tails
      `misleading.*?(?:information|content)`  head, lazy run of non-newlines, tails
      `deepfake`                              head alone (the single tail is empty)
    Matching is done on the lowercased text against lowercased literals,
    which is what `re.IGNORECASE` does on ASCII letters; the lowercased text
    has the same length, so positions are positions in the original text. */
module Regex {
  import opened Strings

  datatype Gap =
    | Adjacent              // nothing between head and tail
    | Spaces(atLeast: nat)  // `\s*` (0) or `\s+` (1), greedy
    | LazyAny               // `.*?`: shortest run of characters other than a newline

  datatype Pattern = Pattern(head: string, gap: Gap, tails: seq<string>)

  /** A match of a pattern: `text[start..end]`, `match.start()` and `match.end()`. */
  datatype Span = Span(start: nat, end: nat)

  /** The patterns this module handles as `re` would: a non-empty head, at
      least one tail, and after a greedy run of spaces no tail that could
      start inside that run; `WellFormedMatchesAsRe` proves that on these
      backtracking into the run never changes the match. */
  predicate WellFormed(p: Pattern) {
    && |p.head| > 0
    && |p.tails| > 0
    && (p.gap.Spaces? ==> forall k :: 0 <= k < |p.tails| ==> |p.tails[k]| > 0 && !IsSpace(p.tails[k][0]))
  }

  /** The literal `lit` matches, ignoring case, at position `i` of the
      lowercased text `lt`. */
  predicate LitAt(lt: string, i: nat, lit: string) {
    OccursAt(lt, LowerStr(lit), i)
  }

  /** End of the run of whitespace that starts at `i`: where a greedy `\s*`
      stops. */
  function SpaceEnd(s: string, i: nat): (j: nat)
    requires i <= |s|
    ensures i <= j <= |s|
    decreases |s| - i
  {
    if i < |s| && IsSpace(s[i]) then SpaceEnd(s, i + 1) else i
  }

  /** `SpaceEnd` stops at the end of the maximal run of whitespace. */
  lemma {:induction false} SpaceEndMaximal(s: string, i: nat)
    requires i <= |s|
    ensures forall k :: i <= k < SpaceEnd(s, i) ==> IsSpace(s[k])
    ensures SpaceEnd(s, i) == |s| || !IsSpace(s[SpaceEnd(s, i)])
    decreases |s| - i
  {
    if i < |s| && IsSpace(s[i]) {
      SpaceEndMaximal(s, i + 1);
    }
  }

  /** An alternation `(?:t0|t1|...)` at position `j`: the end of the first
      alternative, in order, that matches there. */
  function TailAt(lt: string, j: nat, tails: seq<string>): (r: Option<nat>)
    requires j <= |lt|
    ensures r.Some? ==> j <= r.value <= |lt|
  {
    if tails == [] then None
    else if LitAt(lt, j, tails[0]) then Some(j + |tails[0]|)
    else TailAt(lt, j, tails[1..])
  }

  /** `TailAt` ends after the first alternative that matches, and finds
      nothing exactly when no alternative matches. */
  lemma {:induction false} TailAtFirst(lt: string, j: nat, tails: seq<string>)
    requires j <= |lt|
    ensures TailAt(lt, j, tails).Some? ==>
      exists n :: 0 <= n < |tails| && LitAt(lt, j, tails[n]) && TailAt(lt, j, tails).value == j + |tails[n]|
        && forall m :: 0 <= m < n ==> !LitAt(lt, j, tails[m])
    ensures TailAt(lt, j, tails).None? <==> forall n :: 0 <= n < |tails| ==> !LitAt(lt, j, tails[n])
  {
    if tails != [] && !LitAt(lt, j, tails[0]) {
      TailAtFirst(lt, j, tails[1..]);
      if TailAt(lt, j, tails).Some? {
        var n :| 0 <= n < |tails[1..]| && LitAt(lt, j, tails[1..][n])
          && TailAt(lt, j, tails[1..]).value == j + |tails[1..][n]|
          && forall m :: 0 <= m < n ==> !LitAt(lt, j, tails[1..][m]);
        assert LitAt(lt, j, tails[n + 1]);
        assert forall m :: 0 <= m < n + 1 ==> !LitAt(lt, j, tails[m]) by {
          forall m | 0 <= m < n + 1 ensures !LitAt(lt, j, tails[m]) {
            if m > 0 {
              assert tails[m] == tails[1..][m - 1];
            }
          }
        }
      } else {
        forall n | 0 <= n < |tails| ensures !LitAt(lt, j, tails[n]) {
          if n > 0 {
            assert tails[n] == tails[1..][n - 1];
          }
        }
      }
    } else if tails != [] {
      assert LitAt(lt, j, tails[0]);
    }
  }

  /** `.*?` followed by an alternation, from position `j`: the shortest run
      of non-newline characters after which some alternative matches. */
  function LazyEnd(lt: string, j: nat, tails: seq<string>): (r: Option<nat>)
    requires j <= |lt|
    ensures r.Some? ==> j <= r.value <= |lt|
    decreases |lt| - j
  {
    match TailAt(lt, j, tails)
    case Some(e) => Some(e)
    case None => if j < |lt| && lt[j] != '\n' then LazyEnd(lt, j + 1, tails) else None
  }

  /** The end of the match of `p` that starts at position `i`, if any. */
  function MatchAt(lt: string, i: nat, p: Pattern): (r: Option<nat>)
    requires i <= |lt|
    ensures r.Some? ==> i + |p.head| <= r.value <= |lt|
  {
    if !LitAt(lt, i, p.head) then None
    else
      var h := i + |p.head|;
      match p.gap
      case Adjacent => TailAt(lt, h, p.tails)
      case Spaces(n) =>
        var j := SpaceEnd(lt, h);
        if j - h >= n then TailAt(lt, j, p.tails) else None
      case LazyAny => LazyEnd(lt, h, p.tails)
  }

  // ---------------------------------------------------------------------
  // `MatchAt` never backtracks into a run of spaces; `re` does. The two
  // agree on well-formed patterns.

  /** How `re` matches `\s{n,}(?:t0|t1|...)` once the run of whitespace
      ends at `j`: it tries the alternation after the longest run first,
      then gives back one space at a time down to the fewest allowed, `lo`. */
  function Backtrack(lt: string, lo: nat, j: nat, tails: seq<string>): (r: Option<nat>)
    requires lo <= j <= |lt|
    decreases j - lo
  {
    match TailAt(lt, j, tails)
    case Some(e) => Some(e)
    case None => if lo < j then Backtrack(lt, lo, j - 1, tails) else None
  }

  /** The match `re` finds at position `i`, with backtracking into the run
      of spaces. */
  function BacktrackingMatchAt(lt: string, i: nat, p: Pattern): (r: Option<nat>)
    requires i <= |lt|
  {
    if !LitAt(lt, i, p.head) then None
    else
      var h := i + |p.head|;
      match p.gap
      case Adjacent => TailAt(lt, h, p.tails)
      case Spaces(n) =>
        var j := SpaceEnd(lt, h);
        if j - h >= n then Backtrack(lt, h + n, j, p.tails) else None
      case LazyAny => LazyEnd(lt, h, p.tails)
  }

  /** Tails that start with a non-space never match at a space. */
  lemma NoTailAtSpace(lt: string, j: nat, tails: seq<string>)
    requires j < |lt| && IsSpace(lt[j])
    requires forall k :: 0 <= k < |tails| ==> |tails[k]| > 0 && !IsSpace(tails[k][0])
    ensures TailAt(lt, j, tails).None?
  {
    forall k | 0 <= k < |tails|
      ensures !LitAt(lt, j, tails[k])
    {
      var t := tails[k];
      if j + |t| <= |lt| {
        assert lt[j..j + |t|][0] == lt[j];
        assert LowerStr(t)[0] == Lower(t[0]);
        assert lt[j..j + |t|] != LowerStr(t);
      }
    }
    TailAtFirst(lt, j, tails);
  }

  /** Giving back spaces never helps such tails: backtracking over a run of
      spaces finds nothing. */
  lemma {:induction false} BacktrackInSpaces(lt: string, lo: nat, j: nat, tails: seq<string>)
    requires lo <= j < |lt|
    requires forall k :: lo <= k <= j ==> IsSpace(lt[k])
    requires forall k :: 0 <= k < |tails| ==> |tails[k]| > 0 && !IsSpace(tails[k][0])
    ensures Backtrack(lt, lo, j, tails).None?
    decreases j - lo
  {
    NoTailAtSpace(lt, j, tails);
    if lo < j {
      BacktrackInSpaces(lt, lo, j - 1, tails);
    }
  }

  /** On a well-formed pattern the greedy, non-backtracking `MatchAt` finds
      exactly the match `re` finds. */
  lemma WellFormedMatchesAsRe(lt: string, i: nat, p: Pattern)
    requires WellFormed(p) && i <= |lt|
    ensures MatchAt(lt, i, p) == BacktrackingMatchAt(lt, i, p)
  {
    if LitAt(lt, i, p.head) && p.gap.Spaces? {
      var h := i + |p.head|;
      var j := SpaceEnd(lt, h);
      var n := p.gap.atLeast;
      if j - h >= n && TailAt(lt, j, p.tails).None? && h + n < j {
        SpaceEndMaximal(lt, h);
        BacktrackInSpaces(lt, h + n, j - 1, p.tails);
      }
    }
  }

  /** The leftmost match that starts at or after `i`. */
  function SearchFrom(lt: string, p: Pattern, i: nat): (r: Option<Span>)
    requires i <= |lt|
    ensures r.Some? ==> i <= r.value.start <= r.value.end <= |lt|
    decreases |lt| - i
  {
    match MatchAt(lt, i, p)
    case Some(e) => Some(Span(i, e))
    case None => if i < |lt| then SearchFrom(lt, p, i + 1) else None
  }

  /** `SearchFrom` finds a match, and the leftmost one: no match starts
      between `i` and its start, and when it finds none, no match starts
      anywhere from `i` on. */
  lemma {:induction false} SearchFromLeftmost(lt: string, p: Pattern, i: nat)
    requires i <= |lt|
    ensures SearchFrom(lt, p, i).Some? ==>
      MatchAt(lt, SearchFrom(lt, p, i).value.start, p) == Some(SearchFrom(lt, p, i).value.end)
    ensures SearchFrom(lt, p, i).Some? ==>
      forall k :: i <= k < SearchFrom(lt, p, i).value.start ==> MatchAt(lt, k, p).None?
    ensures SearchFrom(lt, p, i).None? ==> forall k :: i <= k <= |lt| ==> MatchAt(lt, k, p).None?
    decreases |lt| - i
  {
    match MatchAt(lt, i, p)
    case Some(e) =>
      assert SearchFrom(lt, p, i) == Some(Span(i, e));
    case None =>
      if i < |lt| {
        SearchFromLeftmost(lt, p, i + 1);
        assert SearchFrom(lt, p, i) == SearchFrom(lt, p, i + 1);
      } else {
        assert SearchFrom(lt, p, i).None?;
      }
  }

  /** `re.search(p, text, re.IGNORECASE)`, which is also the first match
      that `re.finditer` yields: the match with the leftmost start. */
  function Search(text: string, p: Pattern): (r: Option<Span>)
    ensures r.Some? ==> r.value.start <= r.value.end <= |text|
  {
    SearchFrom(LowerStr(text), p, 0)
  }

  /** Nothing matches a well-formed pattern in the empty text. */
  lemma SearchEmpty(p: Pattern)
    requires |p.head| > 0
    ensures Search("", p).None?
  {
    assert !LitAt(LowerStr(""), 0, p.head);
  }

  // ---------------------------------------------------------------------
  // Sentence splitting: re.split(r'[.!?]\s+', text)

  predicate IsTerminator(c: char) {
    c == '.' || c == '!' || c == '?'
  }

  /** A separator `[.!?]\s+` starts at position `i`. */
  predicate SeparatorAt(s: string, i: nat) {
    i + 1 < |s| && IsTerminator(s[i]) && IsSpace(s[i + 1])
  }

  /** The leftmost separator at or after `i`. */
  function FirstSeparator(s: string, i: nat): (r: Option<nat>)
    requires i <= |s|
    ensures r.Some? ==> i <= r.value && r.value + 1 < |s|
    decreases |s| - i
  {
    if i + 1 >= |s| then None
    else if SeparatorAt(s, i) then Some(i)
    else FirstSeparator(s, i + 1)
  }

  /** `FirstSeparator` finds the leftmost separator at or after `i`, and
      finds none only when there is none. */
  lemma {:induction false} FirstSeparatorLeftmost(s: string, i: nat)
    requires i <= |s|
    ensures FirstSeparator(s, i).Some? ==> SeparatorAt(s, FirstSeparator(s, i).value)
    ensures FirstSeparator(s, i).Some? ==> forall k :: i <= k < FirstSeparator(s, i).value ==> !SeparatorAt(s, k)
    ensures FirstSeparator(s, i).None? ==> forall k :: i <= k ==> !SeparatorAt(s, k)
    decreases |s| - i
  {
    if i + 1 < |s| && !SeparatorAt(s, i) {
      FirstSeparatorLeftmost(s, i + 1);
    }
  }

  /** The pieces `re.split(r'[.!?]\s+', s)` returns: the text between
      separators, where each separator is a terminator and the greedy run of
      whitespace after it. */
  function SplitSentences(s: string): (r: seq<string>)
    ensures |r| >= 1
    decreases |s|
  {
    match FirstSeparator(s, 0)
    case None => [s]
    case Some(i) => [s[..i]] + SplitSentences(s[SpaceEnd(s, i + 1)..])
  }

  /** Every sentence is a contiguous part of the text it was split from. */
  lemma {:induction false} SentencesAreInfixes(s: string)
    ensures forall k :: 0 <= k < |SplitSentences(s)| ==> Contains(s, SplitSentences(s)[k])
    decreases |s|
  {
    var r := SplitSentences(s);
    match FirstSeparator(s, 0)
    case None =>
      assert r == [s];
      assert OccursAt(s, s, 0);
    case Some(i) =>
      var rest := s[SpaceEnd(s, i + 1)..];
      var tail := SplitSentences(rest);
      assert r == [s[..i]] + tail;
      SentencesAreInfixes(rest);
      assert OccursAt(s, s[..i], 0);
      assert OccursAt(s, rest, SpaceEnd(s, i + 1));
      forall k | 1 <= k < |r|
        ensures Contains(s, r[k])
      {
        assert r[k] == tail[k - 1];
        ContainsTransitive(s, rest, tail[k - 1]);
      }
  }

  /** A keyword found in a lowercased sentence is found in the lowercased text. */
  lemma SentenceKeywordInText(s: string, k: nat, kw: string)
    requires k < |SplitSentences(s)|
    requires Contains(LowerStr(SplitSentences(s)[k]), kw)
    ensures Contains(LowerStr(s), kw)
  {
    SentencesAreInfixes(s);
    ContainsLowered(s, SplitSentences(s)[k], kw);
  }

  /** Splitting the empty text gives one empty sentence, as Python does. */
  lemma SplitEmpty()
    ensures SplitSentences("") == [""]
  {
  }
}
