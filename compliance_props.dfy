/** What the six rule checkers and the aggregate report promise, proved
    about the functions of `ComplianceSpec` (which the methods of
    `ComplianceAnalyzer` are proved to compute). */
module ComplianceProps {
  import opened Strings
  import opened Regex
  import opened ComplianceSpec

  // ---------------------------------------------------------------------
  // Keyword counting

  /** `Present` keeps exactly the keywords that occur in the text. */
  lemma {:induction false} PresentExactly(kws: seq<string>, t: string)
    ensures forall w :: w in Present(kws, t) ==> w in kws && Contains(t, w)
    ensures forall i :: 0 <= i < |kws| && Contains(t, kws[i]) ==> kws[i] in Present(kws, t)
  {
    if kws != [] {
      var init := kws[..|kws| - 1];
      PresentExactly(init, t);
      forall i | 0 <= i < |kws| && Contains(t, kws[i])
        ensures kws[i] in Present(kws, t)
      {
        if i < |kws| - 1 {
          assert kws[i] == init[i];
        }
      }
      forall w | w in Present(kws, t)
        ensures w in kws && Contains(t, w)
      {
        if w in Present(init, t) {
          assert w in init;
        }
      }
    }
  }

  /** `any(kw in t for kw in kws)` is `sum(1 for kw in kws if kw in t) > 0`. */
  lemma AnyPresentIffCounted(kws: seq<string>, t: string)
    ensures AnyPresent(kws, t) <==> CountPresent(kws, t) > 0
  {
    PresentExactly(kws, t);
    if CountPresent(kws, t) > 0 {
      assert Present(kws, t)[0] in Present(kws, t);
    }
  }

  /** A keyword that starts with a capital letter never occurs in a
      lowercased text, so it is never counted. */
  lemma CapitalKeywordNeverCounted(kws: seq<string>, text: string, w: string)
    requires |w| > 0 && IsUpper(w[0])
    ensures w !in Present(kws, LowerStr(text))
  {
    PresentExactly(kws, LowerStr(text));
    LoweredLacksUpper(text, w);
  }

  /** Removing a keyword that is never present cannot raise the count: the
      count is at most the number of the other keywords. */
  lemma {:induction false} CountWithoutAbsent(kws: seq<string>, t: string, w: string)
    requires w in kws && !Contains(t, w)
    ensures CountPresent(kws, t) <= |kws| - 1
  {
    var init := kws[..|kws| - 1];
    if kws[|kws| - 1] == w {
      assert Present(kws, t) == Present(init, t);
    } else {
      assert w in init by {
        var i :| 0 <= i < |kws| && kws[i] == w;
        assert init[i] == w;
      }
      CountWithoutAbsent(init, t, w);
    }
  }

  // ---------------------------------------------------------------------
  // Rule 2(1)(wa)

  /** No qualifying sentence is more similar to the definition than the
      best match. */
  lemma {:induction false} BestIsMaximum(ss: seq<string>, similarity: Similarity)
    ensures forall j :: 0 <= j < |ss| && Qualifies(ss[j]) ==>
      DefinitionSimilarity(similarity, ss[j]) <= Best(ss, similarity).similarity
  {
    if ss != [] {
      var init := ss[..|ss| - 1];
      BestIsMaximum(init, similarity);
      forall j | 0 <= j < |ss| - 1
        ensures ss[j] == init[j]
      {
      }
    }
  }

  /** The best match never has a negative similarity, and a similarity of
      zero means that no sentence was taken. */
  lemma {:induction false} BestInitial(ss: seq<string>, similarity: Similarity)
    ensures Best(ss, similarity).similarity >= 0.0
    ensures Best(ss, similarity).similarity == 0.0 ==> Best(ss, similarity) == BestMatch(0.0, "")
  {
    if ss != [] {
      BestInitial(ss[..|ss| - 1], similarity);
    }
  }

  /** A positive best match is a qualifying sentence, stripped, and the
      earliest one of that similarity: every qualifying sentence before it
      is strictly less similar. */
  lemma {:induction false} BestIsEarliest(ss: seq<string>, similarity: Similarity)
    ensures var b := Best(ss, similarity);
      b.similarity > 0.0 ==>
        exists k :: 0 <= k < |ss| && Qualifies(ss[k])
          && DefinitionSimilarity(similarity, ss[k]) == b.similarity && b.text == Strip(ss[k])
          && forall j :: 0 <= j < k && Qualifies(ss[j]) ==> DefinitionSimilarity(similarity, ss[j]) < b.similarity
  {
    if ss != [] {
      var init := ss[..|ss| - 1];
      var last := ss[|ss| - 1];
      var prev := Best(init, similarity);
      var b := Best(ss, similarity);
      if Qualifies(last) && DefinitionSimilarity(similarity, last) > prev.similarity {
        BestIsMaximum(init, similarity);
        assert forall j :: 0 <= j < |ss| - 1 ==> ss[j] == init[j];
      } else if b.similarity > 0.0 {
        BestIsEarliest(init, similarity);
        var k :| 0 <= k < |init| && Qualifies(init[k])
          && DefinitionSimilarity(similarity, init[k]) == b.similarity && b.text == Strip(init[k])
          && forall j :: 0 <= j < k && Qualifies(init[j]) ==> DefinitionSimilarity(similarity, init[j]) < b.similarity;
        assert forall j :: 0 <= j <= k ==> ss[j] == init[j];
      }
    }
  }

  /** Without a qualifying sentence the definition earns nothing: the score
      is the keyword part alone and the only definition finding is "No clear
      definition". */
  lemma NoQualifyingSentence(text: string, similarity: Similarity)
    requires forall j :: 0 <= j < |SplitSentences(text)| ==> !Qualifies(SplitSentences(text)[j])
    ensures Rule21wa(text, similarity).score == 500 * CountPresent(Required21, LowerStr(text))
    ensures Rule21wa(text, similarity).findings[|Rule21wa(text, similarity).findings| - 1] == NoClearDefinition
    ensures Rule21wa(text, similarity).evidence == []
  {
    var ss := SplitSentences(text);
    BestIsEarliest(ss, similarity);
    BestInitial(ss, similarity);
  }

  /** The score is 5 points per required keyword plus the definition band,
      which never exceeds 100; one evidence entry exactly when the band is
      positive; "No clear definition" exactly when it is zero. */
  lemma Rule21waScore(text: string, similarity: Similarity)
    ensures var r := Rule21wa(text, similarity);
      var band := DefinitionBand(Best(SplitSentences(text), similarity).similarity);
      && band in {0, 3000, 6000, 8000}
      && r.score == 500 * CountPresent(Required21, LowerStr(text)) + band <= 10000
      && (r.status == Pass <==> r.score >= 7000)
      && r.recommendation == (if r.status == Pass then Adequate else Advise)
      && (r.status == Partial <==> 4000 <= r.score < 7000)
      && (|r.evidence| == 1 <==> band > 0)
      && (r.evidence == [] <==> band == 0)
      && (NoClearDefinition in r.findings <==> band == 0)
      && |r.findings| >= 1
  {
    var r := Rule21wa(text, similarity);
    var found := Present(Required21, LowerStr(text));
    var best := Best(SplitSentences(text), similarity);
    assert r.findings == Flag(|found| > 0, KeywordsFound(|found|, found)) + [DefinitionFinding(best.similarity)];
    assert NoClearDefinition !in Flag(|found| > 0, KeywordsFound(|found|, found));
  }

  // ---------------------------------------------------------------------
  // Rule 4(2)

  /** Each span `MatchedSpans` returns lies inside the text. */
  lemma {:induction false} MatchedSpansInText(ps: seq<Pattern>, text: string)
    ensures forall i :: 0 <= i < |MatchedSpans(ps, text)| ==>
      MatchedSpans(ps, text)[i].start <= MatchedSpans(ps, text)[i].end <= |text|
  {
    if ps != [] {
      var init := ps[..|ps| - 1];
      MatchedSpansInText(init, text);
    }
  }

  /** The window of an evidence entry is an excerpt of the text, no longer
      than the match plus 150 characters on each side. */
  lemma WindowIsExcerpt(text: string, start: nat, end: nat)
    requires start <= end <= |text|
    ensures |Window(text, start, end)| <= end - start + 300
    ensures Contains(text, Window(text, start, end))
  {
    var lo := if start >= 150 then start - 150 else 0;
    var hi := if end + 150 <= |text| then end + 150 else |text|;
    var window := text[lo..hi];
    StripShape(window);
    ContainsSlice(window, LeadingSpaces(window), TrailingCut(window, LeadingSpaces(window)));
    ContainsSlice(text, lo, hi);
    ContainsTransitive(text, window, Strip(window));
  }

  /** At most one match per pattern and the uppercase "AI" never counted:
      the score is min(60, 20p) + min(40, 10k) with p <= 4 and k <= 5, so
      it lies in [0, 100]; at most three evidence entries, each an excerpt
      of the text. */
  lemma Rule42Score(text: string)
    ensures var r := Rule42(text);
      var p := |MatchedSpans(Patterns42, text)|;
      var k := CountPresent(Required42, LowerStr(text));
      && p <= 4 && k <= 5
      && r.score == Min(6000, 2000 * p) + Min(4000, 1000 * k)
      && 0 <= r.score <= 10000
      && (r.status == Pass <==> r.score >= 6000)
      && r.recommendation == (if r.status == Pass then Adequate else Advise)
      && (r.status == Partial <==> 3000 <= r.score < 6000)
      && |r.evidence| <= 3
      && (NoAutomatedTools in r.findings <==> p == 0)
      && |r.findings| >= 1
  {
    LoweredLacksUpper(text, "AI");
    assert Required42[3] == "AI";
    CountWithoutAbsent(Required42, LowerStr(text), "AI");
  }

  /** Each evidence entry is the context of the first match of one pattern,
      in pattern order, and its window is an excerpt of the text. */
  lemma Rule42Evidence(text: string)
    ensures var e := Rule42(text).evidence;
      var spans := MatchedSpans(Patterns42, text);
      forall i :: 0 <= i < |e| ==>
        && e[i] == Context(text, spans[i].start, spans[i].end)
        && Contains(text, Window(text, spans[i].start, spans[i].end))
  {
    var spans := MatchedSpans(Patterns42, text);
    MatchedSpansInText(Patterns42, text);
    var e := Rule42(text).evidence;
    forall i | 0 <= i < |e|
      ensures e[i] == Context(text, spans[i].start, spans[i].end)
      ensures Contains(text, Window(text, spans[i].start, spans[i].end))
    {
      assert e[i] == Contexts(text, spans)[i];
      WindowIsExcerpt(text, spans[i].start, spans[i].end);
    }
  }

  // ---------------------------------------------------------------------
  // Rule 4(4)

  /** `Mentioning` keeps exactly the sentences that mention a keyword. */
  lemma {:induction false} MentioningExactly(ss: seq<string>, kws: seq<string>)
    ensures |Mentioning(ss, kws)| <= |ss|
    ensures forall s :: s in Mentioning(ss, kws) ==> s in ss && AnyPresent(kws, LowerStr(s))
    ensures forall i :: 0 <= i < |ss| && AnyPresent(kws, LowerStr(ss[i])) ==> ss[i] in Mentioning(ss, kws)
  {
    if ss != [] {
      var init := ss[..|ss| - 1];
      MentioningExactly(init, kws);
      forall i | 0 <= i < |ss| && AnyPresent(kws, LowerStr(ss[i]))
        ensures ss[i] in Mentioning(ss, kws)
      {
        if i < |ss| - 1 {
          assert ss[i] == init[i];
        }
      }
      forall s | s in Mentioning(ss, kws)
        ensures s in ss && AnyPresent(kws, LowerStr(s))
      {
        if s in Mentioning(init, kws) {
          assert s in init;
        }
      }
    }
  }

  /** A sentence of the text that mentions a keyword makes the keyword
      count of the whole text positive. */
  lemma SentenceMentionCounts(text: string, s: string, kws: seq<string>)
    requires s in SplitSentences(text) && AnyPresent(kws, LowerStr(s))
    ensures CountPresent(kws, LowerStr(text)) > 0
  {
    var k :| 0 <= k < |SplitSentences(text)| && SplitSentences(text)[k] == s;
    var i :| 0 <= i < |kws| && Contains(LowerStr(s), kws[i]);
    SentenceKeywordInText(text, k, kws[i]);
    PresentExactly(kws, LowerStr(text));
    assert kws[i] in Present(kws, LowerStr(text));
  }

  /** A complaint sentence that mentions AI lies in a text that mentions a
      complaint keyword: the 60 points come only with the 40. */
  lemma AiSectionImpliesComplaint(text: string)
    requires |AiComplaintSections(text)| > 0
    ensures CountPresent(ComplaintKeywords, LowerStr(text)) > 0
  {
    var s := AiComplaintSections(text)[0];
    MentioningExactly(ComplaintSections(text), AiKeywords);
    MentioningExactly(SplitSentences(text), ComplaintKeywords);
    assert s in ComplaintSections(text);
    SentenceMentionCounts(text, s, ComplaintKeywords);
  }

  /** The score is 0, 40 or 100: 40 exactly when a complaint keyword occurs,
      100 exactly when a complaint sentence mentions AI; at most two
      evidence entries. */
  lemma Rule44Score(text: string)
    ensures var r := Rule44(text);
      && r.score in {0, 4000, 10000}
      && (r.score >= 4000 <==> CountPresent(ComplaintKeywords, LowerStr(text)) > 0)
      && (r.score == 10000 <==> |AiComplaintSections(text)| > 0)
      && (r.status == Pass <==> r.score == 10000)
      && r.recommendation == (if r.status == Pass then Adequate else Advise)
      && (r.status == Partial <==> r.score == 4000)
      && |r.evidence| <= 2
      && (ComplaintLacksAiMention in r.findings <==> |AiComplaintSections(text)| == 0)
      && |r.findings| >= 1
  {
    if |AiComplaintSections(text)| > 0 {
      AiSectionImpliesComplaint(text);
    }
  }

  /** The keyword "ai" is a substring of "complaint", so a sentence that
      contains the word "complaint" always counts as mentioning AI. */
  lemma ComplaintWordMentionsAi(s: string)
    requires Contains(LowerStr(s), "complaint")
    ensures AnyPresent(AiKeywords, LowerStr(s))
  {
    assert "complaint"[5..7] == "ai";
    ContainsSlice("complaint", 5, 7);
    ContainsTransitive(LowerStr(s), "complaint", "ai");
    assert AiKeywords[0] == "ai";
  }

  /** Hence any sentence that says "complaint" earns the full 100 points. */
  lemma ComplaintSentenceScoresFull(text: string, k: nat)
    requires k < |SplitSentences(text)|
    requires Contains(LowerStr(SplitSentences(text)[k]), "complaint")
    ensures Rule44(text).score == 10000
  {
    var s := SplitSentences(text)[k];
    assert ComplaintKeywords[0] == "complaint";
    MentioningExactly(SplitSentences(text), ComplaintKeywords);
    assert s in ComplaintSections(text);
    ComplaintWordMentionsAi(s);
    MentioningExactly(ComplaintSections(text), AiKeywords);
    assert s in AiComplaintSections(text);
    Rule44Score(text);
  }

  // ---------------------------------------------------------------------
  // Rule 3(1)(b)

  /** `TypesMatching` holds exactly the names whose pattern matches. */
  lemma {:induction false} TypesMatchingExactly(names: seq<HarmfulType>, ps: seq<Pattern>, text: string)
    requires |names| == |ps|
    ensures forall t :: t in TypesMatching(names, ps, text) ==>
      exists i :: 0 <= i < |names| && names[i] == t && Search(text, ps[i]).Some?
    ensures forall i :: 0 <= i < |names| && Search(text, ps[i]).Some? ==> names[i] in TypesMatching(names, ps, text)
  {
    if names != [] {
      var n := |names| - 1;
      TypesMatchingExactly(names[..n], ps[..n], text);
      forall t | t in TypesMatching(names, ps, text)
        ensures exists i :: 0 <= i < |names| && names[i] == t && Search(text, ps[i]).Some?
      {
        if t in TypesMatching(names[..n], ps[..n], text) {
          var i :| 0 <= i < n && names[..n][i] == t && Search(text, ps[..n][i]).Some?;
          assert names[i] == t && ps[i] == ps[..n][i];
        } else {
          assert names[n] == t && Search(text, ps[n]).Some?;
        }
      }
      forall i | 0 <= i < |names| && Search(text, ps[i]).Some?
        ensures names[i] in TypesMatching(names, ps, text)
      {
        if i < n {
          assert names[..n][i] == names[i] && ps[..n][i] == ps[i];
        }
      }
    }
  }

  /** With distinct names, one evidence span per matched type: the number
      of first matches is the number of types found. */
  lemma {:induction false} SpansPerType(names: seq<HarmfulType>, ps: seq<Pattern>, text: string)
    requires |names| == |ps|
    requires forall i, j :: 0 <= i < j < |names| ==> names[i] != names[j]
    ensures |MatchedSpans(ps, text)| == |TypesMatching(names, ps, text)|
  {
    if names != [] {
      var n := |names| - 1;
      var init, initPs := names[..n], ps[..n];
      assert forall i :: 0 <= i < n ==> init[i] == names[i];
      SpansPerType(init, initPs, text);
      var before := TypesMatching(init, initPs, text);
      if Search(text, ps[n]).Some? {
        assert names[n] !in before by {
          TypesMatchingExactly(init, initPs, text);
        }
        assert TypesMatching(names, ps, text) == before + {names[n]};
      } else {
        assert TypesMatching(names, ps, text) == before;
      }
    }
  }

  /** Each harmful type is found exactly when its pattern matches. */
  lemma FoundTypesExactly(text: string)
    ensures Deepfake in FoundTypes(text) <==> Search(text, HarmfulPatterns[0]).Some?
    ensures Misleading in FoundTypes(text) <==> Search(text, HarmfulPatterns[1]).Some?
    ensures Manipulated in FoundTypes(text) <==> Search(text, HarmfulPatterns[2]).Some?
    ensures Section79 in FoundTypes(text) <==> Search(text, HarmfulPatterns[3]).Some?
  {
    TypesMatchingExactly(HarmfulTypes, HarmfulPatterns, text);
  }

  /** The positions, in `ps`, of the patterns that match `text`, in order. */
  function MatchingIndices(ps: seq<Pattern>, text: string): seq<nat> {
    if ps == [] then []
    else if Search(text, ps[|ps| - 1]).Some? then MatchingIndices(ps[..|ps| - 1], text) + [|ps| - 1]
    else MatchingIndices(ps[..|ps| - 1], text)
  }

  /** The positions of the matching patterns are increasing, and are
      exactly those whose search succeeds. */
  lemma {:induction false} MatchingIndicesExactly(ps: seq<Pattern>, text: string)
    ensures var idx := MatchingIndices(ps, text);
      && (forall k :: 0 <= k < |idx| ==> idx[k] < |ps|)
      && (forall k1, k2 :: 0 <= k1 < k2 < |idx| ==> idx[k1] < idx[k2])
      && (forall j :: 0 <= j < |ps| ==> (Search(text, ps[j]).Some? <==> j in idx))
  {
    if ps != [] {
      var n := |ps| - 1;
      var init := ps[..n];
      MatchingIndicesExactly(init, text);
      var before := MatchingIndices(init, text);
      var idx := MatchingIndices(ps, text);
      assert n !in before;
      forall j | 0 <= j < |ps|
        ensures Search(text, ps[j]).Some? <==> j in idx
      {
        if j < n {
          assert init[j] == ps[j];
          assert j in idx <==> j in before;
        }
      }
    }
  }

  /** The k-th span is the first match of the pattern at the k-th matching
      position. */
  lemma {:induction false} SpansAtIndices(ps: seq<Pattern>, text: string)
    ensures var idx, spans := MatchingIndices(ps, text), MatchedSpans(ps, text);
      && |idx| == |spans|
      && (forall k :: 0 <= k < |idx| ==> idx[k] < |ps| && Search(text, ps[idx[k]]) == Some(spans[k]))
  {
    if ps != [] {
      var n := |ps| - 1;
      var init := ps[..n];
      SpansAtIndices(init, text);
      var before := MatchingIndices(init, text);
      assert forall k :: 0 <= k < |before| ==> init[before[k]] == ps[before[k]];
    }
  }

  /** The k-th span is the first match of the k-th pattern that matches:
      the positions of the matching patterns are increasing and are exactly
      those whose search succeeds. */
  lemma MatchedSpansExactly(ps: seq<Pattern>, text: string)
    ensures var idx, spans := MatchingIndices(ps, text), MatchedSpans(ps, text);
      && |idx| == |spans|
      && (forall k :: 0 <= k < |idx| ==> idx[k] < |ps| && Search(text, ps[idx[k]]) == Some(spans[k]))
      && (forall k1, k2 :: 0 <= k1 < k2 < |idx| ==> idx[k1] < idx[k2])
      && (forall j :: 0 <= j < |ps| ==> (Search(text, ps[j]).Some? <==> j in idx))
  {
    MatchingIndicesExactly(ps, text);
    SpansAtIndices(ps, text);
  }

  /** The first `limit` contexts of the first matches: the i-th is the
      context of the first match of the i-th pattern that matches. */
  lemma FirstMatchContexts(ps: seq<Pattern>, text: string, limit: nat)
    ensures var e, idx := Take(Contexts(text, MatchedSpans(ps, text)), limit), MatchingIndices(ps, text);
      && |e| == Min(limit, |idx|)
      && (forall i :: 0 <= i < |e| ==>
            && idx[i] < |ps|
            && Search(text, ps[idx[i]]).Some?
            && e[i] == Context(text, Search(text, ps[idx[i]]).value.start, Search(text, ps[idx[i]]).value.end))
  {
    var spans := MatchedSpans(ps, text);
    MatchedSpansExactly(ps, text);
    var e := Take(Contexts(text, spans), limit);
    forall i | 0 <= i < |e|
      ensures e[i] == Context(text, spans[i].start, spans[i].end)
    {
      assert e[i] == Contexts(text, spans)[i];
    }
  }

  /** With distinct names, a name is found exactly when its position is
      among the matching patterns' positions. */
  lemma TypesAtIndices(names: seq<HarmfulType>, ps: seq<Pattern>, text: string)
    requires |names| == |ps|
    requires forall i, j :: 0 <= i < j < |names| ==> names[i] != names[j]
    ensures forall j :: 0 <= j < |names| ==>
      (names[j] in TypesMatching(names, ps, text) <==> j in MatchingIndices(ps, text))
  {
    MatchedSpansExactly(ps, text);
    TypesMatchingExactly(names, ps, text);
    forall j | 0 <= j < |names| && names[j] in TypesMatching(names, ps, text)
      ensures Search(text, ps[j]).Some?
    {
      var i :| 0 <= i < |names| && names[i] == names[j] && Search(text, ps[i]).Some?;
      assert i == j;
    }
  }

  /** Rule 3(1)(b)'s evidence follows the fixed type order: the i-th entry
      is the context of the first match of the i-th type found, at most
      three of them. */
  lemma Rule31bEvidence(text: string)
    ensures var e, idx := Rule31b(text).evidence, MatchingIndices(HarmfulPatterns, text);
      && |e| == Min(3, |idx|)
      && (forall i1, i2 :: 0 <= i1 < i2 < |idx| ==> idx[i1] < idx[i2])
      && (forall j :: 0 <= j < |HarmfulTypes| ==> (HarmfulTypes[j] in FoundTypes(text) <==> j in idx))
      && (forall i :: 0 <= i < |e| ==>
            && idx[i] < |HarmfulTypes|
            && Search(text, HarmfulPatterns[idx[i]]).Some?
            && e[i] == Context(text, Search(text, HarmfulPatterns[idx[i]]).value.start,
                                     Search(text, HarmfulPatterns[idx[i]]).value.end))
  {
    assert Rule31b(text).evidence == Take(Contexts(text, MatchedSpans(HarmfulPatterns, text)), 3);
    MatchedSpansExactly(HarmfulPatterns, text);
    FirstMatchContexts(HarmfulPatterns, text, 3);
    TypesAtIndices(HarmfulTypes, HarmfulPatterns, text);
  }

  /** The score is 30, 35, 20 and 15 points for the four groups, at most
      100; "No specific mention" exactly when no type matched; one evidence
      entry per type found, at most three. */
  lemma Rule31bScore(text: string)
    ensures var r := Rule31b(text);
      var types := FoundTypes(text);
      && r.score == (if AnyPresent(ProhibitedPhrases, LowerStr(text)) then 3000 else 0)
        + (if Deepfake in types then 3500 else 0)
        + (if Misleading in types || Manipulated in types then 2000 else 0)
        + (if Section79 in types then 1500 else 0)
      && 0 <= r.score <= 10000
      && (r.status == Pass <==> r.score >= 7000)
      && r.recommendation == (if r.status == Pass then Adequate else Advise)
      && (r.status == Partial <==> 4000 <= r.score < 7000)
      && (NoHarmfulTypes in r.findings <==> types == {})
      && |r.evidence| == Min(3, |types|)
      && |r.findings| >= 1
  {
    SpansPerType(HarmfulTypes, HarmfulPatterns, text);
    var r := Rule31b(text);
    var types := FoundTypes(text);
    var prohibited := AnyPresent(ProhibitedPhrases, LowerStr(text));
    assert r.findings == Flag(prohibited, MentionsProhibitedContent)
        + Flag(Deepfake in types, DeepfakesProhibited)
        + Flag(Misleading in types || Manipulated in types, MisleadingOrManipulated)
        + Flag(Section79 in types, Section79Mentioned)
        + Flag(types == {}, NoHarmfulTypes);
    if types != {} {
      var t :| t in types;
      assert Deepfake in types || Misleading in types || Manipulated in types || Section79 in types by {
        match t
        case Deepfake =>
        case Misleading =>
        case Manipulated =>
        case Section79 =>
      }
    }
  }

  // ---------------------------------------------------------------------
  // Rules 3(3) and 4(1A): sub-requirements

  /** Every sub-requirement is either met or listed as missing, and none is
      missing exactly when all are met. */
  lemma {:induction false} MetOrMissing(reqs: seq<SubRequirement>)
    ensures CountMet(reqs) + |Missing(reqs)| == |reqs|
    ensures Missing(reqs) == [] <==> forall i :: 0 <= i < |reqs| ==> reqs[i].met
    ensures CountMet(reqs) == |reqs| <==> forall i :: 0 <= i < |reqs| ==> reqs[i].met
    ensures CountMet(reqs) == 0 <==> forall i :: 0 <= i < |reqs| ==> !reqs[i].met
  {
    if reqs != [] {
      var n := |reqs| - 1;
      MetOrMissing(reqs[..n]);
      assert forall i :: 0 <= i < n ==> reqs[..n][i] == reqs[i];
    }
  }

  /** Rule 3(3): 25 points per sub-requirement met; the four fixed keys;
      the prohibition needs two prohibition keywords and "removal" or
      "modification"; the requirements are adequate exactly when all four
      are met, and otherwise the missing ones are listed. */
  lemma Rule33Score(text: string)
    ensures var r := Rule33(text);
      var reqs := LabelingRequirements(text);
      var lower := LowerStr(text);
      && r.score == 2500 * CountMet(reqs)
      && r.score in {0, 2500, 5000, 7500, 10000}
      && r.subRequirements == Some(reqs)
      && Keys(reqs) == LabelingKeys
      && (reqs[3].met <==>
            CountPresent(ProhibitionKeywords, lower) >= 2 && (Contains(lower, "removal") || Contains(lower, "modification")))
      && (r.status == Pass <==> CountMet(reqs) >= 3)
      && (r.status == Partial <==> CountMet(reqs) == 2)
      && (r.recommendation == Adequate <==> forall i :: 0 <= i < 4 ==> reqs[i].met)
      && (r.recommendation != Adequate ==>
            r.recommendation == AddMissing(Missing(reqs)) && |Missing(reqs)| == 4 - CountMet(reqs))
      && (NoLabelingRequirements in r.findings <==> CountMet(reqs) == 0)
      && |r.findings| >= 1
  {
    var reqs := LabelingRequirements(text);
    MetOrMissing(reqs);
    assert Keys(reqs) == LabelingKeys;
  }

  /** Rule 4(1A): 33.33 points per sub-requirement met, so at most 99.99;
      Pass exactly when all three are met, Partial exactly when two are; the
      SSMI indicators add a finding but no points. */
  lemma Rule41aScore(text: string)
    ensures var r := Rule41a(text);
      var reqs := SsmiRequirements(text);
      var ssmi := AnyPresent(SsmiIndicators, LowerStr(text));
      && r.score == 3333 * CountMet(reqs) <= 9999
      && r.subRequirements == Some(reqs)
      && Keys(reqs) == SsmiKeys
      && (r.status == Pass <==> CountMet(reqs) == 3)
      && (r.status == Partial <==> CountMet(reqs) == 2)
      && (r.status == Fail <==> CountMet(reqs) <= 1)
      && (r.recommendation == Adequate <==> forall i :: 0 <= i < 3 ==> reqs[i].met)
      && r.ssmiMentioned == Some(ssmi)
      && (IdentifiesAsSsmi in r.findings <==> ssmi)
      && (NoSsmiRequirements in r.findings <==> CountMet(reqs) == 0)
      && |r.findings| >= 1
  {
    var reqs := SsmiRequirements(text);
    MetOrMissing(reqs);
    assert Keys(reqs) == SsmiKeys;
  }

  // ---------------------------------------------------------------------
  // Aggregate report

  /** Every rule is counted once in the summary: passed, partial and failed
      add up to the number of rules. */
  lemma {:induction false} StatusTally(rules: seq<RuleResult>)
    ensures CountStatus(rules, Pass) + CountStatus(rules, Partial) + CountStatus(rules, Fail) == |rules|
  {
    if rules != [] {
      StatusTally(rules[..|rules| - 1]);
    }
  }

  /** The rounded mean is within half a hundredth of the exact mean, and
      exact when the total divides evenly. */
  lemma RoundMeanNearest(total: int)
    ensures -3 <= 6 * RoundMean(total) - total <= 3
    ensures total % 6 == 0 ==> RoundMean(total) == total / 6
  {
  }

  /** A sum of scores that each lie in [0, 100] lies in [0, 100 n]. */
  lemma {:induction false} SumScoresBounds(rules: seq<RuleResult>)
    requires forall i :: 0 <= i < |rules| ==> 0 <= rules[i].score <= 10000
    ensures 0 <= SumScores(rules) <= 10000 * |rules|
  {
    if rules != [] {
      SumScoresBounds(rules[..|rules| - 1]);
    }
  }

  /** The aggregate over six rule results, each scored in [0, 100]: status
      and colour come from the unrounded total, the overall score is the
      mean rounded to a hundredth, and the summary's tallies add up to six. */
  lemma AggregateShape(rules: seq<RuleResult>)
    requires |rules| == 6
    requires forall i :: 0 <= i < 6 ==> 0 <= rules[i].score <= 10000
    ensures var rep := Aggregate(rules);
      var total := SumScores(rules);
      && rep.rules == rules
      && (rep.overallStatus == Compliant <==> total >= 42000)
      && (rep.overallStatus == PartiallyCompliant <==> 24000 <= total < 42000)
      && (rep.overallStatus == NonCompliant <==> total < 24000)
      && rep.statusColor == StatusColor(rep.overallStatus)
      && -3 <= 6 * rep.overallScore - total <= 3
      && 0 <= rep.overallScore <= 10000
      && rep.summary.overallScore == rep.overallScore
      && rep.summary.passed + rep.summary.partial + rep.summary.failed == 6
  {
    SumScoresBounds(rules);
    RoundMeanNearest(SumScores(rules));
    StatusTally(rules);
  }

  /** A rule result carrying its rule's id, a score in [0, 100] and at
      least one finding. */
  predicate Scored(r: RuleResult, id: RuleId) {
    r.rule == id && 0 <= r.score <= 10000 && |r.findings| >= 1
  }

  lemma Rule21waScored(text: string, similarity: Similarity)
    ensures Scored(Rule21wa(text, similarity), Definition)
  {
    Rule21waScore(text, similarity);
  }

  lemma Rule42Scored(text: string)
    ensures Scored(Rule42(text), AutomatedTools)
  {
    Rule42Score(text);
  }

  lemma Rule44Scored(text: string)
    ensures Scored(Rule44(text), ComplaintHandling)
  {
    Rule44Score(text);
  }

  lemma Rule31bScored(text: string)
    ensures Scored(Rule31b(text), HarmfulContent)
  {
    Rule31bScore(text);
  }

  lemma Rule33Scored(text: string)
    ensures Scored(Rule33(text), Labeling)
  {
    Rule33Score(text);
  }

  lemma Rule41aScored(text: string)
    ensures Scored(Rule41a(text), Ssmi)
  {
    Rule41aScore(text);
  }

  /** The report lists the six rules in their fixed order, each scored in
      [0, 100] with at least one finding, and aggregates them as above. */
  lemma ReportShape(text: string, similarity: Similarity)
    ensures var rep := Compliance(text, similarity);
      && rep == Aggregate(rep.rules)
      && |rep.rules| == 6
      && forall i :: 0 <= i < 6 ==> Scored(rep.rules[i], RuleOrder[i])
  {
    Rule21waScored(text, similarity);
    Rule42Scored(text);
    Rule44Scored(text);
    Rule31bScored(text);
    Rule33Scored(text);
    Rule41aScored(text);
    AllScored(Rule21wa(text, similarity), Rule42(text), Rule44(text), Rule31b(text), Rule33(text), Rule41a(text));
    assert Compliance(text, similarity) == Aggregate(RuleResults(text, similarity));
  }

  lemma AllScored(r0: RuleResult, r1: RuleResult, r2: RuleResult, r3: RuleResult, r4: RuleResult, r5: RuleResult)
    requires Scored(r0, Definition) && Scored(r1, AutomatedTools) && Scored(r2, ComplaintHandling)
    requires Scored(r3, HarmfulContent) && Scored(r4, Labeling) && Scored(r5, Ssmi)
    ensures forall i :: 0 <= i < 6 ==> Scored([r0, r1, r2, r3, r4, r5][i], RuleOrder[i])
  {
  }

  // ---------------------------------------------------------------------
  // The empty document

  lemma {:induction false} NothingPresentInEmpty(kws: seq<string>)
    requires forall i :: 0 <= i < |kws| ==> |kws[i]| > 0
    ensures Present(kws, "") == []
    ensures !AnyPresent(kws, "")
  {
    forall i | 0 <= i < |kws|
      ensures !Contains("", kws[i])
    {
      EmptyContainsNothing(kws[i]);
    }
    if kws != [] {
      NothingPresentInEmpty(kws[..|kws| - 1]);
    }
  }

  lemma {:induction false} NoSpansInEmpty(ps: seq<Pattern>)
    requires forall i :: 0 <= i < |ps| ==> |ps[i].head| > 0
    ensures MatchedSpans(ps, "") == []
    ensures !AnyMatch(ps, "")
  {
    if ps != [] {
      NoSpansInEmpty(ps[..|ps| - 1]);
      NoSpansInEmpty(ps[1..]);
      SearchEmpty(ps[|ps| - 1]);
      SearchEmpty(ps[0]);
    }
  }

  /** A rule result that scores 0 and fails. */
  predicate Failing(r: RuleResult) {
    r.score == 0 && r.status == Fail
  }

  lemma EmptyRule21wa(similarity: Similarity)
    ensures Failing(Rule21wa("", similarity))
  {
    SplitEmpty();
    NothingPresentInEmpty(Required21);
    NothingPresentInEmpty(DefinitionTerms);
    assert [""][..0] == [];
  }

  lemma EmptyRule42()
    ensures Failing(Rule42(""))
  {
    NothingPresentInEmpty(Required42);
    NoSpansInEmpty(Patterns42);
  }

  lemma EmptyRule44()
    ensures Failing(Rule44(""))
  {
    SplitEmpty();
    NothingPresentInEmpty(ComplaintKeywords);
    assert [""][..0] == [];
  }

  lemma EmptyRule31b()
    ensures Failing(Rule31b(""))
  {
    NothingPresentInEmpty(ProhibitedPhrases);
    NoSpansInEmpty(HarmfulPatterns);
    TypesMatchingExactly(HarmfulTypes, HarmfulPatterns, "");
    assert FoundTypes("") == {};
  }

  lemma EmptyRule33()
    ensures Failing(Rule33(""))
  {
    NothingPresentInEmpty(LabelKeywords);
    NothingPresentInEmpty(ImmediateKeywords);
    NothingPresentInEmpty(ProhibitionKeywords);
    NoSpansInEmpty(SurfacePatterns);
    var reqs := LabelingRequirements("");
    assert !LabelsRequired("") && !SurfaceAreaStated("") && !ImmediatelyIdentifiable("") && !ModificationProhibited("");
    assert forall i :: 0 <= i < |reqs| ==> !reqs[i].met;
    MetOrMissing(reqs);
  }

  lemma EmptyRule41a()
    ensures Failing(Rule41a(""))
  {
    NothingPresentInEmpty(DeclarationKeywords);
    NothingPresentInEmpty(VerificationKeywords);
    NothingPresentInEmpty(LabelingKeywords);
    MetOrMissing(SsmiRequirements(""));
  }

  /** Rule results that all score 0 and fail sum to 0 and are all counted
      as failures. */
  lemma {:induction false} FailingTally(rules: seq<RuleResult>)
    requires forall i :: 0 <= i < |rules| ==> Failing(rules[i])
    ensures SumScores(rules) == 0 && CountStatus(rules, Fail) == |rules|
  {
    if rules != [] {
      FailingTally(rules[..|rules| - 1]);
    }
  }

  /** Six rule results that all score 0 and fail aggregate to a
      Non-Compliant report with overall score 0 and six failures. */
  lemma AllFailing(r0: RuleResult, r1: RuleResult, r2: RuleResult, r3: RuleResult, r4: RuleResult, r5: RuleResult)
    requires Failing(r0) && Failing(r1) && Failing(r2) && Failing(r3) && Failing(r4) && Failing(r5)
    ensures var rep := Aggregate([r0, r1, r2, r3, r4, r5]);
      && rep.rules == [r0, r1, r2, r3, r4, r5]
      && (forall r :: r in rep.rules ==> Failing(r))
      && rep.overallStatus == NonCompliant && rep.overallScore == 0 && rep.summary.failed == 6
  {
    FailingTally([r0, r1, r2, r3, r4, r5]);
  }

  /** An empty document scores 0 and fails every rule, and the report is
      Non-Compliant with an overall score of 0 and six failures. */
  lemma EmptyTextFails(similarity: Similarity)
    ensures var rep := Compliance("", similarity);
      && |rep.rules| == 6
      && (forall r :: r in rep.rules ==> Failing(r))
      && rep.overallStatus == NonCompliant
      && rep.overallScore == 0
      && rep.summary.failed == 6
  {
    EmptyRule21wa(similarity);
    EmptyRule42();
    EmptyRule44();
    EmptyRule31b();
    EmptyRule33();
    EmptyRule41a();
    AllFailing(Rule21wa("", similarity), Rule42(""), Rule44(""), Rule31b(""), Rule33(""), Rule41a(""));
    assert Compliance("", similarity) == Aggregate(RuleResults("", similarity));
  }

  // ---------------------------------------------------------------------
  /** Every pattern the rules search for is within the shapes `Regex`
      matches as `re` does. */
  lemma Patterns42WellFormed()
    ensures forall i :: 0 <= i < |Patterns42| ==> WellFormed(Patterns42[i])
  {
  }

  lemma HarmfulPatternsWellFormed()
    ensures forall i :: 0 <= i < |HarmfulPatterns| ==> WellFormed(HarmfulPatterns[i])
  {
  }

  lemma SurfacePatternsWellFormed()
    ensures forall i :: 0 <= i < |SurfacePatterns| ==> WellFormed(SurfacePatterns[i])
  {
  }

  /** At every position of every text, the greedy match of each pattern the
      rules search for is the match `re` finds by backtracking, so `Search`
      returns what `re.search` returns. */
  lemma Patterns42MatchAsRe(lt: string)
    ensures forall k, i: nat :: 0 <= k < |Patterns42| && i <= |lt| ==>
      MatchAt(lt, i, Patterns42[k]) == BacktrackingMatchAt(lt, i, Patterns42[k])
  {
    Patterns42WellFormed();
    forall k, i: nat | 0 <= k < |Patterns42| && i <= |lt|
      ensures MatchAt(lt, i, Patterns42[k]) == BacktrackingMatchAt(lt, i, Patterns42[k])
    {
      WellFormedMatchesAsRe(lt, i, Patterns42[k]);
    }
  }

  lemma HarmfulPatternsMatchAsRe(lt: string)
    ensures forall k, i: nat :: 0 <= k < |HarmfulPatterns| && i <= |lt| ==>
      MatchAt(lt, i, HarmfulPatterns[k]) == BacktrackingMatchAt(lt, i, HarmfulPatterns[k])
  {
    HarmfulPatternsWellFormed();
    forall k, i: nat | 0 <= k < |HarmfulPatterns| && i <= |lt|
      ensures MatchAt(lt, i, HarmfulPatterns[k]) == BacktrackingMatchAt(lt, i, HarmfulPatterns[k])
    {
      WellFormedMatchesAsRe(lt, i, HarmfulPatterns[k]);
    }
  }

  lemma SurfacePatternsMatchAsRe(lt: string)
    ensures forall k, i: nat :: 0 <= k < |SurfacePatterns| && i <= |lt| ==>
      MatchAt(lt, i, SurfacePatterns[k]) == BacktrackingMatchAt(lt, i, SurfacePatterns[k])
  {
    SurfacePatternsWellFormed();
    forall k, i: nat | 0 <= k < |SurfacePatterns| && i <= |lt|
      ensures MatchAt(lt, i, SurfacePatterns[k]) == BacktrackingMatchAt(lt, i, SurfacePatterns[k])
    {
      WellFormedMatchesAsRe(lt, i, SurfacePatterns[k]);
    }
  }
}
