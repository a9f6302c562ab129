/** The rule checkers of `ComplianceAnalyzer` (utils/analyzer.py) as the
    source writes them: loops that append to `findings` and `evidence` and
    update counters and the `requirements` dictionary.  Each checker is
    proved to return exactly what its specification function in
    `ComplianceSpec` describes, so the properties proved about those
    functions hold of the checkers. */
module ComplianceAnalyzer {
  import opened Strings
  import opened Regex
  import opened ComplianceSpec

  // ---------------------------------------------------------------------
  // Growing the specification functions by one element

  lemma ContextsSnoc(text: string, spans: seq<Span>, m: Span)
    ensures Contexts(text, spans + [m]) == Contexts(text, spans) + [Context(text, m.start, m.end)]
  {
    assert (spans + [m])[..|spans|] == spans;
  }

  lemma StripAllSnoc(ss: seq<string>, s: string)
    ensures StripAll(ss + [s]) == StripAll(ss) + [Strip(s)]
  {
    assert (ss + [s])[..|ss|] == ss;
  }

  lemma PrefixSnoc<T>(s: seq<T>, i: nat)
    requires i < |s|
    ensures s[..i + 1][..i] == s[..i] && s[..i + 1][i] == s[i]
  {
  }

  /** One more pattern tried: its first match, if any, joins the spans. */
  lemma SpansStep(ps: seq<Pattern>, i: nat, text: string)
    requires i < |ps|
    ensures MatchedSpans(ps[..i + 1], text)
      == if Search(text, ps[i]).Some? then MatchedSpans(ps[..i], text) + [Search(text, ps[i]).value]
         else MatchedSpans(ps[..i], text)
  {
    PrefixSnoc(ps, i);
  }

  /** One more named pattern tried: its name joins the types if it matches. */
  lemma TypesStep(names: seq<HarmfulType>, ps: seq<Pattern>, i: nat, text: string)
    requires |names| == |ps| && i < |ps|
    ensures TypesMatching(names[..i + 1], ps[..i + 1], text)
      == if Search(text, ps[i]).Some? then TypesMatching(names[..i], ps[..i], text) + {names[i]}
         else TypesMatching(names[..i], ps[..i], text)
  {
    PrefixSnoc(ps, i);
    PrefixSnoc(names, i);
  }

  /** `FirstMentioning` skips a sentence that mentions none of the keywords. */
  lemma FirstMentioningStep(ss: seq<string>, j: nat, kws: seq<string>)
    requires j < |ss|
    ensures FirstMentioning(ss[j..], kws)
      == if AnyPresent(kws, LowerStr(ss[j])) then Some(ss[j]) else FirstMentioning(ss[j + 1..], kws)
  {
    assert ss[j..][0] == ss[j];
    assert ss[j..][1..] == ss[j + 1..];
  }

  /** The loop `for sentence in sentences: if any(...): evidence.append(...); break`
      of Rules 3(3) and 4(1A). */
  method FirstSentenceEvidence(text: string, kws: seq<string>) returns (evidence: seq<string>)
    ensures evidence == FirstEvidence(true, text, kws)
  {
    var sentences := SplitSentences(text);
    evidence := [];
    var j := 0;
    while j < |sentences|
      invariant 0 <= j <= |sentences|
      invariant evidence == []
      invariant FirstMentioning(sentences, kws) == FirstMentioning(sentences[j..], kws)
    {
      FirstMentioningStep(sentences, j, kws);
      if AnyPresent(kws, LowerStr(sentences[j])) {
        evidence := evidence + [Strip(sentences[j])];
        return;
      }
      j := j + 1;
    }
  }

  /** `[kw for kw in kws if kw in lower]`, written as the loop the source uses. */
  method KeywordsIn(kws: seq<string>, lower: string) returns (found: seq<string>)
    ensures found == Present(kws, lower)
  {
    found := [];
    var i := 0;
    while i < |kws|
      invariant 0 <= i <= |kws|
      invariant found == Present(kws[..i], lower)
    {
      PrefixSnoc(kws, i);
      if Contains(lower, kws[i]) {
        found := found + [kws[i]];
      }
      i := i + 1;
    }
    assert kws[..i] == kws;
  }

  /** One match per pattern, in pattern order: the `for match in finditer(...):
      ...; break` loops of Rules 4(2) and 3(1)(b). */
  method FirstMatches(ps: seq<Pattern>, text: string) returns (count: nat, evidence: seq<string>)
    ensures count == |MatchedSpans(ps, text)|
    ensures evidence == Contexts(text, MatchedSpans(ps, text))
  {
    count := 0;
    evidence := [];
    var i := 0;
    while i < |ps|
      invariant 0 <= i <= |ps|
      invariant count == |MatchedSpans(ps[..i], text)|
      invariant evidence == Contexts(text, MatchedSpans(ps[..i], text))
    {
      SpansStep(ps, i, text);
      var found := Search(text, ps[i]);
      if found.Some? {
        var m := found.value;
        ContextsSnoc(text, MatchedSpans(ps[..i], text), m);
        count := count + 1;
        evidence := evidence + [Context(text, m.start, m.end)];
      }
      i := i + 1;
    }
    assert ps[..i] == ps;
  }

  /** The best-match loop of `check_rule_2_1_wa`. */
  method BestSentence(sentences: seq<string>, similarity: Similarity) returns (bestScore: real, bestText: string)
    ensures BestMatch(bestScore, bestText) == Best(sentences, similarity)
  {
    bestScore, bestText := 0.0, "";
    var j := 0;
    while j < |sentences|
      invariant 0 <= j <= |sentences|
      invariant BestMatch(bestScore, bestText) == Best(sentences[..j], similarity)
    {
      PrefixSnoc(sentences, j);
      var sentenceLower := LowerStr(sentences[j]);
      var termCount := CountPresent(DefinitionTerms, sentenceLower);
      var keywordCount := CountPresent(Required21, sentenceLower);
      if termCount >= 3 || keywordCount >= 2 {
        var sim := similarity(sentenceLower, LowerStr(OfficialDefinition));
        if sim > bestScore {
          bestScore := sim;
          bestText := Strip(sentences[j]);
        }
      }
      j := j + 1;
    }
    assert sentences[..j] == sentences;
  }

  /** The sentences that mention one of `kws`: the loop that builds
      `complaint_sections` in Rule 4(4). */
  method MentioningSentences(sentences: seq<string>, kws: seq<string>) returns (sections: seq<string>)
    ensures sections == Mentioning(sentences, kws)
  {
    sections := [];
    var j := 0;
    while j < |sentences|
      invariant 0 <= j <= |sentences|
      invariant sections == Mentioning(sentences[..j], kws)
    {
      PrefixSnoc(sentences, j);
      if AnyPresent(kws, LowerStr(sentences[j])) {
        sections := sections + [sentences[j]];
      }
      j := j + 1;
    }
    assert sentences[..j] == sentences;
  }

  /** The loop of Rule 4(4) that counts the complaint sections mentioning
      AI and collects them, stripped, as evidence. */
  method StrippedMentioning(sections: seq<string>, kws: seq<string>) returns (count: nat, evidence: seq<string>)
    ensures count == |Mentioning(sections, kws)|
    ensures evidence == StripAll(Mentioning(sections, kws))
  {
    count := 0;
    evidence := [];
    var k := 0;
    while k < |sections|
      invariant 0 <= k <= |sections|
      invariant count == |Mentioning(sections[..k], kws)|
      invariant evidence == StripAll(Mentioning(sections[..k], kws))
    {
      PrefixSnoc(sections, k);
      if AnyPresent(kws, LowerStr(sections[k])) {
        StripAllSnoc(Mentioning(sections[..k], kws), sections[k]);
        count := count + 1;
        evidence := evidence + [Strip(sections[k])];
      }
      k := k + 1;
    }
    assert sections[..k] == sections;
  }

  /** The loop of Rule 3(1)(b) over the harmful content types: the types
      whose pattern matches, and the context of each first match. */
  method HarmfulTypesFound(text: string) returns (typesFound: set<HarmfulType>, evidence: seq<string>)
    ensures typesFound == FoundTypes(text)
    ensures evidence == Contexts(text, MatchedSpans(HarmfulPatterns, text))
  {
    typesFound := {};
    evidence := [];
    var i := 0;
    while i < |HarmfulPatterns|
      invariant 0 <= i <= |HarmfulPatterns|
      invariant typesFound == TypesMatching(HarmfulTypes[..i], HarmfulPatterns[..i], text)
      invariant evidence == Contexts(text, MatchedSpans(HarmfulPatterns[..i], text))
    {
      SpansStep(HarmfulPatterns, i, text);
      TypesStep(HarmfulTypes, HarmfulPatterns, i, text);
      var found := Search(text, HarmfulPatterns[i]);
      if found.Some? {
        var m := found.value;
        ContextsSnoc(text, MatchedSpans(HarmfulPatterns[..i], text), m);
        typesFound := typesFound + {HarmfulTypes[i]};
        evidence := evidence + [Context(text, m.start, m.end)];
      }
      i := i + 1;
    }
    assert HarmfulPatterns[..i] == HarmfulPatterns;
    assert HarmfulTypes[..i] == HarmfulTypes;
  }

  /** The loop of Rule 3(3) that stops at the first surface-area pattern
      found in the text. */
  method AnySurfacePattern(text: string) returns (found: bool)
    ensures found == AnyMatch(SurfacePatterns, text)
  {
    found := false;
    var i := 0;
    while i < |SurfacePatterns|
      invariant 0 <= i <= |SurfacePatterns|
      invariant AnyMatch(SurfacePatterns, text) == AnyMatch(SurfacePatterns[i..], text)
    {
      assert SurfacePatterns[i..][0] == SurfacePatterns[i];
      assert SurfacePatterns[i..][1..] == SurfacePatterns[i + 1..];
      if Search(text, SurfacePatterns[i]).Some? {
        found := true;
        break;
      }
      i := i + 1;
    }
  }

  // ---------------------------------------------------------------------
  // The recurring steps of a checker

  /** `if met: findings.append(f)` */
  method Note(findings: seq<Finding>, met: bool, f: Finding) returns (r: seq<Finding>)
    ensures r == findings + Flag(met, f)
  {
    r := findings;
    if met {
      r := r + [f];
    }
  }

  /** `if met: score += points; findings.append(f)` */
  method Award(score: int, findings: seq<Finding>, met: bool, points: int, f: Finding)
    returns (newScore: int, r: seq<Finding>)
    ensures newScore == score + (if met then points else 0)
    ensures r == findings + Flag(met, f)
  {
    newScore, r := score, findings;
    if met {
      newScore := newScore + points;
      r := r + [f];
    }
  }

  // ---------------------------------------------------------------------
  // The six checkers

  /** `check_rule_2_1_wa` */
  method CheckRule21wa(text: string, similarity: Similarity) returns (r: RuleResult)
    ensures r == Rule21wa(text, similarity)
  {
    var textLower := LowerStr(text);
    var keywordsFound := KeywordsIn(Required21, textLower);
    var findings := Note([], |keywordsFound| > 0, KeywordsFound(|keywordsFound|, keywordsFound));
    assert findings == Flag(|keywordsFound| > 0, KeywordsFound(|keywordsFound|, keywordsFound));

    var bestScore, bestText := BestSentence(SplitSentences(text), similarity);

    var evidence: seq<string> := [];
    var definitionScore: int;
    var definition: Finding;
    if bestScore > 0.6 {
      definitionScore, definition := 8000, HighlySimilarDefinition(bestScore);
      evidence := [bestText];
    } else if bestScore > 0.4 {
      definitionScore, definition := 6000, PartiallyMatchingDefinition(bestScore);
      evidence := [bestText];
    } else if bestScore > 0.2 {
      definitionScore, definition := 3000, WeakDefinitionMatch(bestScore);
      evidence := [bestText];
    } else {
      definitionScore, definition := 0, NoClearDefinition;
    }
    findings := findings + [definition];
    var score := 500 * |keywordsFound| + definitionScore;
    r := RuleResult(
      Definition,
      Min(10000, score),
      StatusOf(score, 7000, 4000),
      findings,
      evidence,
      if score >= 7000 then Adequate else Advise,
      None, None);
  }

  /** `check_rule_4_2` */
  method CheckRule42(text: string) returns (r: RuleResult)
    ensures r == Rule42(text)
  {
    var textLower := LowerStr(text);
    var patternsFound, evidence := FirstMatches(Patterns42, text);
    var keywordsFound := CountPresent(Required42, textLower);
    var score := Min(6000, 2000 * patternsFound) + Min(4000, 1000 * keywordsFound);
    var findings := Note([PatternMatches(patternsFound), RelevantKeywords(keywordsFound)],
      patternsFound == 0, NoAutomatedTools);
    r := RuleResult(
      AutomatedTools,
      Min(10000, score),
      StatusOf(score, 6000, 3000),
      findings,
      Take(evidence, 3),
      if score >= 6000 then Adequate else Advise,
      None, None);
  }

  /** `check_rule_4_4` */
  method CheckRule44(text: string) returns (r: RuleResult)
    ensures r == Rule44(text)
  {
    var textLower := LowerStr(text);
    var complaintFound := CountPresent(ComplaintKeywords, textLower);

    var complaintSections := MentioningSentences(SplitSentences(text), ComplaintKeywords);
    var aiInComplaint, evidence := StrippedMentioning(complaintSections, AiKeywords);

    var score, findings := Award(0, [], complaintFound > 0, 4000, ComplaintMechanismMentioned(complaintFound));
    assert findings == Flag(complaintFound > 0, ComplaintMechanismMentioned(complaintFound));
    if aiInComplaint > 0 {
      score := score + 6000;
      findings := findings + [AiInComplaintHandling(aiInComplaint)];
    } else {
      findings := findings + [ComplaintLacksAiMention];
    }
    r := RuleResult(
      ComplaintHandling,
      Min(10000, score),
      StatusOf(score, 7000, 4000),
      findings,
      Take(evidence, 2),
      if score >= 7000 then Adequate else Advise,
      None, None);
  }

  /** `check_rule_3_1_b`; `types_found` is kept as the set of its keys, the
      only part of it the checker reads. */
  method CheckRule31b(text: string) returns (r: RuleResult)
    ensures r == Rule31b(text)
  {
    var textLower := LowerStr(text);
    var prohibitedFound := AnyPresent(ProhibitedPhrases, textLower);

    var typesFound, evidence := HarmfulTypesFound(text);

    var score, findings := Award(0, [], prohibitedFound, 3000, MentionsProhibitedContent);
    assert findings == Flag(prohibitedFound, MentionsProhibitedContent);
    score, findings := Award(score, findings, Deepfake in typesFound, 3500, DeepfakesProhibited);
    score, findings := Award(score, findings, Misleading in typesFound || Manipulated in typesFound,
      2000, MisleadingOrManipulated);
    score, findings := Award(score, findings, Section79 in typesFound, 1500, Section79Mentioned);
    findings := Note(findings, typesFound == {}, NoHarmfulTypes);
    r := RuleResult(
      HarmfulContent,
      Min(10000, score),
      StatusOf(score, 7000, 4000),
      findings,
      Take(evidence, 3),
      if score >= 7000 then Adequate else Advise,
      None, None);
  }

  /** `check_rule_3_3`; the `requirements` dictionary is a sequence of
      entries in its key order, updated by key position. */
  method CheckRule33(text: string) returns (r: RuleResult)
    ensures r == Rule33(text)
  {
    var textLower := LowerStr(text);
    var requirements := LabelingChecklist(false, false, false, false);
    var evidence: seq<string> := [];

    var labelMentions := CountPresent(LabelKeywords, textLower);
    var findings := Note([], labelMentions >= 2, LabelingRequired);
    assert findings == Flag(LabelsRequired(text), LabelingRequired);
    if labelMentions >= 2 {
      requirements := requirements.(labelRequired := true);
      evidence := FirstSentenceEvidence(text, LabelKeywords);
    }

    var surfaceMentioned := AnySurfacePattern(text);
    findings := Note(findings, surfaceMentioned, SurfaceAreaMentioned);
    if surfaceMentioned {
      requirements := requirements.(surfaceArea := true);
    }

    var immediate := AnyPresent(ImmediateKeywords, textLower);
    findings := Note(findings, immediate, ImmediateIdentification);
    if immediate {
      requirements := requirements.(immediateIdentification := true);
    }

    var prohibitionCount := CountPresent(ProhibitionKeywords, textLower);
    var modificationProhibited := prohibitionCount >= 2
      && (Contains(textLower, "removal") || Contains(textLower, "modification"));
    findings := Note(findings, modificationProhibited, ProhibitsLabelModification);
    if modificationProhibited {
      requirements := requirements.(prohibitionModification := true);
    }

    var entries := requirements.Entries();
    var score := 2500 * CountMet(entries);
    findings := Note(findings, CountMet(entries) == 0, NoLabelingRequirements);
    r := RuleResult(
      Labeling,
      score,
      StatusOf(score, 7500, 5000),
      findings,
      Take(evidence, 2),
      RecommendMissing(entries),
      Some(entries), None);
  }

  /** `check_rule_4_1a` */
  method CheckRule41a(text: string) returns (r: RuleResult)
    ensures r == Rule41a(text)
  {
    var textLower := LowerStr(text);
    var requirements := SsmiChecklist(false, false, false);
    var evidence: seq<string> := [];

    var declarationCount := CountPresent(DeclarationKeywords, textLower);
    var findings := Note([], declarationCount >= 2, UserDeclaration);
    assert findings == Flag(DeclarationRequired(text), UserDeclaration);
    if declarationCount >= 2 {
      requirements := requirements.(userDeclaration := true);
      evidence := FirstSentenceEvidence(text, DeclarationEvidenceKeywords);
    }

    var verificationCount := CountPresent(VerificationKeywords, textLower);
    findings := Note(findings, verificationCount >= 2, TechnicalVerification);
    if verificationCount >= 2 {
      requirements := requirements.(technicalVerification := true);
    }

    var labelingCount := CountPresent(LabelingKeywords, textLower);
    var labeled := labelingCount >= 2 && Contains(textLower, "synthetic");
    findings := Note(findings, labeled, SyntheticLabeling);
    if labeled {
      requirements := requirements.(syntheticLabeling := true);
    }

    var entries := requirements.Entries();
    var score := 3333 * CountMet(entries);
    var isSsmiMentioned := AnyPresent(SsmiIndicators, textLower);
    findings := Note(findings, isSsmiMentioned, IdentifiesAsSsmi);
    findings := Note(findings, CountMet(entries) == 0, NoSsmiRequirements);
    r := RuleResult(
      Ssmi,
      score,
      StatusOf(score, 7000, 5000),
      findings,
      Take(evidence, 2),
      RecommendMissing(entries),
      Some(entries), Some(isSsmiMentioned));
  }

  /** `analyze_compliance`: the six checkers, in the order of the result
      dictionary, then the mean and its status. */
  method AnalyzeCompliance(text: string, similarity: Similarity) returns (report: ComplianceReport)
    ensures report == Compliance(text, similarity)
  {
    var r21wa := CheckRule21wa(text, similarity);
    var r42 := CheckRule42(text);
    var r44 := CheckRule44(text);
    var r31b := CheckRule31b(text);
    var r33 := CheckRule33(text);
    var r41a := CheckRule41a(text);
    var results := [r21wa, r42, r44, r31b, r33, r41a];
    assert results == RuleResults(text, similarity);

    var totalScore := SumScores(results);
    var overallStatus: OverallStatus;
    var statusColor: string;
    if totalScore >= 6 * 7000 {
      overallStatus, statusColor := Compliant, "success";
    } else if totalScore >= 6 * 4000 {
      overallStatus, statusColor := PartiallyCompliant, "warning";
    } else {
      overallStatus, statusColor := NonCompliant, "danger";
    }
    report := ComplianceReport(RoundMean(totalScore), overallStatus, statusColor, results,
      GenerateSummary(results, totalScore));
  }
}
