/** The text-rule engine of `ComplianceAnalyzer` (utils/analyzer.py), stated
    as functions: what each of the six rule checkers returns for a document,
    and the aggregate report over all six.

    Scores are kept in hundredths of a point (10000 stands for 100.00), so
    that the 33.33 points of Rule 4(1A) are exact. */
module ComplianceSpec {
  import opened Strings
  import opened Regex

  // ---------------------------------------------------------------------
  // Results

  datatype Status = Pass | Partial | Fail

  /** The findings a rule checker reports, one constructor per message; the
      numbers a message prints are its arguments. */
  datatype Finding =
      // Rule 2(1)(wa)
    | KeywordsFound(count: nat, keywords: seq<string>)
    | HighlySimilarDefinition(similarity: real)
    | PartiallyMatchingDefinition(similarity: real)
    | WeakDefinitionMatch(similarity: real)
    | NoClearDefinition
      // Rule 4(2)
    | PatternMatches(count: nat)
    | RelevantKeywords(count: nat)
    | NoAutomatedTools
      // Rule 4(4)
    | ComplaintMechanismMentioned(count: nat)
    | AiInComplaintHandling(count: nat)
    | ComplaintLacksAiMention
      // Rule 3(1)(b)
    | MentionsProhibitedContent
    | DeepfakesProhibited
    | MisleadingOrManipulated
    | Section79Mentioned
    | NoHarmfulTypes
      // Rule 3(3)
    | LabelingRequired
    | SurfaceAreaMentioned
    | ImmediateIdentification
    | ProhibitsLabelModification
    | NoLabelingRequirements
      // Rule 4(1A)
    | UserDeclaration
    | TechnicalVerification
    | SyntheticLabeling
    | IdentifiesAsSsmi
    | NoSsmiRequirements

  /** `Adequate` is a rule's "requirements are met" text, `Advise` its fixed
      advice, `AddMissing` the advice that lists the titles of the missing
      sub-requirements. */
  datatype Recommendation = Adequate | Advise | AddMissing(missing: seq<string>)

  /** One entry of a rule's `sub_requirements` dictionary, in key order. */
  datatype SubRequirement = SubRequirement(key: string, met: bool)

  /** The six rules checked, in the order of the result dictionary. */
  datatype RuleId = Definition | AutomatedTools | ComplaintHandling | HarmfulContent | Labeling | Ssmi

  /** The key of a rule in the result dictionary. */
  function RuleKey(id: RuleId): string {
    match id
    case Definition => "rule_2_1_wa"
    case AutomatedTools => "rule_4_2"
    case ComplaintHandling => "rule_4_4"
    case HarmfulContent => "rule_3_1_b"
    case Labeling => "rule_3_3"
    case Ssmi => "rule_4_1a"
  }

  /** The `rule` field of a result. */
  function RuleName(id: RuleId): string {
    match id
    case Definition => "Rule 2(1)(wa)"
    case AutomatedTools => "Rule 4(2)"
    case ComplaintHandling => "Rule 4(4)"
    case HarmfulContent => "Rule 3(1)(b) Proviso"
    case Labeling => "Rule 3(3)"
    case Ssmi => "Rule 4(1A)"
  }

  /** The `description` field of a result. */
  function RuleDescription(id: RuleId): string {
    match id
    case Definition => "Definition of Synthetically Generated Information"
    case AutomatedTools => "Deployment of Automated Tools for Detection"
    case ComplaintHandling => "Complaint Handling for AI-Generated Content"
    case HarmfulContent => "Prohibition of Harmful AI-Generated Content"
    case Labeling => "Due Diligence - Synthetic Content Labeling Requirements"
    case Ssmi => "SSMI Requirements (50 Lakh+ Users)"
  }

  /** One rule's result; its `rule` and `description` texts are those of
      `rule`. */
  datatype RuleResult = RuleResult(
    rule: RuleId,
    score: int,
    status: Status,
    findings: seq<Finding>,
    evidence: seq<string>,
    recommendation: Recommendation,
    subRequirements: Option<seq<SubRequirement>>,
    ssmiMentioned: Option<bool>)

  /** A key of the harmful content patterns; `HarmfulTypeName` is its text. */
  datatype HarmfulType = Deepfake | Misleading | Manipulated | Section79

  function HarmfulTypeName(t: HarmfulType): string {
    match t
    case Deepfake => "deepfake"
    case Misleading => "misleading"
    case Manipulated => "manipulated"
    case Section79 => "section_79"
  }

  datatype OverallStatus = Compliant | PartiallyCompliant | NonCompliant

  /** `_generate_summary`: the score it prints and the three tallies. */
  datatype Summary = Summary(overallScore: int, passed: nat, partial: nat, failed: nat)

  datatype ComplianceReport = ComplianceReport(
    overallScore: int,
    overallStatus: OverallStatus,
    statusColor: string,
    rules: seq<RuleResult>,
    summary: Summary)

  /** The status strings of the JSON report. */
  function StatusText(s: Status): string {
    match s
    case Pass => "Pass"
    case Partial => "Partial"
    case Fail => "Fail"
  }

  function OverallStatusText(s: OverallStatus): string {
    match s
    case Compliant => "Compliant"
    case PartiallyCompliant => "Partially Compliant"
    case NonCompliant => "Non-Compliant"
  }

  /** A similarity ratio, as `SequenceMatcher.ratio()` returns it. */
  type Ratio = r: real | 0.0 <= r <= 1.0

  /** `calculate_similarity`: `SequenceMatcher(None, a, b).ratio()`, whose
      algorithm is not modelled; only its range is known. */
  type Similarity = (string, string) -> Ratio

  // ---------------------------------------------------------------------
  // Configuration set once in `__init__`

  const OfficialDefinition: string :=
    "Information that is artificially or algorithmically created, generated, "
    + "modified or altered using a computer resource, in a manner that appears "
    + "reasonably authentic or true"

  const Required21: seq<string> := ["synthetic", "generated", "artificial", "algorithmic"]
  const DefinitionTerms: seq<string> := ["information", "created", "computer", "authentic", "true"]

  const Required42: seq<string> := ["automated", "tool", "detect", "AI", "synthetic", "harmful"]
  const Patterns42: seq<Pattern> := [
    Pattern("automated", Spaces(1), ["tool"]),
    Pattern("detection", Spaces(1), ["tool", "system", "mechanism"]),
    Pattern("AI", Spaces(1), ["content", "detection"]),
    Pattern("synthetic", Spaces(1), ["content", "detection"])
  ]

  const ComplaintKeywords: seq<string> := ["complaint", "grievance", "report", "appeal"]
  const AiKeywords: seq<string> := ["ai", "synthetic", "generated", "deepfake", "artificial"]

  const ProhibitedPhrases: seq<string> := ["prohibited", "not permitted", "not allowed"]
  /** The keys of `harmful_patterns`, in order. */
  const HarmfulTypes: seq<HarmfulType> := [Deepfake, Misleading, Manipulated, Section79]
  const HarmfulPatterns: seq<Pattern> := [
    Pattern("deepfake", Adjacent, [""]),
    Pattern("misleading", LazyAny, ["information", "content"]),
    Pattern("manipulated", LazyAny, ["media", "content", "information"]),
    Pattern("section", Spaces(1), ["79"])
  ]

  const LabelKeywords: seq<string> := ["label", "metadata", "identifier", "mark"]
  const SurfacePatterns: seq<Pattern> := [
    Pattern("10", Spaces(0), ["%"]),
    Pattern("ten", Spaces(1), ["percent"]),
    Pattern("surface", Spaces(1), ["area"]),
    Pattern("duration", Adjacent, [""])
  ]
  const ImmediateKeywords: seq<string> := ["immediate", "readily", "easily", "identifiable"]
  const ProhibitionKeywords: seq<string> := ["prohibit", "prevent", "not allow", "removal", "modification"]
  const LabelingKeys: seq<string> :=
    ["label_required", "surface_area", "immediate_identification", "prohibition_modification"]

  const DeclarationKeywords: seq<string> := ["declaration", "user", "authentic", "synthetic"]
  const DeclarationEvidenceKeywords: seq<string> := ["declaration", "declare"]
  const VerificationKeywords: seq<string> := ["verification", "technical", "measure"]
  const LabelingKeywords: seq<string> := ["label", "ensure", "synthetic"]
  const SsmiIndicators: seq<string> := ["50 lakh", "significant social media", "ssmi", "5 million"]
  const SsmiKeys: seq<string> := ["user_declaration", "technical_verification", "synthetic_labeling"]

  const RuleOrder: seq<RuleId> := [Definition, AutomatedTools, ComplaintHandling, HarmfulContent, Labeling, Ssmi]

  // ---------------------------------------------------------------------
  // Keyword and sentence helpers

  function Min(a: int, b: int): int {
    if a <= b then a else b
  }

  /** The keywords of `kws`, in order, that occur in `t`:
      `[kw for kw in kws if kw in t]`. */
  function Present(kws: seq<string>, t: string): (r: seq<string>)
    ensures |r| <= |kws|
  {
    if kws == [] then []
    else if Contains(t, kws[|kws| - 1]) then Present(kws[..|kws| - 1], t) + [kws[|kws| - 1]]
    else Present(kws[..|kws| - 1], t)
  }

  /** `sum(1 for kw in kws if kw in t)` */
  function CountPresent(kws: seq<string>, t: string): nat {
    |Present(kws, t)|
  }

  /** The sentences that mention one of `kws`, ignoring case, in order. */
  function Mentioning(ss: seq<string>, kws: seq<string>): seq<string> {
    if ss == [] then []
    else if AnyPresent(kws, LowerStr(ss[|ss| - 1])) then Mentioning(ss[..|ss| - 1], kws) + [ss[|ss| - 1]]
    else Mentioning(ss[..|ss| - 1], kws)
  }

  /** The first sentence that mentions one of `kws`, ignoring case. */
  function FirstMentioning(ss: seq<string>, kws: seq<string>): Option<string> {
    if ss == [] then None
    else if AnyPresent(kws, LowerStr(ss[0])) then Some(ss[0])
    else FirstMentioning(ss[1..], kws)
  }

  function StripAll(ss: seq<string>): (r: seq<string>)
    ensures |r| == |ss|
  {
    seq(|ss|, i requires 0 <= i < |ss| => Strip(ss[i]))
  }

  /** The first match of each pattern of `ps` that matches, in pattern order;
      patterns without a match contribute nothing. */
  function MatchedSpans(ps: seq<Pattern>, text: string): (r: seq<Span>)
    ensures |r| <= |ps|
  {
    if ps == [] then []
    else
      var found := Search(text, ps[|ps| - 1]);
      if found.Some? then MatchedSpans(ps[..|ps| - 1], text) + [found.value]
      else MatchedSpans(ps[..|ps| - 1], text)
  }

  /** Some pattern of `ps` matches `text`, trying the patterns in order. */
  predicate AnyMatch(ps: seq<Pattern>, text: string) {
    if ps == [] then false
    else Search(text, ps[0]).Some? || AnyMatch(ps[1..], text)
  }

  /** `_get_context(text, start, end)`: the match with up to 150 characters
      on each side, stripped and wrapped in "...". */
  function Context(text: string, start: nat, end: nat): string {
    "..." + Window(text, start, end) + "..."
  }

  /** The stripped window of `_get_context`: `text[start - 150:end + 150]`,
      both bounds clamped to the text. */
  function Window(text: string, start: nat, end: nat): string {
    var lo := if start >= 150 then start - 150 else 0;
    var hi := if end + 150 <= |text| then end + 150 else |text|;
    Strip(if lo <= hi then text[lo..hi] else "")
  }

  lemma ContainsWindow(text: string, lo: nat, hi: nat, w: string)
    requires hi <= |text|
    requires Contains(if lo <= hi then text[lo..hi] else "", w)
    ensures Contains(text, w)
  {
    if lo <= hi {
      ContainsSlice(text, lo, hi);
      ContainsTransitive(text, text[lo..hi], w);
    } else {
      assert OccursAt(text, w, 0);
    }
  }

  /** The evidence entries for a list of matches. */
  function Contexts(text: string, spans: seq<Span>): (r: seq<string>)
    ensures |r| == |spans|
  {
    seq(|spans|, i requires 0 <= i < |spans| => Context(text, spans[i].start, spans[i].end))
  }

  /** The finding `f` when `b` holds: one `if b: findings.append(f)`. */
  function Flag(b: bool, f: Finding): seq<Finding> {
    if b then [f] else []
  }

  function StatusOf(score: int, pass: int, partial: int): Status {
    if score >= pass then Pass else if score >= partial then Partial else Fail
  }

  /** How many sub-requirements are met: `sum(1 for v in reqs.values() if v)`. */
  function CountMet(reqs: seq<SubRequirement>): (n: nat)
    ensures n <= |reqs|
  {
    if reqs == [] then 0
    else CountMet(reqs[..|reqs| - 1]) + (if reqs[|reqs| - 1].met then 1 else 0)
  }

  function Keys(reqs: seq<SubRequirement>): (r: seq<string>)
    ensures |r| == |reqs|
  {
    seq(|reqs|, i requires 0 <= i < |reqs| => reqs[i].key)
  }

  /** `str.upper()` on one character (ASCII letters only). */
  function Upper(c: char): char {
    if 'a' <= c <= 'z' then (c as int - 32) as char else c
  }

  predicate IsLetter(c: char) {
    'a' <= c <= 'z' || 'A' <= c <= 'Z'
  }

  /** `str.title()`: a letter is upper-cased when it follows no letter and
      lower-cased otherwise. */
  function TitleFrom(s: string, afterLetter: bool): (r: string)
    ensures |r| == |s|
  {
    if s == [] then []
    else
      var c := if !IsLetter(s[0]) then s[0] else if afterLetter then Lower(s[0]) else Upper(s[0]);
      [c] + TitleFrom(s[1..], IsLetter(s[0]))
  }

  /** `key.replace('_', ' ').title()` */
  function KeyTitle(key: string): string {
    TitleFrom(seq(|key|, i requires 0 <= i < |key| => if key[i] == '_' then ' ' else key[i]), false)
  }

  /** The titles of the sub-requirements that are not met, in key order. */
  function Missing(reqs: seq<SubRequirement>): (r: seq<string>)
    ensures |r| <= |reqs|
  {
    if reqs == [] then []
    else if reqs[|reqs| - 1].met then Missing(reqs[..|reqs| - 1])
    else Missing(reqs[..|reqs| - 1]) + [KeyTitle(reqs[|reqs| - 1].key)]
  }

  /** `_get_recommendation_3_3` and `_get_recommendation_4_1a`. */
  function RecommendMissing(reqs: seq<SubRequirement>): Recommendation {
    var missing := Missing(reqs);
    if missing == [] then Adequate else AddMissing(missing)
  }

  // ---------------------------------------------------------------------
  // Rule 2(1)(wa): definition of synthetically generated information

  datatype BestMatch = BestMatch(similarity: real, text: string)

  /** A sentence is compared with the official definition when it holds at
      least three definition terms or at least two required keywords. */
  predicate Qualifies(sentence: string) {
    var lower := LowerStr(sentence);
    CountPresent(DefinitionTerms, lower) >= 3 || CountPresent(Required21, lower) >= 2
  }

  /** How similar a sentence is to the official definition, both lowercased. */
  function DefinitionSimilarity(similarity: Similarity, sentence: string): Ratio {
    similarity(LowerStr(sentence), LowerStr(OfficialDefinition))
  }

  /** The best qualifying sentence, scanning in order and replacing the
      current best only on a strictly greater similarity. */
  function Best(ss: seq<string>, similarity: Similarity): BestMatch {
    if ss == [] then BestMatch(0.0, "")
    else
      var prev := Best(ss[..|ss| - 1], similarity);
      var s := ss[|ss| - 1];
      var sim := DefinitionSimilarity(similarity, s);
      if Qualifies(s) && sim > prev.similarity then BestMatch(sim, Strip(s)) else prev
  }

  /** Points for the definition: 80, 60, 30 or 0 by strict thresholds. */
  function DefinitionBand(similarity: real): int {
    if similarity > 0.6 then 8000
    else if similarity > 0.4 then 6000
    else if similarity > 0.2 then 3000
    else 0
  }

  function DefinitionFinding(similarity: real): Finding {
    if similarity > 0.6 then HighlySimilarDefinition(similarity)
    else if similarity > 0.4 then PartiallyMatchingDefinition(similarity)
    else if similarity > 0.2 then WeakDefinitionMatch(similarity)
    else NoClearDefinition
  }

  function Rule21wa(text: string, similarity: Similarity): RuleResult {
    var found := Present(Required21, LowerStr(text));
    var best := Best(SplitSentences(text), similarity);
    var band := DefinitionBand(best.similarity);
    var score := 500 * |found| + band;
    RuleResult(
      Definition,
      Min(10000, score),
      StatusOf(score, 7000, 4000),
      Flag(|found| > 0, KeywordsFound(|found|, found)) + [DefinitionFinding(best.similarity)],
      if band > 0 then [best.text] else [],
      if score >= 7000 then Adequate else Advise,
      None, None)
  }

  // ---------------------------------------------------------------------
  // Rule 4(2): automated tools for detection

  function Rule42(text: string): RuleResult {
    var spans := MatchedSpans(Patterns42, text);
    var patterns := |spans|;
    var keywords := CountPresent(Required42, LowerStr(text));
    var score := Min(6000, 2000 * patterns) + Min(4000, 1000 * keywords);
    RuleResult(
      AutomatedTools,
      Min(10000, score),
      StatusOf(score, 6000, 3000),
      [PatternMatches(patterns), RelevantKeywords(keywords)]
        + Flag(patterns == 0, NoAutomatedTools),
      Take(Contexts(text, spans), 3),
      if score >= 6000 then Adequate else Advise,
      None, None)
  }

  // ---------------------------------------------------------------------
  // Rule 4(4): complaint handling for AI-generated content

  /** The sentences that mention a complaint keyword. */
  function ComplaintSections(text: string): seq<string> {
    Mentioning(SplitSentences(text), ComplaintKeywords)
  }

  /** The complaint sentences that also mention an AI keyword. */
  function AiComplaintSections(text: string): seq<string> {
    Mentioning(ComplaintSections(text), AiKeywords)
  }

  function Rule44(text: string): RuleResult {
    var complaints := CountPresent(ComplaintKeywords, LowerStr(text));
    var aiSections := AiComplaintSections(text);
    var score := (if complaints > 0 then 4000 else 0) + (if |aiSections| > 0 then 6000 else 0);
    RuleResult(
      ComplaintHandling,
      Min(10000, score),
      StatusOf(score, 7000, 4000),
      Flag(complaints > 0, ComplaintMechanismMentioned(complaints))
        + (if |aiSections| > 0 then [AiInComplaintHandling(|aiSections|)] else [ComplaintLacksAiMention]),
      Take(StripAll(aiSections), 2),
      if score >= 7000 then Adequate else Advise,
      None, None)
  }

  // ---------------------------------------------------------------------
  // Rule 3(1)(b) proviso: prohibition of harmful AI-generated content

  /** The keys of `types_found`: the harmful types whose pattern matches. */
  function FoundTypes(text: string): set<HarmfulType> {
    TypesMatching(HarmfulTypes, HarmfulPatterns, text)
  }

  /** The names, out of `names`, whose pattern in `ps` matches `text`. */
  function TypesMatching(names: seq<HarmfulType>, ps: seq<Pattern>, text: string): set<HarmfulType>
    requires |names| == |ps|
  {
    if names == [] then {}
    else if Search(text, ps[|ps| - 1]).Some? then
      TypesMatching(names[..|names| - 1], ps[..|ps| - 1], text) + {names[|names| - 1]}
    else TypesMatching(names[..|names| - 1], ps[..|ps| - 1], text)
  }

  function Rule31b(text: string): RuleResult {
    var prohibited := AnyPresent(ProhibitedPhrases, LowerStr(text));
    var types := FoundTypes(text);
    var score :=
      (if prohibited then 3000 else 0)
      + (if Deepfake in types then 3500 else 0)
      + (if Misleading in types || Manipulated in types then 2000 else 0)
      + (if Section79 in types then 1500 else 0);
    RuleResult(
      HarmfulContent,
      Min(10000, score),
      StatusOf(score, 7000, 4000),
      Flag(prohibited, MentionsProhibitedContent)
        + Flag(Deepfake in types, DeepfakesProhibited)
        + Flag(Misleading in types || Manipulated in types, MisleadingOrManipulated)
        + Flag(Section79 in types, Section79Mentioned)
        + Flag(types == {}, NoHarmfulTypes),
      Take(Contexts(text, MatchedSpans(HarmfulPatterns, text)), 3),
      if score >= 7000 then Adequate else Advise,
      None, None)
  }

  // ---------------------------------------------------------------------
  // Rule 3(3): due diligence for synthetic content labeling

  /** At least two labeling keywords. */
  predicate LabelsRequired(text: string) {
    CountPresent(LabelKeywords, LowerStr(text)) >= 2
  }

  /** A surface-area or duration pattern. */
  predicate SurfaceAreaStated(text: string) {
    AnyMatch(SurfacePatterns, text)
  }

  predicate ImmediatelyIdentifiable(text: string) {
    AnyPresent(ImmediateKeywords, LowerStr(text))
  }

  /** At least two prohibition keywords, and "removal" or "modification". */
  predicate ModificationProhibited(text: string) {
    var lower := LowerStr(text);
    CountPresent(ProhibitionKeywords, lower) >= 2 && (Contains(lower, "removal") || Contains(lower, "modification"))
  }

  /** The `requirements` dictionary of Rule 3(3), one field per key. */
  datatype LabelingChecklist = LabelingChecklist(
    labelRequired: bool, surfaceArea: bool, immediateIdentification: bool, prohibitionModification: bool)
  {
    /** The dictionary's entries, in key order. */
    function Entries(): (r: seq<SubRequirement>)
      ensures |r| == 4
    {
      [ SubRequirement(LabelingKeys[0], labelRequired),
        SubRequirement(LabelingKeys[1], surfaceArea),
        SubRequirement(LabelingKeys[2], immediateIdentification),
        SubRequirement(LabelingKeys[3], prohibitionModification) ]
    }
  }

  function LabelingRequirements(text: string): (r: seq<SubRequirement>)
    ensures |r| == 4
  {
    LabelingChecklist(LabelsRequired(text), SurfaceAreaStated(text), ImmediatelyIdentifiable(text),
      ModificationProhibited(text)).Entries()
  }

  /** The first sentence that mentions one of `kws`, stripped, when `wanted`. */
  function FirstEvidence(wanted: bool, text: string, kws: seq<string>): seq<string> {
    if !wanted then []
    else match FirstMentioning(SplitSentences(text), kws)
      case Some(s) => [Strip(s)]
      case None => []
  }

  function Rule33(text: string): RuleResult {
    var reqs := LabelingRequirements(text);
    var score := 2500 * CountMet(reqs);
    RuleResult(
      Labeling,
      score,
      StatusOf(score, 7500, 5000),
      Flag(LabelsRequired(text), LabelingRequired)
        + Flag(SurfaceAreaStated(text), SurfaceAreaMentioned)
        + Flag(ImmediatelyIdentifiable(text), ImmediateIdentification)
        + Flag(ModificationProhibited(text), ProhibitsLabelModification)
        + Flag(CountMet(reqs) == 0, NoLabelingRequirements),
      Take(FirstEvidence(LabelsRequired(text), text, LabelKeywords), 2),
      RecommendMissing(reqs),
      Some(reqs), None)
  }

  // ---------------------------------------------------------------------
  // Rule 4(1A): requirements on significant social media intermediaries

  /** At least two declaration keywords. */
  predicate DeclarationRequired(text: string) {
    CountPresent(DeclarationKeywords, LowerStr(text)) >= 2
  }

  /** At least two verification keywords. */
  predicate VerificationRequired(text: string) {
    CountPresent(VerificationKeywords, LowerStr(text)) >= 2
  }

  /** At least two labeling keywords, and "synthetic". */
  predicate SyntheticLabelRequired(text: string) {
    var lower := LowerStr(text);
    CountPresent(LabelingKeywords, lower) >= 2 && Contains(lower, "synthetic")
  }

  /** The `requirements` dictionary of Rule 4(1A), one field per key. */
  datatype SsmiChecklist = SsmiChecklist(userDeclaration: bool, technicalVerification: bool, syntheticLabeling: bool)
  {
    /** The dictionary's entries, in key order. */
    function Entries(): (r: seq<SubRequirement>)
      ensures |r| == 3
    {
      [ SubRequirement(SsmiKeys[0], userDeclaration),
        SubRequirement(SsmiKeys[1], technicalVerification),
        SubRequirement(SsmiKeys[2], syntheticLabeling) ]
    }
  }

  function SsmiRequirements(text: string): (r: seq<SubRequirement>)
    ensures |r| == 3
  {
    SsmiChecklist(DeclarationRequired(text), VerificationRequired(text), SyntheticLabelRequired(text)).Entries()
  }

  function Rule41a(text: string): RuleResult {
    var reqs := SsmiRequirements(text);
    var score := 3333 * CountMet(reqs);
    var ssmi := AnyPresent(SsmiIndicators, LowerStr(text));
    RuleResult(
      Ssmi,
      score,
      StatusOf(score, 7000, 5000),
      Flag(DeclarationRequired(text), UserDeclaration)
        + Flag(VerificationRequired(text), TechnicalVerification)
        + Flag(SyntheticLabelRequired(text), SyntheticLabeling)
        + Flag(ssmi, IdentifiesAsSsmi)
        + Flag(CountMet(reqs) == 0, NoSsmiRequirements),
      Take(FirstEvidence(DeclarationRequired(text), text, DeclarationEvidenceKeywords), 2),
      RecommendMissing(reqs),
      Some(reqs), Some(ssmi))
  }

  // ---------------------------------------------------------------------
  // Aggregate report

  function SumScores(rules: seq<RuleResult>): int {
    if rules == [] then 0
    else SumScores(rules[..|rules| - 1]) + rules[|rules| - 1].score
  }

  function CountStatus(rules: seq<RuleResult>, s: Status): (n: nat)
    ensures n <= |rules|
  {
    if rules == [] then 0
    else CountStatus(rules[..|rules| - 1], s) + (if rules[|rules| - 1].status == s then 1 else 0)
  }

  /** The mean of six scores, `total / 6`, rounded to a whole hundredth with
      ties to even, as `round(x, 2)` does on exact values. */
  function RoundMean(total: int): int {
    var q, rem := total / 6, total % 6;
    if rem > 3 then q + 1
    else if rem < 3 then q
    else if q % 2 == 0 then q else q + 1
  }

  /** The overall status, decided on the unrounded mean: mean >= 70 is
      total >= 420 points. */
  function OverallStatusOf(total: int): OverallStatus {
    if total >= 6 * 7000 then Compliant
    else if total >= 6 * 4000 then PartiallyCompliant
    else NonCompliant
  }

  function StatusColor(s: OverallStatus): string {
    match s
    case Compliant => "success"
    case PartiallyCompliant => "warning"
    case NonCompliant => "danger"
  }

  function GenerateSummary(rules: seq<RuleResult>, total: int): Summary {
    Summary(RoundMean(total), CountStatus(rules, Pass), CountStatus(rules, Partial), CountStatus(rules, Fail))
  }

  function RuleResults(text: string, similarity: Similarity): seq<RuleResult> {
    [ Rule21wa(text, similarity), Rule42(text), Rule44(text), Rule31b(text), Rule33(text), Rule41a(text) ]
  }

  /** The report built from the rule results: status and colour from the
      unrounded total, the rounded mean as overall score, and the summary. */
  function Aggregate(rules: seq<RuleResult>): ComplianceReport {
    var total := SumScores(rules);
    var status := OverallStatusOf(total);
    ComplianceReport(RoundMean(total), status, StatusColor(status), rules, GenerateSummary(rules, total))
  }

  function Compliance(text: string, similarity: Similarity): ComplianceReport {
    Aggregate(RuleResults(text, similarity))
  }
}
