# AI-content compliance checker, modelled in Dafny

The repository scores a platform's privacy policy against six provisions of
India's IT Rules on synthetically generated information. It also inspects an
image for signs of an AI-content label. This project models the two engines
that do the deciding:

- `ComplianceAnalyzer` (utils/analyzer.py) runs six rule checkers over one
  text. The rules are 2(1)(wa) definition, 4(2) automated tools, 4(4)
  complaints, 3(1)(b) harmful content, 3(3) labeling and 4(1A) SSMI duties.
  Each checker tests keywords, a few regular expressions and a sentence split
  `[.!?]\s+`. It adds fixed weights into a score and maps the score to
  Pass / Partial / Fail. `analyze_compliance` averages the six scores into an
  overall status and a summary.
- `ImageAnalyzer` (KP_Final/utils/image_checker.py) works over what PIL,
  OpenCV and Tesseract report: the EXIF tags, the `info` pairs, the corner and
  whole-image means, the contours' bounding boxes, the OCR lines and the size.
  From these it decides on a metadata indicator, corner anomalies, watermark
  regions, an OCR hit, a label coverage percentage and a text report.

Layout:

| file | module | contents |
|---|---|---|
| strings.dfy | `Strings` | `str.lower` (ASCII), `in` on strings, `strip`, slicing |
| regex.dfy | `Regex` | the regex shapes the rules use, `re.search`, `re.split('[.!?]\s+')` |
| compliance_spec.dfy | `ComplianceSpec` | the keyword lists, patterns and thresholds; one function per rule result; the aggregate |
| compliance_checks.dfy | `ComplianceAnalyzer` | the checkers as the loops the source runs, each proved equal to its function |
| compliance_props.dfy | `ComplianceProps` | scores, statuses, evidence and aggregate, proved for all texts |
| image_spec.dfy | `ImageSpec` | the foreign calls' outputs as inputs; metadata, visual, coverage, analysis and report functions |
| image_checker.dfy | `ImageChecker` | `_check_metadata`, `_check_visual_labels`, `_calculate_label_coverage`, `analyze_image` and `generate_report` as loops |
| image_props.dfy | `ImageProps` | the scan, the filter, the coverage bounds, failure and success shapes, and the report statements |

Representation choices:

- Scores are integers in hundredths of a point (`10000` is 100.00), so the
  33.33 of Rule 4(1A) is exact. The overall mean is compared through the
  total of the six scores (mean ≥ 70 iff total ≥ 42000).
- `round(overall_score, 2)` is rounding to the nearest hundredth with ties to
  even, taken on the exact mean.
- `calculate_similarity` (SequenceMatcher) is a parameter
  `similarity: (string, string) -> real` whose values lie in [0, 1].
- Image percentages are exact reals.
- A corner whose pixel region is empty, where numpy would give NaN, has mean
  `None`.
- Every exception the source catches is a constructor of the input that
  raises it: `ExifRaised`, `CvRaised`, `OpenRaised`. A zero image area with a
  contour or a region raises `ZeroDivisionError`, as in the source.

Where the code and its documentation differ, the model follows the code:

- The image checker's keyword list has 12 entries, not 13
  (KP_Final/utils/image_checker.py:15-19).
- `_get_context` always adds both `...` marks, even when the window reaches
  an end of the text. The window is exactly 150 characters on each side.
- A `ZeroDivisionError` in `_calculate_label_coverage` is not isolated. It
  reaches `analyze_image`'s handler, and the whole analysis fails
  (`ImageProps.FailurePaths`).
- `has_label` can be true with a coverage of 0. Coverage does not count
  metadata, so a metadata hit alone gives both.
- Keyword tests are plain substring tests:
  - `'ai'` lies inside `'complaint'`, so every complaint sentence also counts
    as an AI mention (`ComplianceProps.ComplaintWordMentionsAi`).
  - `'ai'` lies inside `'paint'`, so an image whose Software tag is
    `Paint.NET` is flagged (`ImageProps.PaintSoftwareFlagged`).
  - The keyword `'AI'` of Rule 4(2) is tested against lowercased text and is
    never counted (`ComplianceProps.CapitalKeywordNeverCounted`).

## Model

| member | source | states |
|---|---|---|
| Strings.StripShape | utils/analyzer.py:120 | `strip()` removes exactly the maximal leading and trailing whitespace runs; what is left starts and ends with non-space |
| Strings.ContainsTransitive | utils/analyzer.py:232-237 | a substring of a substring of a text is a substring of that text |
| Strings.ContainsLowered | utils/analyzer.py:225-237 | a keyword found in a lowercased part of a text is found in the lowercased text |
| Strings.LoweredLacksUpper | utils/analyzer.py:161 | a lowercased text never contains a string that starts with a capital letter |
| Regex.SpaceEndMaximal | utils/analyzer.py:29-32 | a `\s+` run is greedy: every character it covers is whitespace and the next one is not |
| Regex.TailAtFirst | utils/analyzer.py:30-32 | an alternation of literals takes the first alternative that matches, and fails iff none matches |
| Regex.NoTailAtSpace | utils/analyzer.py:29-32 | an alternation whose literals all start with a non-space fails at a whitespace position |
| Regex.BacktrackInSpaces | utils/analyzer.py:29-32 | backtracking over a run of whitespace finds no such alternative |
| Regex.WellFormedMatchesAsRe | utils/analyzer.py:29-32 | on a well-formed pattern the greedy, non-backtracking match equals `re`'s backtracking match |
| Regex.SearchFromLeftmost | utils/analyzer.py:169-174 | a search returns a match at its start position, and no earlier position matches; no result means no position matches |
| Regex.SearchEmpty | utils/analyzer.py:370 | a pattern with a non-empty literal head never matches the empty text |
| Regex.FirstSeparatorLeftmost | utils/analyzer.py:103 | the split point found is a `[.!?]\s+` separator and none starts earlier |
| Regex.SentencesAreInfixes | utils/analyzer.py:103 | every sentence of `re.split('[.!?]\s+', text)` is a substring of the text |
| Regex.SentenceKeywordInText | utils/analyzer.py:225-229 | a keyword found in a lowercased sentence is found in the lowercased text |
| Regex.SplitEmpty | utils/analyzer.py:103 | splitting the empty text gives one empty sentence |
| ComplianceAnalyzer.KeywordsIn | utils/analyzer.py:81-84 | the loop collects exactly the keywords found, in list order |
| ComplianceAnalyzer.BestSentence | utils/analyzer.py:99-120 | the loop returns `Best`: the best qualifying sentence, kept only on a strictly greater similarity |
| ComplianceAnalyzer.FirstMatches | utils/analyzer.py:167-174 | one match per pattern counted, and the evidence is the contexts of those first matches, in pattern order |
| ComplianceAnalyzer.MentioningSentences | utils/analyzer.py:223-229 | the loop keeps exactly the sentences that mention a complaint keyword, in order |
| ComplianceAnalyzer.StrippedMentioning | utils/analyzer.py:231-237 | the count and stripped evidence of the complaint sections mentioning an AI keyword |
| ComplianceAnalyzer.HarmfulTypesFound | utils/analyzer.py:279-292 | the set of harmful types whose pattern matches, and the context of each one's first match |
| ComplianceAnalyzer.AnySurfacePattern | utils/analyzer.py:362-373 | the loop stops with true iff some surface-area pattern matches |
| ComplianceAnalyzer.FirstSentenceEvidence | utils/analyzer.py:355-359 | the first sentence mentioning a keyword, stripped, or nothing; the Rule 4(1A) declaration loop at lines 436-440 is the same search with keywords "declaration" and "declare" |
| ComplianceAnalyzer.CheckRule21wa | utils/analyzer.py:65-149 | the checker's result equals `Rule21wa`, whose properties `Rule21waScore` states |
| ComplianceAnalyzer.CheckRule42 | utils/analyzer.py:151-199 | the checker's result equals `Rule42`, whose properties `Rule42Score` states |
| ComplianceAnalyzer.CheckRule44 | utils/analyzer.py:201-258 | the checker's result equals `Rule44`, whose properties `Rule44Score` states |
| ComplianceAnalyzer.CheckRule31b | utils/analyzer.py:260-322 | the checker's result equals `Rule31b`, whose properties `Rule31bScore` states |
| ComplianceAnalyzer.CheckRule33 | utils/analyzer.py:324-404 | the checker's result equals `Rule33`, whose properties `Rule33Score` states |
| ComplianceAnalyzer.CheckRule41a | utils/analyzer.py:406-481 | the checker's result equals `Rule41a`, whose properties `Rule41aScore` states |
| ComplianceAnalyzer.AnalyzeCompliance | utils/analyzer.py:483-523 | the report equals `Compliance`, whose properties `ReportShape` and `AggregateShape` state |
| ComplianceProps.PresentExactly | utils/analyzer.py:81-84 | a keyword is collected iff it is in the list and in the text |
| ComplianceProps.AnyPresentIffCounted | utils/analyzer.py:177-178 | `any(kw in t)` holds iff the `sum(1 for kw if kw in t)` count is positive |
| ComplianceProps.CapitalKeywordNeverCounted | utils/analyzer.py:27 | a keyword starting with a capital, such as `'AI'`, is never found in the lowercased text |
| ComplianceProps.CountWithoutAbsent | utils/analyzer.py:177-178 | a listed keyword absent from the text caps the count one below the list's length |
| ComplianceProps.BestIsMaximum | utils/analyzer.py:103-120 | no qualifying sentence is more similar than the best match |
| ComplianceProps.BestInitial | utils/analyzer.py:99-100 | the best similarity is never negative; at 0 the best text is still empty |
| ComplianceProps.BestIsEarliest | utils/analyzer.py:113-120 | a positive best match is the earliest qualifying sentence reaching the maximum, and its text is that sentence stripped |
| ComplianceProps.NoQualifyingSentence | utils/analyzer.py:113-137 | with no qualifying sentence, the score is the keyword points alone, the last finding is "no clear definition" and there is no evidence |
| ComplianceProps.Rule21waScore | utils/analyzer.py:80-149 | score = 5 per required keyword + a band in {0, 30, 60, 80}, at most 100; Pass iff ≥ 70, Partial iff 40 to 70; one evidence entry iff the band is positive; the recommendation follows the status |
| ComplianceProps.MatchedSpansInText | utils/analyzer.py:167-174 | every matched span lies inside the text |
| ComplianceProps.WindowIsExcerpt | utils/analyzer.py:529-533 | the context window is a substring of the text at most 300 characters longer than the match |
| ComplianceProps.Rule42Score | utils/analyzer.py:166-199 | at most 4 patterns and 5 countable keywords; score = min(60, 20p) + min(40, 10k), in [0, 100]; Pass iff ≥ 60, Partial iff 30 to 60; at most 3 evidence entries; the "no tools" finding iff no pattern matched |
| ComplianceProps.Rule42Evidence | utils/analyzer.py:167-174 | the i-th evidence entry is the `...`-framed context of the i-th first match, and its window is part of the text |
| ComplianceProps.MentioningExactly | utils/analyzer.py:224-229 | a sentence is kept iff it mentions a keyword |
| ComplianceProps.SentenceMentionCounts | utils/analyzer.py:217-229 | a sentence mentioning a keyword makes the text's count positive |
| ComplianceProps.AiSectionImpliesComplaint | utils/analyzer.py:231-246 | an AI mention inside a complaint section implies the +40 complaint condition |
| ComplianceProps.Rule44Score | utils/analyzer.py:239-258 | score in {0, 40, 100}; ≥ 40 iff a complaint keyword appears; 100 iff a complaint sentence mentions AI; Pass iff 100, Partial iff 40; at most 2 evidence entries |
| ComplianceProps.ComplaintWordMentionsAi | utils/analyzer.py:217-221 | any text containing "complaint" mentions the AI keyword "ai" |
| ComplianceProps.ComplaintSentenceScoresFull | utils/analyzer.py:224-244 | a sentence containing "complaint" alone earns Rule 4(4) the full 100 |
| ComplianceProps.TypesMatchingExactly | utils/analyzer.py:286-292 | a harmful type is recorded iff its pattern matches |
| ComplianceProps.SpansPerType | utils/analyzer.py:286-292 | with distinct type names, one evidence span per type found |
| ComplianceProps.FoundTypesExactly | utils/analyzer.py:279-292 | each of the four types is found iff its own pattern matches |
| ComplianceProps.Rule31bScore | utils/analyzer.py:275-322 | score = 30·prohibited + 35·deepfake + 20·(misleading or manipulated) + 15·section 79, in [0, 100]; Pass iff ≥ 70, Partial iff 40 to 70; "no harmful types" iff none found; evidence = min(3, types found) |
| ComplianceProps.MatchingIndicesExactly | utils/analyzer.py:286-292 | the indices of the patterns that match are strictly increasing, and index j is among them iff pattern j matches |
| ComplianceProps.SpansAtIndices | utils/analyzer.py:286-292 | the k-th collected span is the first match of the k-th matching pattern |
| ComplianceProps.MatchedSpansExactly | utils/analyzer.py:286-292 | the collected spans are the first matches of exactly the patterns that match, in pattern order |
| ComplianceProps.FirstMatchContexts | utils/analyzer.py:286-292 | the first `limit` contexts are the contexts of the first matches of the first `limit` matching patterns, in pattern order |
| ComplianceProps.TypesAtIndices | utils/analyzer.py:286-292 | a type is recorded as found iff its pattern's index is among the matching indices |
| ComplianceProps.Rule31bEvidence | utils/analyzer.py:286-292 | the i-th evidence entry is the context of the first match of the i-th type found, in the fixed order deepfake, misleading, manipulated, section 79; a type is found iff its pattern matches; at most 3 entries |
| ComplianceProps.MetOrMissing | utils/analyzer.py:567-577 | met plus missing is every sub-requirement; none missing iff all met; count 0 iff none met |
| ComplianceProps.Rule33Score | utils/analyzer.py:339-404 | score = 25 per sub-requirement met, in {0, 25, 50, 75, 100}; the four fixed keys; prohibition iff ≥ 2 prohibition keywords and "removal" or "modification"; Pass iff ≥ 3 met, Partial iff 2; "comprehensive" iff all met, else the missing keys in order |
| ComplianceProps.Rule41aScore | utils/analyzer.py:421-481 | score = 33.33 per sub-requirement met, at most 99.99; the three fixed keys; Pass iff all 3, Partial iff 2, Fail iff ≤ 1; SSMI mention only adds a finding |
| ComplianceProps.StatusTally | utils/analyzer.py:537-539 | passed + partial + failed counts every rule once |
| ComplianceProps.RoundMeanNearest | utils/analyzer.py:518 | the rounded mean is within half a hundredth of the exact mean, and exact when the mean is |
| ComplianceProps.SumScoresBounds | utils/analyzer.py:503 | scores in [0, 100] sum to at most 100 per rule |
| ComplianceProps.AggregateShape | utils/analyzer.py:503-523 | status and colour from the unrounded mean (≥ 70, ≥ 40); overall score is the rounded mean, in [0, 100]; summary tallies add to 6 |
| ComplianceProps.Rule21waScored | utils/analyzer.py:141-149 | Rule 2(1)(wa) names its rule, scores within [0, 100] and has a finding |
| ComplianceProps.Rule42Scored | utils/analyzer.py:191-199 | Rule 4(2) names its rule, scores within [0, 100] and has a finding |
| ComplianceProps.Rule44Scored | utils/analyzer.py:250-258 | Rule 4(4) names its rule, scores within [0, 100] and has a finding |
| ComplianceProps.Rule31bScored | utils/analyzer.py:314-322 | Rule 3(1)(b) names its rule, scores within [0, 100] and has a finding |
| ComplianceProps.Rule33Scored | utils/analyzer.py:396-404 | Rule 3(3) names its rule, scores within [0, 100] and has a finding |
| ComplianceProps.Rule41aScored | utils/analyzer.py:471-481 | Rule 4(1A) names its rule, scores within [0, 100] and has a finding |
| ComplianceProps.ReportShape | utils/analyzer.py:493-523 | the report holds exactly the six rules in dictionary order, each scored in [0, 100] with a finding |
| ComplianceProps.EmptyTextFails | utils/analyzer.py:483-523 | on an empty text every rule scores 0 and fails, and the report is Non-Compliant with score 0 and 6 failures |
| ComplianceProps.FailingTally | utils/analyzer.py:537-539 | rules all scoring 0 and failing sum to 0 and all count as failed |
| ComplianceProps.Patterns42MatchAsRe | utils/analyzer.py:28-33 | at every position of every text, each Rule 4(2) pattern's greedy match equals the match `re` finds by backtracking into the `\s+` run |
| ComplianceProps.HarmfulPatternsMatchAsRe | utils/analyzer.py:279-284 | the same for the harmful-content patterns |
| ComplianceProps.SurfacePatternsMatchAsRe | utils/analyzer.py:362-367 | the same for the surface-area patterns |
| ImageChecker.ScanTags | KP_Final/utils/image_checker.py:116-129 | the tag loop records each named tag present under its lowercased name and lists those mentioning AI |
| ImageChecker.ScanInfo | KP_Final/utils/image_checker.py:132-140 | the `info` loop appends exactly the entries mentioning AI |
| ImageChecker.CheckMetadata | KP_Final/utils/image_checker.py:84-145 | the result equals `Metadata`, whose properties `MetadataScan` states |
| ImageChecker.CheckCorners | KP_Final/utils/image_checker.py:183-193 | the anomalous corners in corner order, and `brightness_anomalies` iff some corner is anomalous |
| ImageChecker.FilterBoxes | KP_Final/utils/image_checker.py:201-212 | the kept regions in contour order, and `has_watermark` iff some box is kept |
| ImageChecker.CheckVisualLabels | KP_Final/utils/image_checker.py:147-217 | the result equals `Visual`, whose properties `VisualFrame` states |
| ImageChecker.CalculateLabelCoverage | KP_Final/utils/image_checker.py:269-305 | the result equals `LabelCoverage`, whose properties `CoverageBounds` states |
| ImageChecker.AnalyzeImage | KP_Final/utils/image_checker.py:21-82 | the result equals `Analysis`, whose properties `FailurePaths` and `SuccessShape` state |
| ImageChecker.AppendFieldLines | KP_Final/utils/image_checker.py:342-347 | one line per AI-related field, in order |
| ImageChecker.AppendQuotedLines | KP_Final/utils/image_checker.py:350-356 | one quoted line per shown OCR line mentioning AI, in order |
| ImageChecker.GenerateReport | KP_Final/utils/image_checker.py:307-365 | the report equals `Report`, whose properties `ReportStatements` states |
| ImageProps.AiFieldsExactly | KP_Final/utils/image_checker.py:118-140 | a field is listed iff it mentions AI; the list is non-empty iff some field does |
| ImageProps.TagFieldsExactly | KP_Final/utils/image_checker.py:110-121 | the tag fields scanned are exactly the named tags the image has, with their values |
| ImageProps.NoTagsScanned | KP_Final/utils/image_checker.py:106-108 | without EXIF tags nothing is scanned or recorded from them |
| ImageProps.RecordedExactly | KP_Final/utils/image_checker.py:116-121 | a key is recorded iff it is the lowercased name of a named tag present, holding that tag's value |
| ImageProps.ConcatMentions | KP_Final/utils/image_checker.py:118-140 | the tags and `info` mention AI together iff one of them does |
| ImageProps.TagMentions | KP_Final/utils/image_checker.py:110-121 | the scanned tag fields mention AI iff a named tag present has a value mentioning AI |
| ImageProps.ScannedMentions | KP_Final/utils/image_checker.py:106-140 | all scanned fields mention AI iff a named tag or an `info` entry does |
| ImageProps.MetadataScan | KP_Final/utils/image_checker.py:94-145 | on an EXIF error only the error is reported; otherwise `has_exif` iff tags exist; `has_ai_indicator` iff the field list is non-empty iff a named tag or `info` value mentions AI; no metadata gives no indicator |
| ImageProps.DescriptionNeverRecorded | KP_Final/utils/image_checker.py:116-121 | tags are recorded under their lowercased names, so the `description` key is never set, while an `ImageDescription` tag is recorded as `imagedescription` |
| ImageProps.FractionWindow | KP_Final/utils/image_checker.py:205-208 | the real-valued area test is the integer window `lo·total ≤ 100·area ≤ hi·total` |
| ImageProps.KeepsWindow | KP_Final/utils/image_checker.py:201-208 | a box is kept iff 5% ≤ area/total ≤ 20% and 0.2 ≤ h/w ≤ 5, stated in integers |
| ImageProps.KeptExactly | KP_Final/utils/image_checker.py:201-212 | every region comes from a kept box and every kept box yields a region; at least one region iff some box is kept |
| ImageProps.KeptAppend | KP_Final/utils/image_checker.py:201-212 | filtering keeps contour order: filtering a concatenation concatenates the filtered parts |
| ImageProps.KeptCoverage | KP_Final/utils/image_checker.py:209-212 | each region's percentage is its area over the total times 100, within [5, 20] |
| ImageProps.AnomaliesExactly | KP_Final/utils/image_checker.py:183-193 | a corner is listed iff it is anomalous, with its difference above 30; at most one per corner |
| ImageProps.CornerSquareInside | KP_Final/utils/image_checker.py:174-181 | corner size = ⌊0.15·min(h, w)⌋, and each corner square lies inside the image with that side |
| ImageProps.VisualFrame | KP_Final/utils/image_checker.py:147-217 | `has_watermark` iff regions exist; `brightness_anomalies` iff corners are listed, at most 4; a zero area gives no regions and an error iff a contour exists |
| ImageProps.JoinContainsPart | KP_Final/utils/image_checker.py:265 | each joined line is part of the joined text |
| ImageProps.OcrLineSuffices | KP_Final/utils/image_checker.py:258-267 | one OCR line mentioning AI makes the check true; an empty list makes it false |
| ImageProps.OcrJoinsAcrossLines | KP_Final/utils/image_checker.py:262-267 | "stable" and "diffusion" on separate lines are detected through the joined text |
| ImageProps.AiInsideWord | KP_Final/utils/image_checker.py:15-19 | any value containing "ai" anywhere mentions AI |
| ImageProps.PaintSoftwareFlagged | KP_Final/utils/image_checker.py:116-125 | a Software tag "Paint.NET" alone raises the AI indicator |
| ImageProps.RegionCoverageNonNegative | KP_Final/utils/image_checker.py:285-289 | the regions' summed coverage is never negative |
| ImageProps.KeptRegionsCoverage | KP_Final/utils/image_checker.py:285-289 | kept regions add between 5 and 20 points each |
| ImageProps.CoverageBounds | KP_Final/utils/image_checker.py:281-305 | raises iff regions exist on a zero area; otherwise in [0, 100], at least 5 on an OCR hit, 0 with nothing found, 5 per corner alone |
| ImageProps.ScenarioRegions | KP_Final/utils/image_checker.py:201-212 | a 30×40 box on a 100×100 image is kept with coverage 12 |
| ImageProps.ScenarioCorners | KP_Final/utils/image_checker.py:183-193 | a corner 50 brighter than the image is the only anomaly |
| ImageProps.WatermarkAndCornerScenario | KP_Final/utils/image_checker.py:52-70 | that image is labelled with coverage 12 + 5 = 17 and complies |
| ImageProps.FailurePaths | KP_Final/utils/image_checker.py:31-82 | failure iff the file is missing, PIL raises, or regions meet a zero area; the error says which; a failure has no label, coverage 0 and no OCR lines |
| ImageProps.SuccessShape | KP_Final/utils/image_checker.py:52-70 | `has_label` iff a metadata field, a region or an OCR hit; coverage in [0, 100], ≥ 5 on an OCR hit; complies iff coverage ≥ 10 |
| ImageProps.FieldLinesUnmarked | KP_Final/utils/image_checker.py:342-347 | the field lines are one per field and none is a status line |
| ImageProps.QuotedLinesUnmarked | KP_Final/utils/image_checker.py:350-356 | no quoted OCR line is a status line |
| ImageProps.SectionsUnmarked | KP_Final/utils/image_checker.py:342-363 | no line of the metadata, OCR or visual sections is a status line |
| ImageProps.MarkedLineInHead | KP_Final/utils/image_checker.py:320-339 | a status line is in the report iff it is in the head |
| ImageProps.HeadStatements | KP_Final/utils/image_checker.py:320-339 | the head starts with the title and shows "AI label detected" iff `has_label` and "Meets 10% coverage" iff it complies, each with its negation otherwise |
| ImageProps.ReportStatements | KP_Final/utils/image_checker.py:307-365 | a failure gives the one failure line; otherwise the lines start with the title and contain each status line iff its condition holds |

## Left out

- Non-ASCII text: `str.lower` is modelled on ASCII letters only; whitespace (`str.isspace`, `\s`) is the full Unicode whitespace set.
- Floating point: the `:.2%` and `:.2f` digits in findings, the summary text and the report are left out. Findings are datatypes, the summary keeps its three tallies and the rounded mean, and the report takes a `format` parameter for the coverage.
- `round(x, 2)` is rounding of the exact mean, half to even; the binary-float tie cases are not modelled.
- `calculate_similarity`: `difflib.SequenceMatcher` is not modelled; its ratio is a parameter known only to lie in [0, 1].
- The regex engine is modelled only for the shapes the rules use: a literal head, then nothing, `\s+` or `.*?`, then alternated literals. Full `re` is not modelled.
- The `definition_patterns` (utils/analyzer.py:93-97) and the `rule_keywords` entries for rules 4(4) and 3(1)(b) (utils/analyzer.py:35-51) are never read by the checkers, so they are not modelled.
- `types_found` keeps the set of matched types, not the per-type match lists, which the result never returns.
- `_perform_ocr` and every foreign call (PIL decode and `_getexif`, OpenCV `imread`, `cvtColor`, `Canny`, `findContours`, `boundingRect`, numpy means, pytesseract) are not modelled; their outputs are inputs.
- A NaN corner mean is `None`. The exceptions modelled are: PIL failing to open the image, OpenCV raising, reading EXIF raising, and `ZeroDivisionError` in the visual check and in the coverage figure. Other exceptions in the middle of the `_check_metadata` scan (a tag value whose `str()` raises, say) are not modelled.
- `analyze_image_file` (KP_Final/utils/image_checker.py:368-379) is a one-line wrapper around `analyze_image` and is not modelled separately.
- The failure result's empty `metadata_check` and `visual_analysis` dicts and its `image_dimensions` are represented by the `Failure` constructor. `has_label`, coverage and the OCR lines are read through accessors that give false, 0 and `[]` on it.
- ImageProps.ReportStatements: it states which status lines are among the report's lines, not substring facts about the joined report text.
- KP_Final/utils/scraper.py, KP_Final/app.py, test_api.py and utils/__init__.py are not part of this model: they are HTTP, HTML, Flask and console I/O.
