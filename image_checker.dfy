/** `ImageAnalyzer` (KP_Final/utils/image_checker.py) as the step-by-step
    procedures the source runs: each builds its result dictionary field by
    field and list by list, and is proved to return what the function of
    the same name in `ImageSpec` describes. */
module ImageChecker {
  import opened Strings
  import opened ImageSpec
  import opened ImageProps

  /** The loop over the five named tags: each one the image has is recorded
      under its lower-cased name and listed when its value mentions AI. */
  method ScanTags(tags: map<string, string>) returns (recorded: map<string, string>, fields: seq<Field>)
    ensures recorded == Recorded(AiRelatedTags, tags)
    ensures fields == AiFields(TagFields(AiRelatedTags, tags))
  {
    recorded := map[];
    fields := [];
    for i := 0 to |AiRelatedTags|
      invariant recorded == Recorded(AiRelatedTags[..i], tags)
      invariant fields == AiFields(TagFields(AiRelatedTags[..i], tags))
    {
      var tag := AiRelatedTags[i];
      assert AiRelatedTags[..i + 1][..i] == AiRelatedTags[..i];
      if tag in tags {
        var value := tags[tag];
        recorded := recorded[LowerStr(tag) := value];
        if MentionsAi(value) {
          fields := fields + [Field(tag, value)];
        }
      }
    }
    assert AiRelatedTags[..|AiRelatedTags|] == AiRelatedTags;
  }

  /** The loop over the `info` entries, appending those that mention AI to
      the fields found among `scanned`. */
  method ScanInfo(scanned: seq<Field>, fields: seq<Field>, info: seq<Field>) returns (r: seq<Field>)
    requires fields == AiFields(scanned)
    ensures r == AiFields(scanned + info)
  {
    r := fields;
    assert scanned + info[..0] == scanned;
    for j := 0 to |info|
      invariant r == AiFields(scanned + info[..j])
    {
      assert (scanned + info[..j + 1])[..|scanned| + j] == scanned + info[..j];
      if MentionsAi(info[j].value) {
        r := r + [info[j]];
      }
    }
    assert info[..|info|] == info;
  }

  /** `_check_metadata`: the named EXIF tags the image has are recorded and
      scanned in order, then the `info` entries; an exception while reading
      EXIF leaves only the error. */
  method CheckMetadata(exif: ExifRead, info: seq<Field>) returns (m: MetadataInfo)
    ensures m == Metadata(exif, info)
  {
    if exif.ExifRaised? {
      return MetadataInfo(false, false, map[], [], Some(exif.message));
    }
    var tags := exif.tags;
    var hasExif := false;
    var recorded: map<string, string> := map[];
    var fields: seq<Field> := [];
    if |tags| > 0 {
      hasExif := true;
      recorded, fields := ScanTags(tags);
    } else {
      NoTagsScanned(AiRelatedTags, tags);
    }
    fields := ScanInfo(TagFields(AiRelatedTags, tags), fields, info);
    AiFieldsExactly(ScannedFields(tags, info));
    m := MetadataInfo(hasExif, |fields| > 0, recorded, fields, None);
  }

  /** The loop over the four corners: each whose mean differs from the
      whole image's by more than 30 is recorded with that difference. */
  method CheckCorners(means: CornerMeans, overall: real) returns (cornerAnalysis: seq<CornerAnomaly>, brightnessAnomalies: bool)
    ensures cornerAnalysis == Anomalies(CornerOrder, means, overall)
    ensures brightnessAnomalies <==> exists k :: 0 <= k < |CornerOrder| && Anomalous(means.Of(CornerOrder[k]), overall)
  {
    cornerAnalysis := [];
    brightnessAnomalies := false;
    for i := 0 to |CornerOrder|
      invariant cornerAnalysis == Anomalies(CornerOrder[..i], means, overall)
      invariant brightnessAnomalies <==> exists k :: 0 <= k < i && Anomalous(means.Of(CornerOrder[k]), overall)
    {
      var corner := CornerOrder[i];
      var cornerMean := means.Of(corner);
      assert CornerOrder[..i + 1][..i] == CornerOrder[..i];
      if cornerMean.Some? && Abs(cornerMean.value - overall) > 30.0 {
        cornerAnalysis := cornerAnalysis + [CornerAnomaly(corner, Abs(cornerMean.value - overall))];
        brightnessAnomalies := true;
      }
    }
    assert CornerOrder[..|CornerOrder|] == CornerOrder;
  }

  /** One more box tried: its region joins the kept ones if it is in the window. */
  lemma KeptStep(boxes: seq<Box>, i: nat, total: nat)
    requires total > 0 && i < |boxes|
    ensures Kept(boxes[..i + 1], total)
      == if Keeps(boxes[i], total) then Kept(boxes[..i], total) + [RegionOf(boxes[i], total)]
         else Kept(boxes[..i], total)
  {
    assert boxes[..i + 1][..i] == boxes[..i];
  }

  /** The loop over the contours' boxes: each box in the window becomes a
      watermark region. */
  method FilterBoxes(boxes: seq<Box>, totalArea: nat) returns (hasWatermark: bool, regions: seq<Region>)
    requires totalArea > 0
    ensures regions == Kept(boxes, totalArea)
    ensures hasWatermark <==> exists k :: 0 <= k < |boxes| && Keeps(boxes[k], totalArea)
  {
    hasWatermark := false;
    regions := [];
    for i := 0 to |boxes|
      invariant regions == Kept(boxes[..i], totalArea)
      invariant hasWatermark <==> exists k :: 0 <= k < i && Keeps(boxes[k], totalArea)
    {
      var box := boxes[i];
      var area := box.w * box.h;
      KeptStep(boxes, i, totalArea);
      var fraction := area as real / totalArea as real;
      assert fraction == AreaFraction(box, totalArea);
      if 0.05 <= fraction <= 0.20 && 0.2 <= box.h as real / box.w as real <= 5.0 {
        hasWatermark := true;
        regions := regions + [Region(box.x, box.y, box.w, box.h, fraction * 100.0)];
      }
    }
    assert boxes[..|boxes|] == boxes;
  }

  /** `_check_visual_labels`: the four corners are compared with the whole
      image, then each contour's box is filtered; a zero image area makes
      the first box raise. */
  method CheckVisualLabels(input: VisualInput) returns (v: VisualInfo)
    ensures v == Visual(input)
  {
    match input
    case Unreadable =>
      v := NoVisualFindings;
    case CvRaised(message) =>
      v := NoVisualFindings.(error := Some(message));
    case Frame(height, width, overall, means, boxes) =>
      var cornerAnalysis, brightnessAnomalies := CheckCorners(means, overall);
      var totalArea := width * height;
      var hasWatermark := false;
      var regions: seq<Region> := [];
      var error: Option<string> := None;
      if totalArea == 0 {
        if boxes != [] {
          error := Some(DivisionByZero);
        }
      } else {
        hasWatermark, regions := FilterBoxes(boxes, totalArea);
      }
      v := VisualInfo(hasWatermark, regions, cornerAnalysis, brightnessAnomalies, error);
  }

  /** `_calculate_label_coverage`: the regions' percentages are added up,
      then 5 per anomalous corner, then the OCR floor and the cap. */
  method CalculateLabelCoverage(visual: VisualInfo, ocr: seq<string>, width: nat, height: nat) returns (r: Result<real>)
    ensures r == LabelCoverage(visual, ocr, width, height)
  {
    var totalCoverage := 0.0;
    var totalArea := width * height;
    if visual.regions != [] {
      if totalArea == 0 {
        return Raised(DivisionByZero);
      }
      for i := 0 to |visual.regions|
        invariant totalCoverage == RegionCoverage(visual.regions[..i], totalArea)
      {
        var region := visual.regions[i];
        assert visual.regions[..i + 1][..i] == visual.regions[..i];
        totalCoverage := totalCoverage + (region.width * region.height) as real / totalArea as real * 100.0;
      }
      assert visual.regions[..|visual.regions|] == visual.regions;
    }
    var cornerAnomalies := |visual.cornerAnalysis|;
    if cornerAnomalies > 0 {
      totalCoverage := totalCoverage + cornerAnomalies as real * 5.0;
    }
    if OcrHasAiLabel(ocr) {
      totalCoverage := Max(totalCoverage, 5.0);
    }
    r := Ok(Min(totalCoverage, 100.0));
  }

  /** `analyze_image` */
  method AnalyzeImage(input: ImageInput) returns (r: AnalysisResult)
    ensures r == Analysis(input)
  {
    match input
    case FileMissing =>
      r := Failure(FileNotFound);
    case OpenRaised(message) =>
      r := Failure(ErrorAnalyzing(message));
    case Opened(exif, info, visualInput, ocr, width, height) =>
      var metadata := CheckMetadata(exif, info);
      var visual := CheckVisualLabels(visualInput);
      var hasLabel := metadata.hasAiIndicator || visual.hasWatermark || OcrHasAiLabel(ocr);
      var coverage := CalculateLabelCoverage(visual, ocr, width, height);
      match coverage
      case Raised(message) =>
        r := Failure(ErrorAnalyzing(message));
      case Ok(labelCoverage) =>
        r := Success(hasLabel, labelCoverage, metadata, ocr, visual, width, height, labelCoverage >= 10.0);
  }

  /** The loop listing the metadata fields. */
  method AppendFieldLines(lines: seq<string>, fields: seq<Field>) returns (r: seq<string>)
    ensures r == lines + FieldLines(fields)
  {
    r := lines;
    assert r == lines + FieldLines(fields[..0]);
    for i := 0 to |fields|
      invariant r == lines + FieldLines(fields[..i])
    {
      assert fields[..i + 1][..i] == fields[..i];
      r := r + [FieldLine(fields[i])];
    }
    assert fields[..|fields|] == fields;
  }

  /** The loop quoting the shown OCR lines that mention AI. */
  method AppendQuotedLines(lines: seq<string>, shown: seq<string>) returns (r: seq<string>)
    ensures r == lines + QuotedLines(shown)
  {
    r := lines;
    assert r == lines + QuotedLines(shown[..0]);
    for i := 0 to |shown|
      invariant r == lines + QuotedLines(shown[..i])
    {
      assert shown[..i + 1][..i] == shown[..i];
      if MentionsAi(shown[i]) {
        r := r + [QuotedLine(shown[i])];
      }
    }
    assert shown[..|shown|] == shown;
  }

  /** `generate_report`: the lines are appended section by section and
      joined with newlines. */
  method GenerateReport(result: AnalysisResult, format: real -> string) returns (report: string)
    ensures report == Report(result, format)
  {
    if result.Failure? {
      return FailedReport(result.error);
    }
    var labelLine := if result.hasLabel then LabelDetected else NoLabelDetected;
    var complianceLine := if result.compliesWith10Percent then MeetsCoverage else MissesCoverage;
    var head := [ReportTitle, "", labelLine, "Label coverage: " + format(result.labelCoverage) + "%", complianceLine, ""];

    var metadataLines: seq<string> := [];
    if result.metadata.hasAiIndicator {
      metadataLines := AppendFieldLines([MetadataHeading], result.metadata.aiRelatedFields);
      metadataLines := metadataLines + [""];
    }
    var ocrLines: seq<string> := [];
    if OcrHasAiLabel(result.ocrResults) {
      ocrLines := AppendQuotedLines([OcrHeading, OcrSubheading], Take(result.ocrResults, QuotedLineLimit));
      ocrLines := ocrLines + [""];
    }
    var visualLines: seq<string> := [];
    if result.visual.hasWatermark {
      visualLines := [VisualHeading, RegionCountLine(|result.visual.regions|), ""];
    }
    var sections := metadataLines + ocrLines + visualLines;
    assert head == HeadLines(result.hasLabel, result.labelCoverage, result.compliesWith10Percent, format);
    assert sections == SectionLines(result);
    report := Join(head + sections, "\n");
  }
}
