/** The decision and aggregation logic of `ImageAnalyzer`
    (KP_Final/utils/image_checker.py), stated as functions over the values
    the foreign calls return: the EXIF tags and PNG `info` entries PIL reads,
    the intensities and bounding boxes OpenCV computes, the lines the OCR
    engine reads, and the image size.

    Percentages are exact reals; the binary rounding of Python's floats is
    not modelled. */
module ImageSpec {
  import opened Strings

  /** The keywords that mark a value or a text as AI related. */
  const AiLabelKeywords: seq<string> := [
    "ai", "generated", "synthetic", "artificial", "deepfake",
    "created by ai", "ai-generated", "made with ai", "dall-e",
    "midjourney", "stable diffusion", "generated image"
  ]

  /** Some keyword is a substring of the lower-cased text. */
  predicate MentionsAi(s: string) {
    AnyPresent(AiLabelKeywords, LowerStr(s))
  }

  /** An outcome that may be an exception, carrying its message. */
  datatype Result<T> = Ok(value: T) | Raised(message: string)

  /** The message of the `ZeroDivisionError` Python raises on `x / 0`. */
  const DivisionByZero: string := "division by zero"

  function Min(a: real, b: real): real {
    if a <= b then a else b
  }

  function Max(a: real, b: real): real {
    if a >= b then a else b
  }

  function Abs(x: real): real {
    if x >= 0.0 then x else -x
  }

  // ---------------------------------------------------------------------
  // Metadata

  /** The EXIF tags whose values are scanned, in scanning order. */
  const AiRelatedTags: seq<string> := ["Software", "ImageDescription", "Artist", "Copyright", "UserComment"]

  /** A `{'field': …, 'value': …}` entry; values are held as their `str()`. */
  datatype Field = Field(field: string, value: string)

  /** What reading the EXIF block gave: the exception it raised, or the
      tags by readable name (an empty map when the image has none). */
  datatype ExifRead = ExifRaised(message: string) | ExifTags(tags: map<string, string>)

  /** The `metadata_info` dictionary. `recorded` holds the entries written
      under `tag.lower()`; a key it lacks is the initial `None` (so the
      initial `description` entry stays `None`, since the tag it would come
      from is recorded as `imagedescription`). */
  datatype MetadataInfo = MetadataInfo(
    hasExif: bool,
    hasAiIndicator: bool,
    recorded: map<string, string>,
    aiRelatedFields: seq<Field>,
    error: Option<string>)

  /** The named tags the image has, as fields, in the order of `names`. */
  function TagFields(names: seq<string>, tags: map<string, string>): seq<Field> {
    if names == [] then []
    else
      var name := names[|names| - 1];
      if name in tags then TagFields(names[..|names| - 1], tags) + [Field(name, tags[name])]
      else TagFields(names[..|names| - 1], tags)
  }

  /** The `tag.lower()` entries written for the named tags the image has. */
  function Recorded(names: seq<string>, tags: map<string, string>): map<string, string> {
    if names == [] then map[]
    else
      var name := names[|names| - 1];
      var before := Recorded(names[..|names| - 1], tags);
      if name in tags then before[LowerStr(name) := tags[name]] else before
  }

  /** The fields whose value mentions AI, in order. */
  function AiFields(fs: seq<Field>): seq<Field> {
    if fs == [] then []
    else if MentionsAi(fs[|fs| - 1].value) then AiFields(fs[..|fs| - 1]) + [fs[|fs| - 1]]
    else AiFields(fs[..|fs| - 1])
  }

  /** Every value the scan looks at: the named EXIF tags, then the PNG
      `info` entries. */
  function ScannedFields(tags: map<string, string>, info: seq<Field>): seq<Field> {
    TagFields(AiRelatedTags, tags) + info
  }

  /** `_check_metadata`. An exception while reading EXIF ends the scan
      before the `info` entries are looked at. */
  function Metadata(exif: ExifRead, info: seq<Field>): MetadataInfo {
    match exif
    case ExifRaised(message) => MetadataInfo(false, false, map[], [], Some(message))
    case ExifTags(tags) =>
      var scanned := ScannedFields(tags, info);
      MetadataInfo(
        |tags| > 0,
        exists i :: 0 <= i < |scanned| && MentionsAi(scanned[i].value),
        Recorded(AiRelatedTags, tags),
        AiFields(scanned),
        None)
  }

  // ---------------------------------------------------------------------
  // Visual analysis

  /** A contour's bounding rectangle. */
  datatype Box = Box(x: int, y: int, w: nat, h: nat)

  /** A kept watermark region with the share of the image it covers. */
  datatype Region = Region(x: int, y: int, width: nat, height: nat, coveragePercent: real)

  datatype Corner = TopLeft | TopRight | BottomLeft | BottomRight

  /** The corners in the order they are examined. */
  const CornerOrder: seq<Corner> := [TopLeft, TopRight, BottomLeft, BottomRight]

  /** The mean intensity of each corner square. `None` is the mean of an
      empty square, which numpy reports as NaN and which compares greater
      than nothing. */
  datatype CornerMeans = CornerMeans(topLeft: Option<real>, topRight: Option<real>, bottomLeft: Option<real>, bottomRight: Option<real>)
  {
    function Of(c: Corner): Option<real> {
      match c
      case TopLeft => topLeft
      case TopRight => topRight
      case BottomLeft => bottomLeft
      case BottomRight => bottomRight
    }
  }

  /** A `corner_analysis` entry; its `has_anomaly` is always true. */
  datatype CornerAnomaly = CornerAnomaly(corner: Corner, brightnessDiff: real)

  /** What OpenCV gave: no image, an exception before any analysis, or the
      grey image's size and mean, the corner means and the external
      contours' bounding boxes in contour order. */
  datatype VisualInput =
    | Unreadable
    | CvRaised(message: string)
    | Frame(height: nat, width: nat, overallMean: real, corners: CornerMeans, boxes: seq<Box>)

  /** The `visual_info` dictionary. */
  datatype VisualInfo = VisualInfo(
    hasWatermark: bool,
    regions: seq<Region>,
    cornerAnalysis: seq<CornerAnomaly>,
    brightnessAnomalies: bool,
    error: Option<string>)

  const NoVisualFindings: VisualInfo := VisualInfo(false, [], [], false, None)

  /** `int(min(height, width) * 0.15)` */
  function CornerSize(height: nat, width: nat): nat {
    (15 * (if height <= width then height else width)) / 100
  }

  /** A rectangle of rows `top..bottom` and columns `left..right`. */
  datatype Rect = Rect(top: int, bottom: int, left: int, right: int)

  /** The square whose mean is taken for a corner. */
  function CornerSquare(c: Corner, height: nat, width: nat): Rect {
    var size := CornerSize(height, width);
    match c
    case TopLeft => Rect(0, size, 0, size)
    case TopRight => Rect(0, size, width - size, width)
    case BottomLeft => Rect(height - size, height, 0, size)
    case BottomRight => Rect(height - size, height, width - size, width)
  }

  /** The corner's brightness differs from the whole image's by more than 30. */
  predicate Anomalous(mean: Option<real>, overall: real) {
    mean.Some? && Abs(mean.value - overall) > 30.0
  }

  /** The anomalous corners among `cs`, in order. */
  function Anomalies(cs: seq<Corner>, means: CornerMeans, overall: real): seq<CornerAnomaly> {
    if cs == [] then []
    else
      var c := cs[|cs| - 1];
      var before := Anomalies(cs[..|cs| - 1], means, overall);
      if Anomalous(means.Of(c), overall) then before + [CornerAnomaly(c, Abs(means.Of(c).value - overall))]
      else before
  }

  /** `area / total_area` */
  function AreaFraction(b: Box, total: nat): real
    requires total > 0
  {
    (b.w * b.h) as real / total as real
  }

  /** The box covers 5% to 20% of the image and its height over width lies
      between 0.2 and 5. */
  predicate Keeps(b: Box, total: nat)
    requires total > 0
  {
    0.05 <= AreaFraction(b, total) <= 0.20 && 0.2 <= b.h as real / b.w as real <= 5.0
  }

  function RegionOf(b: Box, total: nat): Region
    requires total > 0
  {
    Region(b.x, b.y, b.w, b.h, AreaFraction(b, total) * 100.0)
  }

  /** The kept boxes as regions, in contour order. */
  function Kept(boxes: seq<Box>, total: nat): seq<Region>
    requires total > 0
  {
    if boxes == [] then []
    else
      var b := boxes[|boxes| - 1];
      if Keeps(b, total) then Kept(boxes[..|boxes| - 1], total) + [RegionOf(b, total)]
      else Kept(boxes[..|boxes| - 1], total)
  }

  /** `_check_visual_labels`. With a zero image area the first contour
      raises `ZeroDivisionError`, which ends the scan with the corner
      findings in place. */
  function Visual(input: VisualInput): VisualInfo {
    match input
    case Unreadable => NoVisualFindings
    case CvRaised(message) => NoVisualFindings.(error := Some(message))
    case Frame(height, width, overall, means, boxes) =>
      var anomalies := Anomalies(CornerOrder, means, overall);
      var flagged := exists i :: 0 <= i < |CornerOrder| && Anomalous(means.Of(CornerOrder[i]), overall);
      var total := width * height;
      if total == 0 then
        VisualInfo(false, [], anomalies, flagged, if boxes == [] then None else Some(DivisionByZero))
      else
        VisualInfo(
          exists i :: 0 <= i < |boxes| && Keeps(boxes[i], total),
          Kept(boxes, total), anomalies, flagged, None)
  }

  // ---------------------------------------------------------------------
  // OCR

  /** `_check_ocr_for_ai_labels`: false for no lines, otherwise whether the
      lines joined with single spaces mention AI. */
  predicate OcrHasAiLabel(lines: seq<string>) {
    lines != [] && MentionsAi(Join(lines, " "))
  }

  // ---------------------------------------------------------------------
  // Coverage

  /** The percentage of a `width * height` image the regions cover. */
  function RegionCoverage(regions: seq<Region>, total: nat): real
    requires total > 0
  {
    if regions == [] then 0.0
    else
      var r := regions[|regions| - 1];
      RegionCoverage(regions[..|regions| - 1], total) + (r.width * r.height) as real / total as real * 100.0
  }

  /** `_calculate_label_coverage`: the regions' coverage plus 5 per
      anomalous corner, at least 5 when the OCR lines mention AI, at most
      100. Regions over a zero-area image raise `ZeroDivisionError`. */
  function LabelCoverage(visual: VisualInfo, ocr: seq<string>, width: nat, height: nat): Result<real> {
    var total := width * height;
    if visual.regions != [] && total == 0 then Raised(DivisionByZero)
    else
      var fromRegions := if visual.regions != [] then RegionCoverage(visual.regions, total) else 0.0;
      var withCorners := fromRegions + 5.0 * |visual.cornerAnalysis| as real;
      var withOcr := if OcrHasAiLabel(ocr) then Max(withCorners, 5.0) else withCorners;
      Ok(Min(withOcr, 100.0))
  }

  // ---------------------------------------------------------------------
  // Analysis

  /** The image file: missing, unopenable (the exception PIL raised), or
      opened, with what each foreign call gave and PIL's `(width, height)`. */
  datatype ImageInput =
    | FileMissing
    | OpenRaised(message: string)
    | Opened(exif: ExifRead, info: seq<Field>, visual: VisualInput, ocr: seq<string>, width: nat, height: nat)

  /** The result dictionary. A failure has `success` false, its `error`,
      `has_label` false, `label_coverage` 0, empty `metadata_check` and
      `visual_analysis` dictionaries and no OCR lines; a success has `error`
      None and the fields below. */
  datatype AnalysisResult =
    | Failure(error: string)
    | Success(
        hasLabel: bool,
        labelCoverage: real,
        metadata: MetadataInfo,
        ocrResults: seq<string>,
        visual: VisualInfo,
        width: nat,
        height: nat,
        compliesWith10Percent: bool)
  {
    /** `result['has_label']`: False in a failure result. */
    predicate HasLabel() {
      Success? && hasLabel
    }

    /** `result['label_coverage']`: 0 in a failure result. */
    function Coverage(): real {
      if Success? then labelCoverage else 0.0
    }

    /** `result['ocr_results']`: empty in a failure result. */
    function OcrLines(): seq<string> {
      if Success? then ocrResults else []
    }
  }

  const FileNotFound: string := "Image file not found"

  function ErrorAnalyzing(message: string): string {
    "Error analyzing image: " + message
  }

  /** `analyze_image` */
  function Analysis(input: ImageInput): AnalysisResult {
    match input
    case FileMissing => Failure(FileNotFound)
    case OpenRaised(message) => Failure(ErrorAnalyzing(message))
    case Opened(exif, info, visualInput, ocr, width, height) =>
      var metadata := Metadata(exif, info);
      var visual := Visual(visualInput);
      var hasLabel := metadata.hasAiIndicator || visual.hasWatermark || OcrHasAiLabel(ocr);
      match LabelCoverage(visual, ocr, width, height)
      case Raised(message) => Failure(ErrorAnalyzing(message))
      case Ok(coverage) => Success(hasLabel, coverage, metadata, ocr, visual, width, height, coverage >= 10.0)
  }

  // ---------------------------------------------------------------------
  // Report

  const ReportTitle: string := "=== AI Label Detection Report ==="
  const LabelDetected: string := "\U{2713} AI label detected"
  const NoLabelDetected: string := "\U{2717} No AI label detected"
  const MeetsCoverage: string := "\U{2713} Meets 10% coverage requirement"
  const MissesCoverage: string := "\U{2717} Does not meet 10% coverage requirement"
  const MetadataHeading: string := "Metadata Analysis:"
  const OcrHeading: string := "Text Detection (OCR):"
  const OcrSubheading: string := "  AI-related text found in image:"
  const VisualHeading: string := "Visual Analysis:"

  /** How many OCR lines the report quotes at most. */
  const QuotedLineLimit: nat := 5

  function FailedReport(error: string): string {
    "Image analysis failed: " + error
  }

  /** The title, label and coverage lines; `format` renders the coverage
      with two decimals. */
  function HeadLines(hasLabel: bool, coverage: real, complies: bool, format: real -> string): seq<string> {
    [ ReportTitle, "",
      if hasLabel then LabelDetected else NoLabelDetected,
      "Label coverage: " + format(coverage) + "%",
      if complies then MeetsCoverage else MissesCoverage,
      "" ]
  }

  function FieldLine(f: Field): string {
    "  - " + f.field + ": " + f.value
  }

  function FieldLines(fs: seq<Field>): seq<string> {
    if fs == [] then []
    else FieldLines(fs[..|fs| - 1]) + [FieldLine(fs[|fs| - 1])]
  }

  function MetadataLines(m: MetadataInfo): seq<string> {
    if m.hasAiIndicator then [MetadataHeading] + FieldLines(m.aiRelatedFields) + [""] else []
  }

  function QuotedLine(line: string): string {
    "    '" + line + "'"
  }

  /** The lines that mention AI, quoted, in order. */
  function QuotedLines(lines: seq<string>): seq<string> {
    if lines == [] then []
    else if MentionsAi(lines[|lines| - 1]) then QuotedLines(lines[..|lines| - 1]) + [QuotedLine(lines[|lines| - 1])]
    else QuotedLines(lines[..|lines| - 1])
  }

  function OcrLines(ocr: seq<string>): seq<string> {
    if OcrHasAiLabel(ocr) then [OcrHeading, OcrSubheading] + QuotedLines(Take(ocr, QuotedLineLimit)) + [""] else []
  }

  function RegionCountLine(n: nat): string {
    "  " + NatToString(n) + " potential watermark region(s) detected"
  }

  function VisualLines(v: VisualInfo): seq<string> {
    if v.hasWatermark then [VisualHeading, RegionCountLine(|v.regions|), ""] else []
  }

  /** The metadata, OCR and visual sections, each present only when it has
      something to say. */
  function SectionLines(r: AnalysisResult): seq<string>
    requires r.Success?
  {
    MetadataLines(r.metadata) + OcrLines(r.ocrResults) + VisualLines(r.visual)
  }

  /** The lines of the report on a successful analysis. */
  function ReportLines(r: AnalysisResult, format: real -> string): seq<string>
    requires r.Success?
  {
    HeadLines(r.hasLabel, r.labelCoverage, r.compliesWith10Percent, format) + SectionLines(r)
  }

  /** `generate_report` */
  function Report(r: AnalysisResult, format: real -> string): string {
    match r
    case Failure(error) => FailedReport(error)
    case Success(_, _, _, _, _, _, _, _) => Join(ReportLines(r, format), "\n")
  }
}
