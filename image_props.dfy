/** Properties of the image analysis model: what the metadata scan, the
    watermark filter, the corner check, the OCR check and the coverage
    estimate decide, the shape of a failed or successful analysis, and what
    the report says. */
module ImageProps {
  import opened Strings
  import opened ImageSpec

  // ---------------------------------------------------------------------
  // Metadata

  /** The AI fields are exactly the fields whose value mentions AI, and
      there are some iff some field's value mentions AI. */
  lemma {:induction false} AiFieldsExactly(fs: seq<Field>)
    ensures forall f :: f in AiFields(fs) ==> f in fs && MentionsAi(f.value)
    ensures forall i :: 0 <= i < |fs| && MentionsAi(fs[i].value) ==> fs[i] in AiFields(fs)
    ensures |AiFields(fs)| > 0 <==> exists i :: 0 <= i < |fs| && MentionsAi(fs[i].value)
  {
    if fs != [] {
      var n := |fs| - 1;
      AiFieldsExactly(fs[..n]);
      assert forall i :: 0 <= i < n ==> fs[..n][i] == fs[i];
    }
  }

  /** A named tag appears as a field iff the image has it, with its value. */
  lemma {:induction false} TagFieldsExactly(names: seq<string>, tags: map<string, string>)
    ensures forall f :: f in TagFields(names, tags) <==> f.field in names && f.field in tags && f.value == tags[f.field]
  {
    if names != [] {
      var n := |names| - 1;
      TagFieldsExactly(names[..n], tags);
      assert names == names[..n] + [names[n]];
    }
  }

  /** Without EXIF tags nothing is scanned or recorded from EXIF. */
  lemma {:induction false} NoTagsScanned(names: seq<string>, tags: map<string, string>)
    requires |tags| == 0
    ensures TagFields(names, tags) == [] && Recorded(names, tags) == map[]
  {
    if names != [] {
      NoTagsScanned(names[..|names| - 1], tags);
      assert names[|names| - 1] !in tags;
    }
  }

  /** The recorded keys are the lower-cased names of the named tags the
      image has, each holding that tag's value. */
  lemma {:induction false} RecordedExactly(names: seq<string>, tags: map<string, string>)
    ensures forall k :: k in Recorded(names, tags) ==>
      exists i :: 0 <= i < |names| && names[i] in tags && LowerStr(names[i]) == k && Recorded(names, tags)[k] == tags[names[i]]
    ensures forall i :: 0 <= i < |names| && names[i] in tags ==> LowerStr(names[i]) in Recorded(names, tags)
  {
    if names != [] {
      var n := |names| - 1;
      RecordedExactly(names[..n], tags);
      assert forall i :: 0 <= i < n ==> names[..n][i] == names[i];
    }
  }

  /** Some field's value mentions AI. */
  predicate SomeFieldMentionsAi(fs: seq<Field>) {
    exists i :: 0 <= i < |fs| && MentionsAi(fs[i].value)
  }

  /** One of the named tags the image has holds a value that mentions AI. */
  predicate SomeTagMentionsAi(names: seq<string>, tags: map<string, string>) {
    exists t :: t in names && t in tags && MentionsAi(tags[t])
  }

  /** Some field of `a + b` mentions AI iff one of `a` or of `b` does. */
  lemma ConcatMentions(a: seq<Field>, b: seq<Field>)
    ensures SomeFieldMentionsAi(a + b) <==> SomeFieldMentionsAi(a) || SomeFieldMentionsAi(b)
  {
    if SomeFieldMentionsAi(a) {
      var i :| 0 <= i < |a| && MentionsAi(a[i].value);
      assert (a + b)[i] == a[i];
    }
    if SomeFieldMentionsAi(b) {
      var i :| 0 <= i < |b| && MentionsAi(b[i].value);
      assert (a + b)[|a| + i] == b[i];
    }
    if SomeFieldMentionsAi(a + b) {
      var i :| 0 <= i < |a + b| && MentionsAi((a + b)[i].value);
      if i < |a| {
        assert (a + b)[i] == a[i];
      } else {
        assert (a + b)[i] == b[i - |a|];
      }
    }
  }

  /** Some field taken from the named tags mentions AI iff one of the named
      tags the image has does. */
  lemma TagMentions(names: seq<string>, tags: map<string, string>)
    ensures SomeFieldMentionsAi(TagFields(names, tags)) <==> SomeTagMentionsAi(names, tags)
  {
    var fs := TagFields(names, tags);
    TagFieldsExactly(names, tags);
    if SomeTagMentionsAi(names, tags) {
      var t :| t in names && t in tags && MentionsAi(tags[t]);
      assert Field(t, tags[t]) in fs;
      var i :| 0 <= i < |fs| && fs[i] == Field(t, tags[t]);
      assert MentionsAi(fs[i].value);
    }
    if SomeFieldMentionsAi(fs) {
      var i :| 0 <= i < |fs| && MentionsAi(fs[i].value);
      assert fs[i] in fs;
      var t := fs[i].field;
      assert t in names && t in tags && MentionsAi(tags[t]);
    }
  }

  /** Some scanned field mentions AI iff one of the named tags the image
      has does, or one of the `info` entries does. */
  lemma ScannedMentions(tags: map<string, string>, info: seq<Field>)
    ensures SomeFieldMentionsAi(ScannedFields(tags, info)) <==>
      SomeTagMentionsAi(AiRelatedTags, tags) || SomeFieldMentionsAi(info)
  {
    TagMentions(AiRelatedTags, tags);
    ConcatMentions(TagFields(AiRelatedTags, tags), info);
  }

  /** The scan over EXIF tags and `info` entries: the AI indicator is set iff
      one of the five named tags the image has, or one of the `info`
      entries, mentions AI, iff some field was listed; the listed fields are
      exactly the scanned fields that mention AI; no metadata leaves the
      indicator unset; an exception reading EXIF skips the whole scan. */
  lemma MetadataScan(exif: ExifRead, info: seq<Field>)
    ensures var m := Metadata(exif, info);
      && (exif.ExifRaised? ==> !m.hasExif && !m.hasAiIndicator && m.aiRelatedFields == [] && m.error == Some(exif.message))
      && (exif.ExifTags? ==>
            && m.error == None
            && (m.hasExif <==> |exif.tags| > 0)
            && (m.hasAiIndicator <==> |m.aiRelatedFields| > 0)
            && (m.hasAiIndicator <==> SomeTagMentionsAi(AiRelatedTags, exif.tags) || SomeFieldMentionsAi(info))
            && (forall f :: f in m.aiRelatedFields <==> f in ScannedFields(exif.tags, info) && MentionsAi(f.value))
            && (|exif.tags| == 0 && info == [] ==> !m.hasAiIndicator))
  {
    if exif.ExifTags? {
      var scanned := ScannedFields(exif.tags, info);
      ScannedMentions(exif.tags, info);
      AiFieldsExactly(scanned);
      forall f | f in scanned && MentionsAi(f.value)
        ensures f in AiFields(scanned)
      {
        var i :| 0 <= i < |scanned| && scanned[i] == f;
      }
      if |exif.tags| == 0 {
        NoTagsScanned(AiRelatedTags, exif.tags);
      }
    }
  }

  /** The initial `description` entry is never overwritten: the tag that
      would fill it is recorded under `imagedescription`. */
  lemma DescriptionNeverRecorded(exif: ExifRead, info: seq<Field>)
    ensures "description" !in Metadata(exif, info).recorded
    ensures exif.ExifTags? && "ImageDescription" in exif.tags ==> "imagedescription" in Metadata(exif, info).recorded
  {
    if exif.ExifTags? {
      RecordedExactly(AiRelatedTags, exif.tags);
      forall i | 0 <= i < |AiRelatedTags|
        ensures LowerStr(AiRelatedTags[i]) != "description"
      {
        assert LowerStr(AiRelatedTags[i])[0] != 'd';
      }
      assert AiRelatedTags[1] == "ImageDescription";
      assert LowerStr("ImageDescription") == "imagedescription";
    }
  }

  // ---------------------------------------------------------------------
  // Visual analysis

  /** `a / t` lies between `lo / 100` and `hi / 100` iff `a` lies between
      `lo t / 100` and `hi t / 100`. */
  lemma FractionWindow(a: nat, t: nat, lo: nat, hi: nat)
    requires t > 0
    ensures (lo as real / 100.0 <= a as real / t as real <= hi as real / 100.0) <==> lo * t <= 100 * a <= hi * t
  {
    FractionAtLeast(a, t, lo);
    FractionAtMost(a, t, hi);
  }

  lemma FractionAtLeast(a: nat, t: nat, lo: nat)
    requires t > 0
    ensures lo as real / 100.0 <= a as real / t as real <==> lo * t <= 100 * a
  {
    var f := a as real / t as real;
    assert f * t as real == a as real;
    if lo as real / 100.0 <= f {
      assert lo as real * t as real <= 100.0 * f * t as real;
    }
    if lo * t <= 100 * a {
      assert (lo as real / 100.0) * t as real <= f * t as real;
    }
  }

  lemma FractionAtMost(a: nat, t: nat, hi: nat)
    requires t > 0
    ensures a as real / t as real <= hi as real / 100.0 <==> 100 * a <= hi * t
  {
    var f := a as real / t as real;
    assert f * t as real == a as real;
    if f <= hi as real / 100.0 {
      assert 100.0 * f * t as real <= hi as real * t as real;
    }
    if 100 * a <= hi * t {
      assert f * t as real <= (hi as real / 100.0) * t as real;
    }
  }

  /** The window in whole numbers: a box is kept iff its area is 5% to 20%
      of the image and neither side exceeds five times the other. */
  lemma KeepsWindow(b: Box, total: nat)
    requires total > 0
    ensures Keeps(b, total) <==>
      5 * total <= 100 * (b.w * b.h) <= 20 * total && b.w <= 5 * b.h && b.h <= 5 * b.w
  {
    FractionWindow(b.w * b.h, total, 5, 20);
    assert 5.0 / 100.0 == 0.05 && 20.0 / 100.0 == 0.20;
    if 5 * total <= 100 * (b.w * b.h) {
      assert b.w > 0;
      FractionWindow(b.h, b.w, 20, 500);
      assert 20.0 / 100.0 == 0.2 && 500.0 / 100.0 == 5.0;
    }
  }

  /** The kept regions are the boxes that pass the window, as regions, in
      contour order: filtering a concatenation concatenates the results. */
  lemma {:induction false} KeptExactly(boxes: seq<Box>, total: nat)
    requires total > 0
    ensures |Kept(boxes, total)| <= |boxes|
    ensures forall r :: r in Kept(boxes, total) ==> exists i :: 0 <= i < |boxes| && Keeps(boxes[i], total) && r == RegionOf(boxes[i], total)
    ensures forall i :: 0 <= i < |boxes| && Keeps(boxes[i], total) ==> RegionOf(boxes[i], total) in Kept(boxes, total)
    ensures |Kept(boxes, total)| > 0 <==> exists i :: 0 <= i < |boxes| && Keeps(boxes[i], total)
  {
    if boxes != [] {
      var n := |boxes| - 1;
      KeptExactly(boxes[..n], total);
      assert forall i :: 0 <= i < n ==> boxes[..n][i] == boxes[i];
    }
  }

  lemma {:induction false} KeptAppend(a: seq<Box>, b: seq<Box>, total: nat)
    requires total > 0
    ensures Kept(a + b, total) == Kept(a, total) + Kept(b, total)
  {
    if b == [] {
      assert a + b == a;
    } else {
      var n := |b| - 1;
      KeptAppend(a, b[..n], total);
      assert (a + b)[..|a + b| - 1] == a + b[..n];
    }
  }

  /** Each kept region covers between 5% and 20% of the image. */
  lemma {:induction false} KeptCoverage(boxes: seq<Box>, total: nat)
    requires total > 0
    ensures forall r :: r in Kept(boxes, total) ==>
      5.0 <= r.coveragePercent <= 20.0 && r.coveragePercent == (r.width * r.height) as real / total as real * 100.0
  {
    if boxes != [] {
      KeptCoverage(boxes[..|boxes| - 1], total);
    }
  }

  /** The anomalous corners are the corners whose mean differs from the
      whole image's by more than 30, each with that difference, in order. */
  lemma {:induction false} AnomaliesExactly(cs: seq<Corner>, means: CornerMeans, overall: real)
    ensures |Anomalies(cs, means, overall)| <= |cs|
    ensures forall a :: a in Anomalies(cs, means, overall) ==>
      a.corner in cs && Anomalous(means.Of(a.corner), overall)
      && a.brightnessDiff == Abs(means.Of(a.corner).value - overall) > 30.0
    ensures forall i :: 0 <= i < |cs| && Anomalous(means.Of(cs[i]), overall) ==>
      CornerAnomaly(cs[i], Abs(means.Of(cs[i]).value - overall)) in Anomalies(cs, means, overall)
    ensures |Anomalies(cs, means, overall)| > 0 <==> exists i :: 0 <= i < |cs| && Anomalous(means.Of(cs[i]), overall)
  {
    if cs != [] {
      var n := |cs| - 1;
      AnomaliesExactly(cs[..n], means, overall);
      assert forall i :: 0 <= i < n ==> cs[..n][i] == cs[i];
    }
  }

  /** The corner square's side is the floor of 15% of the smaller side, and
      each corner square lies inside the image. */
  lemma CornerSquareInside(c: Corner, height: nat, width: nat)
    ensures var size := CornerSize(height, width);
      var m := if height <= width then height else width;
      && 100 * size <= 15 * m < 100 * (size + 1)
      && size <= m
    ensures var sq := CornerSquare(c, height, width);
      var size := CornerSize(height, width);
      && 0 <= sq.top <= sq.bottom <= height && 0 <= sq.left <= sq.right <= width
      && sq.bottom - sq.top == size && sq.right - sq.left == size
  {
  }

  /** The visual analysis of a frame: a watermark iff a region was kept, at
      most four anomalous corners and brightness anomalies iff there is
      one; a zero-area image keeps no region and reports the division by
      zero iff it has contours. */
  lemma VisualFrame(input: VisualInput)
    requires input.Frame?
    ensures var v := Visual(input);
      var total := input.width * input.height;
      && (v.hasWatermark <==> |v.regions| > 0)
      && (v.brightnessAnomalies <==> |v.cornerAnalysis| > 0)
      && |v.cornerAnalysis| <= 4
      && (total > 0 ==> v.regions == Kept(input.boxes, total) && v.error == None)
      && (total == 0 ==> v.regions == [] && (v.error.Some? <==> input.boxes != []))
  {
    AnomaliesExactly(CornerOrder, input.corners, input.overallMean);
    if input.width * input.height > 0 {
      KeptExactly(input.boxes, input.width * input.height);
    }
  }

  // ---------------------------------------------------------------------
  // OCR

  /** Each part of a join occurs in it. */
  lemma {:induction false} JoinContainsPart(parts: seq<string>, sep: string, k: nat)
    requires k < |parts|
    ensures Contains(Join(parts, sep), parts[k])
  {
    var n := |parts| - 1;
    var joined := Join(parts, sep);
    if n == 0 {
      assert joined[0..|joined|] == parts[k];
      ContainsSlice(joined, 0, |joined|);
    } else {
      var init := Join(parts[..n], sep);
      assert joined == init + sep + parts[n];
      if k == n {
        assert joined[|init| + |sep|..|joined|] == parts[n];
        ContainsSlice(joined, |init| + |sep|, |joined|);
      } else {
        JoinContainsPart(parts[..n], sep, k);
        assert joined[0..|init|] == init;
        ContainsSlice(joined, 0, |init|);
        ContainsTransitive(joined, init, parts[k]);
      }
    }
  }

  /** No lines carry no label; a line that mentions AI is enough. */
  lemma OcrLineSuffices(lines: seq<string>, k: nat)
    requires k < |lines| && MentionsAi(lines[k])
    ensures OcrHasAiLabel(lines)
    ensures !OcrHasAiLabel([])
  {
    var i :| 0 <= i < |AiLabelKeywords| && Contains(LowerStr(lines[k]), AiLabelKeywords[i]);
    JoinContainsPart(lines, " ", k);
    ContainsLowered(Join(lines, " "), lines[k], AiLabelKeywords[i]);
  }

  /** A word of two or more characters does not occur in `s` when its
      first two characters appear together nowhere it could start. */
  lemma OpeningAbsent(s: string, p: string)
    requires |p| >= 2
    requires forall k :: 0 <= k && k + |p| <= |s| ==> s[k] != p[0] || s[k + 1] != p[1]
    ensures !Contains(s, p)
  {
    if Contains(s, p) {
      var k: nat :| k <= |s| && OccursAt(s, p, k);
      SliceOpening(s, k, k + |p|);
    }
  }

  /** The first two characters of a slice of two or more. */
  lemma SliceOpening(s: string, i: nat, j: nat)
    requires i + 2 <= j <= |s|
    ensures s[i..j][0] == s[i] && s[i..j][1] == s[i + 1]
  {
  }

  /** Joining the lines lets a keyword span two of them: neither "stable"
      nor "diffusion" mentions AI, yet the two lines together do. */
  lemma OcrJoinsAcrossLines()
    ensures !MentionsAi("stable") && !MentionsAi("diffusion")
    ensures OcrHasAiLabel(["stable", "diffusion"])
  {
    var joined := Join(["stable", "diffusion"], " ");
    assert ["stable", "diffusion"][..1] == ["stable"];
    assert joined == "stable diffusion";
    assert LowerStr(joined) == joined;
    assert LowerStr("stable") == "stable";
    assert LowerStr("diffusion") == "diffusion";
    assert OccursAt(joined, AiLabelKeywords[10], 0);
    forall i | 0 <= i < |AiLabelKeywords|
      ensures !Contains("stable", AiLabelKeywords[i]) && !Contains("diffusion", AiLabelKeywords[i])
    {
      var kw := AiLabelKeywords[i];
      OpeningAbsent("stable", kw);
      OpeningAbsent("diffusion", kw);
    }
  }

  // ---------------------------------------------------------------------
  // Coverage

  /** The keyword "ai" is matched as a substring, so any value holding the
      letters "ai" inside a word mentions AI. */
  lemma AiInsideWord(s: string)
    requires Contains(LowerStr(s), "ai")
    ensures MentionsAi(s)
  {
    assert AiLabelKeywords[0] == "ai";
  }

  /** Hence an image whose EXIF software tag is "Paint.NET" is reported as
      carrying an AI indicator in its metadata. */
  lemma PaintSoftwareFlagged()
    ensures Metadata(ExifTags(map["Software" := "Paint.NET"]), []).hasAiIndicator
  {
    var tags := map["Software" := "Paint.NET"];
    assert LowerStr("Paint.NET") == "paint.net";
    assert OccursAt("paint.net", "ai", 1);
    AiInsideWord("Paint.NET");
    assert AiRelatedTags[0] == "Software";
    MetadataScan(ExifTags(tags), []);
  }

  lemma {:induction false} RegionCoverageNonNegative(regions: seq<Region>, total: nat)
    requires total > 0
    ensures RegionCoverage(regions, total) >= 0.0
  {
    if regions != [] {
      RegionCoverageNonNegative(regions[..|regions| - 1], total);
    }
  }

  /** Regions kept by the filter from the same image each add 5 to 20. */
  lemma {:induction false} KeptRegionsCoverage(boxes: seq<Box>, total: nat)
    requires total > 0
    ensures var kept := Kept(boxes, total);
      5.0 * |kept| as real <= RegionCoverage(kept, total) <= 20.0 * |kept| as real
  {
    if boxes != [] {
      var n := |boxes| - 1;
      KeptRegionsCoverage(boxes[..n], total);
      var kept := Kept(boxes, total);
      if Keeps(boxes[n], total) {
        assert kept[..|kept| - 1] == Kept(boxes[..n], total);
      }
    }
  }

  /** The estimate lies in [0, 100]; it is at least 5 when the OCR lines
      mention AI; with no regions, no anomalous corners and no OCR hit it is
      0; it fails only for regions over a zero-area image. */
  lemma CoverageBounds(visual: VisualInfo, ocr: seq<string>, width: nat, height: nat)
    ensures var r := LabelCoverage(visual, ocr, width, height);
      && (r.Raised? <==> visual.regions != [] && width * height == 0)
      && (r.Ok? ==> 0.0 <= r.value <= 100.0)
      && (r.Ok? && OcrHasAiLabel(ocr) ==> r.value >= 5.0)
      && (visual.regions == [] && visual.cornerAnalysis == [] && !OcrHasAiLabel(ocr) ==> r == Ok(0.0))
      && (visual.regions == [] && !OcrHasAiLabel(ocr) ==> r == Ok(Min(5.0 * |visual.cornerAnalysis| as real, 100.0)))
  {
    if visual.regions != [] && width * height > 0 {
      RegionCoverageNonNegative(visual.regions, width * height);
    }
  }

  // ---------------------------------------------------------------------
  // Analysis

  /** The scenario's one box covers 12% of a 100 by 100 image and is kept. */
  lemma ScenarioRegions()
    ensures Kept([Box(10, 10, 30, 40)], 10000) == [Region(10, 10, 30, 40, 12.0)]
    ensures RegionCoverage([Region(10, 10, 30, 40, 12.0)], 10000) == 12.0
  {
    var box := Box(10, 10, 30, 40);
    assert AreaFraction(box, 10000) == 0.12;
    assert Keeps(box, 10000);
    assert [box][..0] == [];
    assert Kept([box], 10000) == [] + [RegionOf(box, 10000)];
    var region := Region(10, 10, 30, 40, 12.0);
    assert [region][..0] == [];
  }

  /** Of the scenario's corners only the top-left one, 50 brighter than the
      whole image, is anomalous. */
  lemma ScenarioCorners()
    ensures var means := CornerMeans(Some(150.0), Some(100.0), Some(100.0), Some(100.0));
      Anomalies(CornerOrder, means, 100.0) == [CornerAnomaly(TopLeft, 50.0)]
  {
    var means := CornerMeans(Some(150.0), Some(100.0), Some(100.0), Some(100.0));
    var first := CornerAnomaly(TopLeft, 50.0);
    assert CornerOrder[..1] == [TopLeft] && [TopLeft][..0] == [];
    assert Anomalies([TopLeft], means, 100.0) == [] + [first] == [first];
    assert CornerOrder[..2] == [TopLeft, TopRight] && [TopLeft, TopRight][..1] == [TopLeft];
    assert Anomalies(CornerOrder[..2], means, 100.0) == [first];
    assert CornerOrder[..3] == [TopLeft, TopRight, BottomLeft] && CornerOrder[..3][..2] == CornerOrder[..2];
    assert Anomalies(CornerOrder[..3], means, 100.0) == [first];
    assert CornerOrder[..3] == CornerOrder[..|CornerOrder| - 1];
  }

  /** A 100 by 100 image with one 30 by 40 contour box (12% of the image)
      and one corner 50 brighter than the whole image: a label is found, the
      coverage is 12 + 5 = 17, and the image complies. */
  lemma WatermarkAndCornerScenario()
    ensures var means := CornerMeans(Some(150.0), Some(100.0), Some(100.0), Some(100.0));
      var frame := Frame(100, 100, 100.0, means, [Box(10, 10, 30, 40)]);
      var r := Analysis(Opened(ExifTags(map[]), [], frame, [], 100, 100));
      && r.Success?
      && r.hasLabel
      && r.labelCoverage == 17.0
      && r.compliesWith10Percent
  {
    var means := CornerMeans(Some(150.0), Some(100.0), Some(100.0), Some(100.0));
    var v := Visual(Frame(100, 100, 100.0, means, [Box(10, 10, 30, 40)]));
    ScenarioRegions();
    ScenarioCorners();
    assert v.regions == [Region(10, 10, 30, 40, 12.0)];
    assert |v.cornerAnalysis| == 1;
    assert !OcrHasAiLabel([]);
    assert LabelCoverage(v, [], 100, 100) == Ok(17.0);
  }

  /** An analysis fails iff the file is missing, PIL cannot open it, or
      watermark regions meet a zero-area image; the error says which. */
  lemma FailurePaths(input: ImageInput)
    ensures var r := Analysis(input);
      && (r.Failure? <==>
            || input.FileMissing?
            || input.OpenRaised?
            || (input.Opened? && Visual(input.visual).regions != [] && input.width * input.height == 0))
      && (input.FileMissing? ==> r == Failure(FileNotFound))
      && (input.OpenRaised? ==> r == Failure(ErrorAnalyzing(input.message)))
      && (input.Opened? && r.Failure? ==> r == Failure(ErrorAnalyzing(DivisionByZero)))
      && (r.Failure? ==> !r.HasLabel() && r.Coverage() == 0.0 && r.OcrLines() == [])
  {
    if input.Opened? {
      CoverageBounds(Visual(input.visual), input.ocr, input.width, input.height);
    }
  }

  /** A successful analysis reports a label iff a metadata field was
      listed, a watermark region was kept or the OCR lines mention AI; its
      coverage lies in [0, 100] and is at least 5 on an OCR hit; it complies
      iff the coverage is at least 10 (so exactly 10 complies). */
  lemma SuccessShape(input: ImageInput)
    requires Analysis(input).Success?
    ensures var r := Analysis(input);
      && input.Opened?
      && r.metadata == Metadata(input.exif, input.info)
      && r.visual == Visual(input.visual)
      && r.ocrResults == input.ocr
      && r.width == input.width && r.height == input.height
      && (r.hasLabel <==>
            |r.metadata.aiRelatedFields| > 0 || |r.visual.regions| > 0 || OcrHasAiLabel(input.ocr))
      && 0.0 <= r.labelCoverage <= 100.0
      && (OcrHasAiLabel(input.ocr) ==> r.labelCoverage >= 5.0)
      && (r.compliesWith10Percent <==> r.labelCoverage >= 10.0)
  {
    MetadataScan(input.exif, input.info);
    var v := Visual(input.visual);
    if input.visual.Frame? {
      VisualFrame(input.visual);
    }
    CoverageBounds(v, input.ocr, input.width, input.height);
  }

  // ---------------------------------------------------------------------
  // Report

  /** A line that begins with neither a tick nor a cross. */
  predicate Unmarked(line: string) {
    line == [] || (line[0] != '\U{2713}' && line[0] != '\U{2717}')
  }

  lemma {:induction false} FieldLinesUnmarked(fs: seq<Field>)
    ensures |FieldLines(fs)| == |fs|
    ensures forall i :: 0 <= i < |FieldLines(fs)| ==> Unmarked(FieldLines(fs)[i])
  {
    if fs != [] {
      FieldLinesUnmarked(fs[..|fs| - 1]);
      assert FieldLine(fs[|fs| - 1])[0] == ' ';
    }
  }

  lemma {:induction false} QuotedLinesUnmarked(lines: seq<string>)
    ensures forall i :: 0 <= i < |QuotedLines(lines)| ==> Unmarked(QuotedLines(lines)[i])
  {
    if lines != [] {
      QuotedLinesUnmarked(lines[..|lines| - 1]);
      assert QuotedLine(lines[|lines| - 1])[0] == ' ';
    }
  }

  /** Every line after the head is unmarked. */
  lemma SectionsUnmarked(r: AnalysisResult)
    requires r.Success?
    ensures forall i :: 0 <= i < |SectionLines(r)| ==> Unmarked(SectionLines(r)[i])
  {
    FieldLinesUnmarked(r.metadata.aiRelatedFields);
    QuotedLinesUnmarked(Take(r.ocrResults, QuotedLineLimit));
    assert RegionCountLine(|r.visual.regions|)[0] == ' ';
    var rest := MetadataLines(r.metadata) + OcrLines(r.ocrResults) + VisualLines(r.visual);
    forall i | 0 <= i < |rest|
      ensures Unmarked(rest[i])
    {
      var m, o := MetadataLines(r.metadata), OcrLines(r.ocrResults);
      if i < |m| {
        assert rest[i] == m[i];
      } else if i < |m| + |o| {
        assert rest[i] == o[i - |m|];
      } else {
        assert rest[i] == VisualLines(r.visual)[i - |m| - |o|];
      }
    }
  }

  /** A line beginning with a tick or a cross is among `head + rest` iff
      it is among `head`, when no line of `rest` begins with one. */
  lemma MarkedLineInHead(head: seq<string>, rest: seq<string>, s: string)
    requires s != [] && !Unmarked(s)
    requires forall i :: 0 <= i < |rest| ==> Unmarked(rest[i])
    ensures s in head + rest <==> s in head
  {
  }

  /** A failed analysis is reported in one line naming the error. A
      successful one is reported line by line under the title: the line
      "✓ AI label detected" appears iff a label was found and "✗ No AI label
      detected" otherwise, and "✓ Meets 10% coverage requirement" appears
      iff the image complies and the "✗ Does not meet" line otherwise. */
  lemma ReportStatements(r: AnalysisResult, format: real -> string)
    ensures r.Failure? ==> Report(r, format) == FailedReport(r.error)
    ensures r.Success? ==>
      var lines := ReportLines(r, format);
      && Report(r, format) == Join(lines, "\n")
      && lines[0] == ReportTitle
      && (LabelDetected in lines <==> r.hasLabel)
      && (NoLabelDetected in lines <==> !r.hasLabel)
      && (MeetsCoverage in lines <==> r.compliesWith10Percent)
      && (MissesCoverage in lines <==> !r.compliesWith10Percent)
  {
    if r.Success? {
      var head := HeadLines(r.hasLabel, r.labelCoverage, r.compliesWith10Percent, format);
      var rest := SectionLines(r);
      SectionsUnmarked(r);
      HeadStatements(r.hasLabel, r.labelCoverage, r.compliesWith10Percent, format);
      MarkedLineInHead(head, rest, LabelDetected);
      MarkedLineInHead(head, rest, NoLabelDetected);
      MarkedLineInHead(head, rest, MeetsCoverage);
      MarkedLineInHead(head, rest, MissesCoverage);
    }
  }

  /** The head of a report: the title, then the label line and the
      coverage verdict each as the analysis found them. */
  lemma HeadStatements(hasLabel: bool, coverage: real, complies: bool, format: real -> string)
    ensures var head := HeadLines(hasLabel, coverage, complies, format);
      && head[0] == ReportTitle
      && (LabelDetected in head <==> hasLabel)
      && (NoLabelDetected in head <==> !hasLabel)
      && (MeetsCoverage in head <==> complies)
      && (MissesCoverage in head <==> !complies)
  {
    assert ("Label coverage: " + format(coverage) + "%")[0] == 'L';
  }
}
