/**
 * Part segmentation of `split_parts.py`: the fixed template of six proportional crop
 * regions, the parts metadata it records, and the dispatch between the template and
 * the two service placeholders (which always fail).
 */
module Parts {
  import opened Base

  /** A crop region in image coordinates: (left, top, right, bottom), unrounded. */
  datatype Region = Region(left: real, top: real, right: real, bottom: real)

  /** The integer box handed to the image library's crop. */
  datatype CropBox = CropBox(left: int, top: int, right: int, bottom: int)

  /** One entry of `parts` in `metadata.json`. */
  datatype PartRecord = PartRecord(name: string, file: string, region: Region)

  /** `metadata.json` as a reader sees it: each top-level key may be absent. */
  datatype PartsMetadata = PartsMetadata(source: Option<string>, methodName: Option<string>,
                                         parts: Option<seq<PartRecord>>)

  datatype ImageSize = ImageSize(width: nat, height: nat)

  /** `DEFAULT_PARTS`: the part names the pipeline knows of. */
  const DefaultParts: seq<string> := ["head", "body", "arm_L", "arm_R", "leg_L", "leg_R", "weapon"]

  /** The names the template cuts, in its order. */
  const TemplateParts: seq<string> := ["head", "body", "arm_L", "arm_R", "leg_L", "leg_R"]

  predicate InCanvas(g: Region, w: nat, h: nat)
  {
    0.0 <= g.left <= g.right <= w as real && 0.0 <= g.top <= g.bottom <= h as real
  }

  /** `parts_regions` for an image of `w` by `h` pixels, in dict order. */
  function TemplateRegions(w: nat, h: nat): (r: seq<(string, Region)>)
    ensures |r| == |TemplateParts|
    ensures forall i :: 0 <= i < |r| ==> r[i].0 == TemplateParts[i] && InCanvas(r[i].1, w, h)
  {
    var W, H := w as real, h as real;
    [ ("head", Region(W * 0.3, 0.0, W * 0.7, H * 0.25)),
      ("body", Region(W * 0.2, H * 0.2, W * 0.8, H * 0.5)),
      ("arm_L", Region(0.0, H * 0.2, W * 0.3, H * 0.5)),
      ("arm_R", Region(W * 0.7, H * 0.2, W, H * 0.5)),
      ("leg_L", Region(W * 0.2, H * 0.5, W * 0.5, H)),
      ("leg_R", Region(W * 0.5, H * 0.5, W * 0.8, H)) ]
  }

  /** Python's `int(x)` on a float: truncation toward zero. */
  function Trunc(x: real): int
  {
    if x >= 0.0 then x.Floor else -((-x).Floor)
  }

  /** `tuple(int(x) for x in region)`. */
  function CropOf(g: Region): CropBox
  {
    CropBox(Trunc(g.left), Trunc(g.top), Trunc(g.right), Trunc(g.bottom))
  }

  predicate CropInCanvas(b: CropBox, w: nat, h: nat)
  {
    0 <= b.left <= b.right <= w && 0 <= b.top <= b.bottom <= h
  }

  /** Truncating a region that lies on the canvas gives a box on the canvas. */
  lemma CropStaysInCanvas(g: Region, w: nat, h: nat)
    requires InCanvas(g, w, h)
    ensures CropInCanvas(CropOf(g), w, h)
  {
    FloorMonotone(g.left, g.right);
    FloorMonotone(g.top, g.bottom);
    FloorMonotone(g.right, w as real);
    FloorMonotone(g.bottom, h as real);
  }

  lemma FloorMonotone(x: real, y: real)
    requires x <= y
    ensures x.Floor <= y.Floor
  {
  }

  datatype SplitResult =
    | SplitDone(methodName: string, parts: seq<PartRecord>, metadata: PartsMetadata,
                crops: seq<CropBox>, written: seq<Path>)
    | SplitFailed(failedMethod: Option<string>)

  /** The record the template writes for its `i`-th region. */
  function TemplateRecord(w: nat, h: nat, i: nat): PartRecord
    requires i < |TemplateParts|
  {
    var (name, region) := TemplateRegions(w, h)[i];
    PartRecord(name, name + ".png", region)
  }

  /** The six template records, in template order. */
  function TemplateRecords(w: nat, h: nat): (r: seq<PartRecord>)
    ensures |r| == |TemplateParts|
    ensures forall i :: 0 <= i < |r| ==> r[i] == TemplateRecord(w, h, i)
  {
    seq(|TemplateParts|, i requires 0 <= i < |TemplateParts| => TemplateRecord(w, h, i))
  }

  /** The pixel box cut for each record. */
  function CropsOf(parts: seq<PartRecord>): (r: seq<CropBox>)
    ensures |r| == |parts|
    ensures forall i :: 0 <= i < |r| ==> r[i] == CropOf(parts[i].region)
  {
    seq(|parts|, i requires 0 <= i < |parts| => CropOf(parts[i].region))
  }

  /** The image file written for each record. */
  function PartFiles(outputDir: Path, parts: seq<PartRecord>): (r: seq<Path>)
    ensures |r| == |parts|
    ensures forall i :: 0 <= i < |r| ==> r[i] == outputDir + [parts[i].file]
  {
    seq(|parts|, i requires 0 <= i < |parts| => outputDir + [parts[i].file])
  }

  /**
   * What `split_manual_template` returns: the six records and crops, the files it writes
   * (one image per part, then `metadata.json`), or failure when the image cannot be opened.
   */
  function TemplateSplit(imagePath: Path, outputDir: Path, image: Option<ImageSize>): (r: SplitResult)
    ensures r.SplitFailed? <==> image.None?
    ensures r.SplitFailed? ==> r.failedMethod.None?
    ensures r.SplitDone? ==>
      && r.methodName == "template"
      && |r.parts| == |r.crops| == |TemplateParts|
      && (forall i :: 0 <= i < |r.parts| ==> r.parts[i].name == TemplateParts[i])
      && (forall i :: 0 <= i < |r.parts| ==>
            r.parts[i].region == TemplateRegions(image.value.width, image.value.height)[i].1)
      && (forall p :: p in r.parts ==> p.name in DefaultParts && p.name != "weapon" && p.file == p.name + ".png")
      && (forall i :: 0 <= i < |r.parts| ==>
            && InCanvas(r.parts[i].region, image.value.width, image.value.height)
            && r.crops[i] == CropOf(r.parts[i].region)
            && CropInCanvas(r.crops[i], image.value.width, image.value.height))
      && r.metadata == PartsMetadata(Some(PathText(imagePath)), Some("template"), Some(r.parts))
  {
    match image
    case None => SplitFailed(None)
    case Some(ImageSize(w, h)) =>
      var parts := TemplateRecords(w, h);
      var crops := CropsOf(parts);
      var files := PartFiles(outputDir, parts);
      forall i | 0 <= i < |parts|
        ensures CropInCanvas(crops[i], w, h)
      {
        CropStaysInCanvas(parts[i].region, w, h);
      }
      SplitDone("template", parts, PartsMetadata(Some(PathText(imagePath)), Some("template"), Some(parts)),
                crops, files + [outputDir + ["metadata.json"]])
  }

  /** `split_manual_template`: crops and saves each region in turn, then writes the metadata. */
  method SplitManualTemplate(imagePath: Path, outputDir: Path, image: Option<ImageSize>) returns (r: SplitResult)
    ensures r == TemplateSplit(imagePath, outputDir, image)
  {
    if image.None? {
      return SplitFailed(None);
    }
    var w, h := image.value.width, image.value.height;
    var regions := TemplateRegions(w, h);
    var partsInfo: seq<PartRecord> := [];
    var crops: seq<CropBox> := [];
    var written: seq<Path> := [];
    var i := 0;
    while i < |regions|
      invariant 0 <= i <= |regions|
      invariant |partsInfo| == |crops| == |written| == i
      invariant forall j :: 0 <= j < i ==> partsInfo[j] == TemplateRecord(w, h, j)
      invariant forall j :: 0 <= j < i ==> crops[j] == CropOf(partsInfo[j].region)
      invariant forall j :: 0 <= j < i ==> written[j] == outputDir + [partsInfo[j].file]
    {
      var (name, region) := regions[i];
      var box := CropOf(region);
      var partPath := outputDir + [name + ".png"];
      crops := crops + [box];
      written := written + [partPath];
      partsInfo := partsInfo + [PartRecord(name, name + ".png", region)];
      i := i + 1;
    }
    assert partsInfo == TemplateRecords(w, h);
    assert crops == CropsOf(partsInfo);
    assert written == PartFiles(outputDir, partsInfo);
    var metadata := PartsMetadata(Some(PathText(imagePath)), Some("template"), Some(partsInfo));
    written := written + [outputDir + ["metadata.json"]];
    r := SplitDone("template", partsInfo, metadata, crops, written);
  }

  datatype SplitOutcome = ImageNotFound | Ran(result: SplitResult)

  const DefaultSplitMethod := "template"

  /**
   * `main`: nothing happens without the input image; "komiko" and "sam" run their
   * placeholders, which fail tagged with their name; anything else runs the template.
   */
  method SplitMain(imagePath: Path, imageExists: bool, outputDir: Path, methodArg: Option<string>,
                   image: Option<ImageSize>) returns (o: SplitOutcome)
    ensures !imageExists <==> o == ImageNotFound
    ensures imageExists && methodArg.GetOr(DefaultSplitMethod) in {"komiko", "sam"} ==>
              o == Ran(SplitFailed(Some(methodArg.value)))
    ensures imageExists && methodArg.GetOr(DefaultSplitMethod) !in {"komiko", "sam"} ==>
              o == Ran(TemplateSplit(imagePath, outputDir, image))
  {
    if !imageExists {
      return ImageNotFound;
    }
    var m := methodArg.GetOr(DefaultSplitMethod);
    if m == "komiko" {
      o := Ran(SplitFailed(Some("komiko")));
    } else if m == "sam" {
      o := Ran(SplitFailed(Some("sam")));
    } else {
      var r := SplitManualTemplate(imagePath, outputDir, image);
      o := Ran(r);
    }
  }
}
