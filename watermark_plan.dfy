/** What `VideoTool.applyWatermark` asks ffmpeg to do, as a recorded sequence of
    builder calls: the output name and path, which filter (if any) is added,
    and the overlay filter-graph string. */
module WatermarkPlan {
  import opened JsValues

  datatype Position = Position(x: Number, y: Number)

  datatype TextOptions = TextOptions(
    text: string,
    fontPath: string,
    fontSize: Number,
    fontColor: string,
    position: Position)

  datatype ImageOptions = ImageOptions(
    imagePath: string,
    position: Position,
    scale: Option<Number>)

  /** The `watermark` option. Its `type` tag decides how `options` is read:
      'text' and 'image' carry their option records; any other tag (the UI's
      'none', for one) selects neither branch. */
  datatype WatermarkShape =
    | TextMark(textOptions: TextOptions)
    | ImageMark(imageOptions: ImageOptions)
    | OtherMark(kind: string)

  type Watermark = w: WatermarkShape | !w.OtherMark? || (w.kind != "text" && w.kind != "image")
    witness OtherMark("none")

  datatype VideoToolOptions = VideoToolOptions(
    watermark: Option<Watermark>,
    outputPath: string,
    outputFileName: Option<string>)

  /** The options record of the `drawtext` filter, field names as ffmpeg reads them. */
  datatype DrawTextOptions = DrawTextOptions(
    fontfile: string,
    text: string,
    fontsize: Number,
    fontcolor: string,
    x: Number,
    y: Number)

  /** One builder call on the fluent-ffmpeg command: `ffmpeg(path)`, `.input(path)`,
      `.videoFilters({filter, options})`, `.complexFilter(graph)`, `.save(target)`. */
  datatype Op =
    | Open(source: string)
    | Input(path: string)
    | VideoFilters(filter: string, options: DrawTextOptions)
    | ComplexFilter(graph: string)
    | Save(target: string)

  datatype OpKind = OpenKind | InputKind | VideoFiltersKind | ComplexFilterKind | SaveKind

  function KindOf(op: Op): OpKind {
    match op
    case Open(_) => OpenKind
    case Input(_) => InputKind
    case VideoFilters(_, _) => VideoFiltersKind
    case ComplexFilter(_) => ComplexFilterKind
    case Save(_) => SaveKind
  }

  /** How many calls of kind k the sequence holds. */
  function Count(ops: seq<Op>, k: OpKind): (n: nat)
    ensures n <= |ops|
    ensures n == 0 <==> forall i :: 0 <= i < |ops| ==> KindOf(ops[i]) != k
    decreases |ops|
  {
    if ops == [] then 0
    else (if KindOf(ops[0]) == k then 1 else 0) + Count(ops[1..], k)
  }

  lemma {:induction false} CountConcat(a: seq<Op>, b: seq<Op>, k: OpKind)
    ensures Count(a + b, k) == Count(a, k) + Count(b, k)
    decreases |a|
  {
    if a == [] {
      assert a + b == b;
    } else {
      assert (a + b)[0] == a[0];
      assert (a + b)[1..] == a[1..] + b;
      CountConcat(a[1..], b, k);
    }
  }

  /** `options.outputFileName || `watermarked_${videoName}``. */
  function OutputFileName(videoName: string, options: VideoToolOptions): (name: string)
  {
    match options.outputFileName
    case Some(n) => if n != "" then n else "watermarked_" + videoName
    case None => "watermarked_" + videoName
  }

  /** `path.join(options.outputPath, outputFileName)`, with join left abstract. */
  function OutputPath(videoName: string, options: VideoToolOptions, join: (string, string) -> string): string
  {
    join(options.outputPath, OutputFileName(videoName, options))
  }

  /** `imageOpts.scale && imageOpts.scale !== 1`. */
  predicate Scaled(scale: Option<Number>) {
    scale.Some? && scale.value.Truthy() && !scale.value.IsOne()
  }

  function OverlayTarget(position: Position): string {
    position.x.ToStr() + ":" + position.y.ToStr()
  }

  /** The filter graph handed to `complexFilter` for an image watermark. */
  function OverlayGraph(image: ImageOptions): string {
    var overlay := "overlay=" + OverlayTarget(image.position);
    if Scaled(image.scale)
    then "[1:v]scale=iw*" + image.scale.value.ToStr() + ":-1[wm];[0:v][wm]" + overlay
    else overlay
  }

  function DrawText(t: TextOptions): DrawTextOptions {
    DrawTextOptions(t.fontPath, t.text, t.fontSize, t.fontColor, t.position.x, t.position.y)
  }

  /** The calls issued between opening the command and saving it. */
  function WatermarkOps(watermark: Option<Watermark>): seq<Op> {
    match watermark
    case None => []
    case Some(TextMark(t)) => [VideoFilters("drawtext", DrawText(t))]
    case Some(ImageMark(i)) => [Input(i.imagePath), ComplexFilter(OverlayGraph(i))]
    case Some(OtherMark(_)) => []
  }

  /** Every builder call `applyWatermark` makes on its command, in order. */
  function Plan(videoPath: string, videoName: string, options: VideoToolOptions,
                join: (string, string) -> string): seq<Op>
  {
    [Open(videoPath)] + WatermarkOps(options.watermark) + [Save(OutputPath(videoName, options, join))]
  }

  function Last(ops: seq<Op>): Op
    requires ops != []
  {
    ops[|ops| - 1]
  }

  // ---------------------------------------------------------------------------
  // Properties of the plan

  /** The output name is the given one when it is a non-empty string and the
      prefixed video name otherwise; it is never empty. */
  lemma OutputFileNameChoice(videoName: string, options: VideoToolOptions)
    ensures var name := OutputFileName(videoName, options);
      && (options.outputFileName.Some? && options.outputFileName.value != "" ==>
            name == options.outputFileName.value)
      && (options.outputFileName.None? || options.outputFileName.value == "" ==>
            name == "watermarked_" + videoName)
      && name != []
  {
  }

  lemma {:induction false} CountPlan(videoPath: string, videoName: string, options: VideoToolOptions,
                                     join: (string, string) -> string, k: OpKind)
    ensures Count(Plan(videoPath, videoName, options, join), k)
         == (if k == OpenKind then 1 else 0) + Count(WatermarkOps(options.watermark), k)
          + (if k == SaveKind then 1 else 0)
  {
    var w := WatermarkOps(options.watermark);
    var save := [Save(OutputPath(videoName, options, join))];
    CountConcat([Open(videoPath)], w, k);
    CountConcat([Open(videoPath)] + w, save, k);
    assert Count([Open(videoPath)], k) == (if k == OpenKind then 1 else 0) by {
      assert [Open(videoPath)][1..] == [];
    }
    assert Count(save, k) == (if k == SaveKind then 1 else 0) by {
      assert save[1..] == [];
    }
  }

  /** Whatever the options, the command is opened on the video first, saved
      last to the output path, and opened and saved exactly once. */
  lemma PlanFrame(videoPath: string, videoName: string, options: VideoToolOptions,
                  join: (string, string) -> string)
    ensures var ops := Plan(videoPath, videoName, options, join);
      && 2 <= |ops| <= 4
      && ops[0] == Open(videoPath)
      && Last(ops) == Save(join(options.outputPath, OutputFileName(videoName, options)))
      && Count(ops, OpenKind) == 1
      && Count(ops, SaveKind) == 1
  {
    CountPlan(videoPath, videoName, options, join, OpenKind);
    CountPlan(videoPath, videoName, options, join, SaveKind);
  }

  /** Without a watermark no filter and no extra input is added: only the save. */
  lemma PlanWithoutWatermark(videoPath: string, videoName: string, options: VideoToolOptions,
                             join: (string, string) -> string)
    requires options.watermark.None?
    ensures var ops := Plan(videoPath, videoName, options, join);
      && Count(ops, VideoFiltersKind) == 0
      && Count(ops, ComplexFilterKind) == 0
      && Count(ops, InputKind) == 0
      && ops == [Open(videoPath), Save(OutputPath(videoName, options, join))]
  {
    CountPlan(videoPath, videoName, options, join, VideoFiltersKind);
    CountPlan(videoPath, videoName, options, join, ComplexFilterKind);
    CountPlan(videoPath, videoName, options, join, InputKind);
  }

  /** A text watermark adds exactly one `drawtext` video filter whose options
      are the text options field for field, and nothing else. */
  lemma PlanTextWatermark(videoPath: string, videoName: string, options: VideoToolOptions,
                          join: (string, string) -> string)
    requires options.watermark.Some? && options.watermark.value.TextMark?
    ensures var ops := Plan(videoPath, videoName, options, join);
      var t := options.watermark.value.textOptions;
      && Count(ops, VideoFiltersKind) == 1
      && ops[1] == VideoFilters("drawtext", DrawTextOptions(
           t.fontPath, t.text, t.fontSize, t.fontColor, t.position.x, t.position.y))
      && Count(ops, ComplexFilterKind) == 0
      && Count(ops, InputKind) == 0
  {
    var t := options.watermark.value.textOptions;
    var w := [VideoFilters("drawtext", DrawText(t))];
    assert w[1..] == [];
    CountPlan(videoPath, videoName, options, join, VideoFiltersKind);
    CountPlan(videoPath, videoName, options, join, ComplexFilterKind);
    CountPlan(videoPath, videoName, options, join, InputKind);
  }

  /** An image watermark adds the image as a second input, then exactly one
      complex filter with the overlay graph, and no video filter. */
  lemma PlanImageWatermark(videoPath: string, videoName: string, options: VideoToolOptions,
                           join: (string, string) -> string)
    requires options.watermark.Some? && options.watermark.value.ImageMark?
    ensures var ops := Plan(videoPath, videoName, options, join);
      var i := options.watermark.value.imageOptions;
      && ops[1] == Input(i.imagePath)
      && ops[2] == ComplexFilter(OverlayGraph(i))
      && Count(ops, InputKind) == 1
      && Count(ops, ComplexFilterKind) == 1
      && Count(ops, VideoFiltersKind) == 0
  {
    var i := options.watermark.value.imageOptions;
    var w := [Input(i.imagePath), ComplexFilter(OverlayGraph(i))];
    assert w[1..][1..] == [];
    CountPlan(videoPath, videoName, options, join, VideoFiltersKind);
    CountPlan(videoPath, videoName, options, join, ComplexFilterKind);
    CountPlan(videoPath, videoName, options, join, InputKind);
  }

  /** A watermark whose type is neither 'text' nor 'image' adds nothing. */
  lemma PlanOtherWatermark(videoPath: string, videoName: string, options: VideoToolOptions,
                           join: (string, string) -> string)
    requires options.watermark.Some? && options.watermark.value.OtherMark?
    ensures Plan(videoPath, videoName, options, join)
         == [Open(videoPath), Save(OutputPath(videoName, options, join))]
  {
  }

  predicate StartsWith(s: string, prefix: string) {
    |prefix| <= |s| && s[..|prefix|] == prefix
  }

  predicate EndsWith(s: string, suffix: string) {
    |suffix| <= |s| && s[|s| - |suffix|..] == suffix
  }

  /** The overlay graph always ends in `overlay=X:Y`; it starts with the
      scaling chain exactly when the scale is truthy and not 1, and is the bare
      overlay otherwise. */
  lemma OverlayGraphShape(image: ImageOptions)
    ensures var g := OverlayGraph(image);
      var overlay := "overlay=" + image.position.x.ToStr() + ":" + image.position.y.ToStr();
      && EndsWith(g, overlay)
      && (StartsWith(g, "[1:v]scale=iw*") <==> Scaled(image.scale))
      && (!Scaled(image.scale) ==> g == overlay)
      && (Scaled(image.scale) ==>
            g == "[1:v]scale=iw*" + image.scale.value.ToStr() + ":-1[wm];[0:v][wm]" + overlay)
  {
    var g := OverlayGraph(image);
    var overlay := "overlay=" + image.position.x.ToStr() + ":" + image.position.y.ToStr();
    assert "overlay=" + OverlayTarget(image.position) == overlay;
    if Scaled(image.scale) {
      var head := "[1:v]scale=iw*" + image.scale.value.ToStr() + ":-1[wm];[0:v][wm]";
      assert g == head + overlay;
      assert g[|g| - |overlay|..] == overlay;
      assert g[..14] == "[1:v]scale=iw*";
    } else {
      assert g == overlay;
      assert g[|g| - |overlay|..] == overlay;
      assert g[0] == 'o';
      assert !StartsWith(g, "[1:v]scale=iw*") by {
        if |g| >= 14 { assert g[..14][0] == 'o'; }
      }
    }
  }

  /** A truthy scale of exactly 1, an absent scale and a falsy scale all give
      the bare overlay. */
  lemma UnscaledCases(image: ImageOptions)
    requires image.scale.None? || !image.scale.value.Truthy() || image.scale.value.IsOne()
    ensures OverlayGraph(image) == "overlay=" + image.position.x.ToStr() + ":" + image.position.y.ToStr()
  {
  }

  // ---------------------------------------------------------------------------
  // The cases of the module's jest file, worked through the model

  const testVideoPath := "/fake/video.mp4"
  const testVideoName := "video.mp4"
  const testOutputDir := "/fake/output"

  lemma TextWatermarkCase(join: (string, string) -> string)
    ensures var t := TextOptions("Test Watermark", "/fake/font.ttf", Number("24"), "white",
                                 Position(Number("10"), Number("10")));
      var options := VideoToolOptions(Some(TextMark(t)), testOutputDir, None);
      Plan(testVideoPath, testVideoName, options, join)
        == [Open("/fake/video.mp4"),
            VideoFilters("drawtext", DrawTextOptions("/fake/font.ttf", "Test Watermark",
                                                     Number("24"), "white", Number("10"), Number("10"))),
            Save(join("/fake/output", "watermarked_video.mp4"))]
  {
    assert "watermarked_" + testVideoName == "watermarked_video.mp4";
  }

  lemma UnscaledImageCase()
    ensures OverlayGraph(ImageOptions("/fake/watermark.png", Position(Number("20"), Number("20")), None))
         == "overlay=20:20"
  {
    assert OverlayTarget(Position(Number("20"), Number("20"))) == "20:20";
  }

  lemma ScaledImageCase()
    ensures OverlayGraph(ImageOptions("/fake/watermark.png", Position(Number("30"), Number("30")), Some(Number("0.5"))))
         == "[1:v]scale=iw*0.5:-1[wm];[0:v][wm]overlay=30:30"
  {
    var half := Number("0.5");
    assert Scaled(Some(half)) by {
      assert half.text != "0" && half.text != "NaN" && half.text != "1";
    }
    var overlay := "overlay=" + OverlayTarget(Position(Number("30"), Number("30")));
    assert overlay == "overlay=30:30";
    var prefix := "[1:v]scale=iw*" + half.ToStr();
    assert prefix == "[1:v]scale=iw*0.5";
    var head := prefix + ":-1[wm];[0:v][wm]";
    assert head == "[1:v]scale=iw*0.5:-1[wm];[0:v][wm]";
    assert head + overlay == "[1:v]scale=iw*0.5:-1[wm];[0:v][wm]overlay=30:30";
  }

  lemma CustomFileNameCase(join: (string, string) -> string)
    ensures OutputPath(testVideoName, VideoToolOptions(None, testOutputDir, Some("custom_video.mp4")), join)
         == join("/fake/output", "custom_video.mp4")
    ensures OutputPath(testVideoName, VideoToolOptions(None, testOutputDir, None), join)
         == join("/fake/output", "watermarked_video.mp4")
  {
    assert "watermarked_" + testVideoName == "watermarked_video.mp4";
  }
}
