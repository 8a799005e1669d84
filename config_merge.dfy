/** The renderer's configuration record and `onConfigUpdate`, which copies a
    configuration received from the main process onto it. The received value
    is untyped (`any`), so it is a JsValue here. */
module ConfigMerge {
  import opened JsValues

  /** The fields of the renderer's `IConfig` store value. */
  datatype ConfigValue = ConfigValue(
    options: JsValue,
    output: JsValue,
    fontMap: JsValue,
    fontDir: JsValue,
    tempFields: JsValue,
    customTempFields: JsValue,
    temps: JsValue,
    staticDir: JsValue,
    videoWatermark: JsValue)

  function NumValue(text: string): JsValue {
    Num(Number(text))
  }

  /** The value the store is created with. */
  function DefaultConfig(): ConfigValue {
    ConfigValue(
      options := Obj(map[
        "iot" := Bool(false),
        "landscape" := Bool(false),
        "solid_bg" := Bool(false),
        "origin_wh_output" := Bool(true),
        "radius" := NumValue("2.1"),
        "radius_show" := Bool(true),
        "shadow" := NumValue("6"),
        "shadow_show" := Bool(true),
        "bg_rate_show" := Bool(true),
        "font" := Str(""),
        "bg_rate" := Obj(map["w" := NumValue("0"), "h" := NumValue("0")])]),
      output := Str(""),
      fontMap := Obj(map[]),
      fontDir := Str(""),
      tempFields := Arr([]),
      customTempFields := Arr([]),
      temps := Arr([]),
      staticDir := Str(""),
      videoWatermark := Obj(map[
        "type" := Str("none"),
        "textOptions" := Obj(map[
          "text" := Str("Sample Watermark"),
          "fontPath" := Str(""),
          "fontSize" := NumValue("24"),
          "fontColor" := Str("#FFFFFF"),
          "x" := NumValue("10"),
          "y" := NumValue("10")]),
        "imageOptions" := Obj(map[
          "imagePath" := Str(""),
          "x" := NumValue("10"),
          "y" := NumValue("10"),
          "scale" := NumValue("1")])]))
  }

  /** A property read on a value already known not to be `undefined` or `null`. */
  function Prop(v: JsValue, key: string): JsValue
    requires !Nullish(v)
  {
    Get(v, key).value
  }

  /** The record after `onConfigUpdate(v, newConf)` and whether the call threw.
      Reading a property of a nullish `newConf` or of a nullish `newConf.font`
      throws a TypeError; the assignments made before the throw stay. */
  datatype UpdateResult = UpdateResult(value: ConfigValue, threw: bool)

  function Merge(v: ConfigValue, newConf: JsValue): UpdateResult {
    if Nullish(newConf) then UpdateResult(v, true)
    else
      var partial := v.(options := Prop(newConf, "options"), output := Prop(newConf, "output"));
      var font := Prop(newConf, "font");
      if Nullish(font) then UpdateResult(partial, true)
      else UpdateResult(partial.(
        fontMap := Prop(font, "map"),
        fontDir := Prop(font, "dir"),
        tempFields := Prop(newConf, "tempFields"),
        customTempFields := Prop(newConf, "customTempFields"),
        temps := Prop(newConf, "temps"),
        staticDir := Prop(newConf, "staticDir"),
        videoWatermark := Or(Prop(newConf, "videoWatermark"), v.videoWatermark)), false)
  }

  // ---------------------------------------------------------------------------
  // Properties

  /** The call throws exactly when `newConf` or `newConf.font` is nullish. */
  lemma MergeThrowsIff(v: ConfigValue, newConf: JsValue)
    ensures Merge(v, newConf).threw <==> Nullish(newConf) || Nullish(Prop(newConf, "font"))
    ensures Nullish(newConf) ==> Merge(v, newConf).value == v
    ensures !Nullish(newConf) && Nullish(Prop(newConf, "font")) ==>
      Merge(v, newConf).value == v.(options := Prop(newConf, "options"), output := Prop(newConf, "output"))
  {
  }

  /** Received as an object with a `font` object: options, output, tempFields,
      customTempFields, temps and staticDir are copied unchanged, and fontMap and
      fontDir come from the nested `font.map` and `font.dir`. */
  lemma MergeCopiesFields(v: ConfigValue, props: map<string, JsValue>, font: map<string, JsValue>)
    requires "font" in props && props["font"] == Obj(font)
    ensures var u := Merge(v, Obj(props));
      && !u.threw
      && u.value.options == Prop(Obj(props), "options")
      && u.value.output == Prop(Obj(props), "output")
      && u.value.tempFields == Prop(Obj(props), "tempFields")
      && u.value.customTempFields == Prop(Obj(props), "customTempFields")
      && u.value.temps == Prop(Obj(props), "temps")
      && u.value.staticDir == Prop(Obj(props), "staticDir")
      && u.value.fontMap == Prop(Obj(font), "map")
      && u.value.fontDir == Prop(Obj(font), "dir")
  {
  }

  /** `videoWatermark` is taken from the received value when that is truthy and
      kept otherwise (missing in older configurations, null, ...). */
  lemma MergeWatermarkFallback(v: ConfigValue, newConf: JsValue)
    requires !Merge(v, newConf).threw
    ensures var w := Prop(newConf, "videoWatermark");
      && (Truthy(w) ==> Merge(v, newConf).value.videoWatermark == w)
      && (!Truthy(w) ==> Merge(v, newConf).value.videoWatermark == v.videoWatermark)
  {
  }

  /** Applying the same received value twice gives what applying it once gives. */
  lemma MergeIdempotent(v: ConfigValue, newConf: JsValue)
    ensures Merge(Merge(v, newConf).value, newConf) == Merge(v, newConf)
  {
  }

  /** A successful update depends on the old record only through the
      `videoWatermark` fallback. */
  lemma MergeForgetsOldRecord(v1: ConfigValue, v2: ConfigValue, newConf: JsValue)
    requires !Merge(v1, newConf).threw
    ensures !Merge(v2, newConf).threw
    ensures Merge(v1, newConf).value.(videoWatermark := v1.videoWatermark)
         == Merge(v2, newConf).value.(videoWatermark := v1.videoWatermark)
    ensures Truthy(Prop(newConf, "videoWatermark")) ==> Merge(v1, newConf) == Merge(v2, newConf)
  {
  }

  /** The store starts with a watermark whose type is 'none', a tag the video
      tool treats as neither text nor image. */
  lemma DefaultWatermarkTypeIsNone()
    ensures Get(DefaultConfig().videoWatermark, "type") == Some(Str("none"))
  {
  }
}
