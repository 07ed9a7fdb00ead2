/** The request sent to the image model and the response read back: the
    records of `image_generator_parameter.rs` with the JSON shape serde's
    derives give them (camelCase keys, SCREAMING_SNAKE_CASE task types,
    optional fields left out when `None`). */
module ImageGeneratorParameter {
  import opened Wrappers
  import J = Json
  import opened Tool

  const U128_LIMIT: int := 0x1_0000_0000_0000_0000_0000_0000_0000_0000

  type U8 = n: int | 0 <= n < 256
  type U128 = n: int | 0 <= n < U128_LIMIT

  datatype TaskType = TextImage | Inpainting | Outpainting | ImageVariation

  datatype ImageQuality = Standard | Premium

  datatype TextToImageParams = TextToImageParams(text: string)

  datatype ImageGenerationConfig = ImageGenerationConfig(
    numberOfImages: Option<U8>,
    quality: Option<ImageQuality>,
    height: Option<U128>,
    width: Option<U128>)

  datatype Parameters = Parameters(
    taskType: TaskType,
    textToImageParams: TextToImageParams,
    imageGenerationConfig: Option<ImageGenerationConfig>)

  datatype ImageGeneratorResponse = ImageGeneratorResponse(images: seq<string>)

  /** `ImageGeneratorParameter::new_generate_image_params`: a text-to-image
      request for the prompt, with the configuration passed through. */
  function NewGenerateImageParams(prompt: string, config: Option<ImageGenerationConfig>): (p: Parameters)
    ensures p.taskType == TextImage
    ensures p.textToImageParams.text == prompt
    ensures p.imageGenerationConfig == config
  {
    Parameters(TextImage, TextToImageParams(prompt), config)
  }

  function TaskTypeName(t: TaskType): string {
    match t
    case TextImage => "TEXT_IMAGE"
    case Inpainting => "INPAINTING"
    case Outpainting => "OUTPAINTING"
    case ImageVariation => "IMAGE_VARIATION"
  }

  function QualityName(q: ImageQuality): string {
    match q
    case Standard => "standard"
    case Premium => "premium"
  }

  /** Reading a task type: the value must name one of the four variants. */
  function TaskTypeFromJson(d: J.Document): (r: Result<TaskType, string>)
    ensures forall t: TaskType :: NamesVariant(d, TaskTypeName(t)) ==> r == Ok(t)
    ensures r.Ok? ==> NamesVariant(d, TaskTypeName(r.value))
  {
    forall t: TaskType, name: string | NamesVariant(d, TaskTypeName(t)) && NamesVariant(d, name)
      ensures TaskTypeName(t) == name
    {
      NamesOneVariant(d, TaskTypeName(t), name);
    }
    if NamesVariant(d, "TEXT_IMAGE") then Ok(TextImage)
    else if NamesVariant(d, "INPAINTING") then Ok(Inpainting)
    else if NamesVariant(d, "OUTPAINTING") then Ok(Outpainting)
    else if NamesVariant(d, "IMAGE_VARIATION") then Ok(ImageVariation)
    else Err("unknown variant, expected one of `TEXT_IMAGE`, `INPAINTING`, `OUTPAINTING`, `IMAGE_VARIATION`")
  }

  /** Reading a quality: the value must name "standard" or "premium". */
  function QualityFromJson(d: J.Document): (r: Result<ImageQuality, string>)
    ensures forall q: ImageQuality :: NamesVariant(d, QualityName(q)) ==> r == Ok(q)
    ensures r.Ok? ==> NamesVariant(d, QualityName(r.value))
  {
    forall q: ImageQuality, name: string | NamesVariant(d, QualityName(q)) && NamesVariant(d, name)
      ensures QualityName(q) == name
    {
      NamesOneVariant(d, QualityName(q), name);
    }
    if NamesVariant(d, "standard") then Ok(Standard)
    else if NamesVariant(d, "premium") then Ok(Premium)
    else Err("unknown variant, expected `standard` or `premium`")
  }

  /** The entries of one optional field: none when the value is `None`. */
  function OptionalEntry(key: string, value: Option<J.Document>): map<string, J.Document> {
    if value.Some? then map[key := value.value] else map[]
  }

  function NumberEntry(key: string, value: Option<int>): (m: map<string, J.Document>)
    ensures key in m <==> value.Some?
    ensures m.Keys <= {key}
    ensures value.Some? ==> m[key] == J.Number(value.value)
  {
    OptionalEntry(key, if value.Some? then Some(J.Number(value.value)) else None)
  }

  /** The configuration as serde writes it: each field is present exactly
      when it is set, under its camelCase name. */
  function ConfigToJson(c: ImageGenerationConfig): (d: J.Document)
    ensures d.Object? && d.fields.Keys <= {"numberOfImages", "quality", "height", "width"}
    ensures "numberOfImages" in d.fields <==> c.numberOfImages.Some?
    ensures "quality" in d.fields <==> c.quality.Some?
    ensures "height" in d.fields <==> c.height.Some?
    ensures "width" in d.fields <==> c.width.Some?
    ensures c.numberOfImages.Some? ==> d.fields["numberOfImages"] == J.Number(c.numberOfImages.value)
    ensures c.quality.Some? ==> d.fields["quality"] == J.String(QualityName(c.quality.value))
    ensures c.height.Some? ==> d.fields["height"] == J.Number(c.height.value)
    ensures c.width.Some? ==> d.fields["width"] == J.Number(c.width.value)
  {
    var quality := if c.quality.Some? then Some(J.String(QualityName(c.quality.value))) else None;
    J.Object(
      NumberEntry("numberOfImages", if c.numberOfImages.Some? then Some(c.numberOfImages.value) else None)
      + OptionalEntry("quality", quality)
      + NumberEntry("height", if c.height.Some? then Some(c.height.value) else None)
      + NumberEntry("width", if c.width.Some? then Some(c.width.value) else None))
  }

  /** Reading an optional integer field: absent or null is `None`, an
      integer below `limit` is `Some`, anything else is an error. */
  function OptionalNumber(fields: map<string, J.Document>, key: string, limit: int): (r: Result<Option<int>, string>)
    ensures r.Ok? <==> key !in fields || fields[key].Null? || (fields[key].Number? && 0 <= fields[key].n < limit)
    ensures r.Ok? && r.value.Some? ==> key in fields && fields[key] == J.Number(r.value.value) && 0 <= r.value.value < limit
    ensures r.Ok? && r.value.None? ==> key !in fields || fields[key].Null?
  {
    if key !in fields || fields[key].Null? then Ok(None)
    else if fields[key].Number? && 0 <= fields[key].n < limit then Ok(Some(fields[key].n))
    else Err("invalid value for `" + key + "`")
  }

  function OptionalQuality(fields: map<string, J.Document>): (r: Result<Option<ImageQuality>, string>)
    ensures r.Ok? <==> "quality" !in fields || fields["quality"].Null? || QualityFromJson(fields["quality"]).Ok?
    ensures r.Ok? && r.value.Some? ==> "quality" in fields && QualityFromJson(fields["quality"]) == Ok(r.value.value)
  {
    if "quality" !in fields || fields["quality"].Null? then Ok(None)
    else
      var q :- QualityFromJson(fields["quality"]);
      Ok(Some(q))
  }

  /** The optional number field `key` was read as `v`: set exactly when the
      field is present and not null, to the number the field holds. */
  predicate NumberFieldRead(fields: map<string, J.Document>, key: string, v: Option<int>) {
    && (v.Some? <==> key in fields && !fields[key].Null?)
    && (v.Some? ==> fields[key] == J.Number(v.value))
  }

  /** Reading a configuration back (serde's derived `Deserialize`): an
      object whose four fields each read, and then each field of the result
      holds what its entry holds. */
  function ConfigFromJson(d: J.Document): (r: Result<ImageGenerationConfig, string>)
    ensures r.Ok? <==> d.Object? && OptionalNumber(d.fields, "numberOfImages", 256).Ok? && OptionalQuality(d.fields).Ok?
                       && OptionalNumber(d.fields, "height", U128_LIMIT).Ok? && OptionalNumber(d.fields, "width", U128_LIMIT).Ok?
    ensures r.Ok? ==>
      && NumberFieldRead(d.fields, "numberOfImages", r.value.numberOfImages)
      && NumberFieldRead(d.fields, "height", r.value.height)
      && NumberFieldRead(d.fields, "width", r.value.width)
      && (r.value.quality.Some? <==> "quality" in d.fields && !d.fields["quality"].Null?)
      && (r.value.quality.Some? ==> QualityFromJson(d.fields["quality"]) == Ok(r.value.quality.value))
  {
    if !d.Object? then Err("invalid type: expected struct ImageGenerationConfig")
    else
      var n :- OptionalNumber(d.fields, "numberOfImages", 256);
      var q :- OptionalQuality(d.fields);
      var h :- OptionalNumber(d.fields, "height", U128_LIMIT);
      var w :- OptionalNumber(d.fields, "width", U128_LIMIT);
      Ok(ImageGenerationConfig(
        if n.Some? then Some(n.value as U8) else None,
        q,
        if h.Some? then Some(h.value as U128) else None,
        if w.Some? then Some(w.value as U128) else None))
  }

  /** The request as serde writes it: "taskType" and "textToImageParams"
      always, "imageGenerationConfig" exactly when a configuration is set. */
  function ParamsToJson(p: Parameters): (d: J.Document)
    ensures d.Object?
    ensures d.fields.Keys == {"taskType", "textToImageParams"} + (if p.imageGenerationConfig.Some? then {"imageGenerationConfig"} else {})
    ensures d.fields["taskType"] == J.String(TaskTypeName(p.taskType))
    ensures d.fields["textToImageParams"] == J.Object(map["text" := J.String(p.textToImageParams.text)])
    ensures p.imageGenerationConfig.Some? ==> d.fields["imageGenerationConfig"] == ConfigToJson(p.imageGenerationConfig.value)
  {
    var config := if p.imageGenerationConfig.Some? then Some(ConfigToJson(p.imageGenerationConfig.value)) else None;
    J.Object(map[
      "taskType" := J.String(TaskTypeName(p.taskType)),
      "textToImageParams" := J.Object(map["text" := J.String(p.textToImageParams.text)])]
      + OptionalEntry("imageGenerationConfig", config))
  }

  /** Reading a request back (serde's derived `Deserialize`). */
  function ParamsFromJson(d: J.Document): (r: Result<Parameters, string>)
    ensures r.Ok? <==>
      && d.Object? && "taskType" in d.fields && TaskTypeFromJson(d.fields["taskType"]).Ok?
      && "textToImageParams" in d.fields && d.fields["textToImageParams"].Object?
      && StringField(d.fields["textToImageParams"].fields, "text").Ok?
      && ("imageGenerationConfig" !in d.fields || d.fields["imageGenerationConfig"].Null?
          || ConfigFromJson(d.fields["imageGenerationConfig"]).Ok?)
    ensures r.Ok? ==>
      && TaskTypeFromJson(d.fields["taskType"]) == Ok(r.value.taskType)
      && r.value.textToImageParams.text == d.fields["textToImageParams"].fields["text"].s
      && (r.value.imageGenerationConfig.Some? <==> "imageGenerationConfig" in d.fields && !d.fields["imageGenerationConfig"].Null?)
      && (r.value.imageGenerationConfig.Some? ==> ConfigFromJson(d.fields["imageGenerationConfig"]) == Ok(r.value.imageGenerationConfig.value))
  {
    if !d.Object? then Err("invalid type: expected struct ImageGeneratorParameter")
    else if "taskType" !in d.fields then Err("missing field `taskType`")
    else
      var t :- TaskTypeFromJson(d.fields["taskType"]);
      if "textToImageParams" !in d.fields || !d.fields["textToImageParams"].Object? then Err("missing field `textToImageParams`")
      else
        var text :- StringField(d.fields["textToImageParams"].fields, "text");
        if "imageGenerationConfig" !in d.fields || d.fields["imageGenerationConfig"].Null? then
          Ok(Parameters(t, TextToImageParams(text), None))
        else
          var c :- ConfigFromJson(d.fields["imageGenerationConfig"]);
          Ok(Parameters(t, TextToImageParams(text), Some(c)))
  }

  /** What serde writes for a configuration reads back as the same
      configuration. */
  lemma ConfigRoundTrip(c: ImageGenerationConfig)
    ensures ConfigFromJson(ConfigToJson(c)) == Ok(c)
  {
    var d := ConfigToJson(c);
    if c.quality.Some? {
      assert NamesVariant(d.fields["quality"], QualityName(c.quality.value));
    }
  }

  /** What serde writes for a request reads back as the same request: the
      task type, the prompt and the configuration, including its absence. */
  lemma ParamsRoundTrip(p: Parameters)
    ensures ParamsFromJson(ParamsToJson(p)) == Ok(p)
  {
    var d := ParamsToJson(p);
    assert NamesVariant(d.fields["taskType"], TaskTypeName(p.taskType));
    if p.imageGenerationConfig.Some? {
      ConfigRoundTrip(p.imageGenerationConfig.value);
    }
  }

  function StringItems(items: seq<J.Document>): (r: Result<seq<string>, string>)
    ensures r.Ok? <==> forall i :: 0 <= i < |items| ==> items[i].String?
    ensures r.Ok? ==> |r.value| == |items| && forall i :: 0 <= i < |items| ==> items[i] == J.String(r.value[i])
  {
    if forall i :: 0 <= i < |items| ==> items[i].String? then
      Ok(seq(|items|, i requires 0 <= i < |items| => items[i].s))
    else Err("invalid type: expected a string")
  }

  /** `ImageGeneratorResponse` as read from the model's reply: an object
      whose "images" field is a list of strings, taken in order. */
  function ResponseFromJson(d: J.Document): (r: Result<ImageGeneratorResponse, string>)
    ensures r.Ok? <==> d.Object? && "images" in d.fields && d.fields["images"].Array?
                       && forall i :: 0 <= i < |d.fields["images"].items| ==> d.fields["images"].items[i].String?
    ensures r.Ok? ==> |r.value.images| == |d.fields["images"].items|
                      && forall i :: 0 <= i < |r.value.images| ==> d.fields["images"].items[i] == J.String(r.value.images[i])
  {
    if !d.Object? then Err("invalid type: expected struct ImageGeneratorResponse")
    else if "images" !in d.fields then Err("missing field `images`")
    else if !d.fields["images"].Array? then Err("invalid type: expected a sequence")
    else
      var images :- StringItems(d.fields["images"].items);
      Ok(ImageGeneratorResponse(images))
  }

  function ResponseToJson(r: ImageGeneratorResponse): J.Document {
    J.Object(map["images" := J.Array(seq(|r.images|, i requires 0 <= i < |r.images| => J.String(r.images[i])))])
  }

  /** A response written by serde reads back unchanged: same images, same
      order. */
  lemma ResponseRoundTrip(r: ImageGeneratorResponse)
    ensures ResponseFromJson(ResponseToJson(r)) == Ok(r)
  {
    var back := ResponseFromJson(ResponseToJson(r));
    assert back.Ok?;
    assert back.value.images == r.images;
  }
}
