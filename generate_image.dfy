/** The GENERATE_IMAGE tool: its schema, and saving the images the image
    model returned. Saving picks a directory from the `path` input, creates
    it, then decodes and writes image i as `{id}-{i}.png` in that directory,
    stopping at the first image that cannot be decoded or written. The
    file-system calls are recorded as effects, in the order they are made. */
module GenerateImage {
  import opened Wrappers
  import J = Json
  import opened Messages
  import opened Text
  import opened Tool
  import opened Paths
  import opened Environment

  const GENERATE_IMAGE_NAME := "GENERATE_IMAGE"
  const GENERATE_IMAGE_DESCRIPTION := "Generate an image based on user's prompt."
  const DEFAULT_HEIGHT: nat := 512
  const DEFAULT_WIDTH: nat := 512

  const PROMPT_DESCRIPTION := "Description for the image to generate. Required."
  const PATH_DESCRIPTION := "The path of the folder where the generated image should be saved. Required.Default to the current working directory."
  const COUNT_DESCRIPTION := "The number of images to generate. Optional. The default value is 1."
  const QUALITY_DESCRIPTION := "The quality of the image to generate. Optional. Possible value: standard, premium. The default value is standard."
  const HEIGHT_DESCRIPTION := "The height of the image in pixels. Optional. The default value is " + NatToString(DEFAULT_HEIGHT) + " ."
  const WIDTH_DESCRIPTION := "The width of the image in pixels. Optional. The default value is " + NatToString(DEFAULT_WIDTH) + " ."

  function PropertyJson(typeName: string, description: string): J.Document {
    J.Object(map["type" := J.String(typeName), "description" := J.String(description)])
  }

  /** The JSON the schema is written in. */
  function GenerateImageSchemaJson(): J.Document {
    J.Object(map[
      "type" := J.String("object"),
      "properties" := J.Object(map[
        "prompt" := PropertyJson("string", PROMPT_DESCRIPTION),
        "path" := PropertyJson("string", PATH_DESCRIPTION),
        "numberOfImages" := PropertyJson("number", COUNT_DESCRIPTION),
        "quality" := PropertyJson("string", QUALITY_DESCRIPTION),
        "height" := PropertyJson("number", HEIGHT_DESCRIPTION),
        "width" := PropertyJson("number", WIDTH_DESCRIPTION)]),
      "required" := J.Array([J.String("prompt"), J.String("path")])])
  }

  /** The six properties the tool declares. */
  function GenerateImageProperties(): map<string, Property> {
    map[
      "prompt" := Property(PropertyType.String, PROMPT_DESCRIPTION),
      "path" := Property(PropertyType.String, PATH_DESCRIPTION),
      "numberOfImages" := Property(PropertyType.Number, COUNT_DESCRIPTION),
      "quality" := Property(PropertyType.String, QUALITY_DESCRIPTION),
      "height" := Property(PropertyType.Number, HEIGHT_DESCRIPTION),
      "width" := Property(PropertyType.Number, WIDTH_DESCRIPTION)]
  }

  lemma PropertyJsonParses(t: PropertyType, description: string)
    ensures PropertyFromDocument(PropertyJson(SerdeName(t), description)) == Ok(Property(t, description))
  {
    assert NamesVariant(PropertyJson(SerdeName(t), description).fields["type"], SerdeName(t));
  }

  lemma EachPropertyParses(props: map<string, J.Document>)
    requires props == GenerateImageSchemaJson().fields["properties"].fields
    ensures props.Keys == GenerateImageProperties().Keys
    ensures forall k :: k in props ==> PropertyFromDocument(props[k]) == Ok(GenerateImageProperties()[k])
  {
    var expected := GenerateImageProperties();
    PropertyJsonParses(PropertyType.String, PROMPT_DESCRIPTION);
    PropertyJsonParses(PropertyType.String, PATH_DESCRIPTION);
    PropertyJsonParses(PropertyType.Number, COUNT_DESCRIPTION);
    PropertyJsonParses(PropertyType.String, QUALITY_DESCRIPTION);
    PropertyJsonParses(PropertyType.Number, HEIGHT_DESCRIPTION);
    PropertyJsonParses(PropertyType.Number, WIDTH_DESCRIPTION);
  }

  lemma PropertiesJsonParse()
    ensures PropertiesFromDocument(GenerateImageSchemaJson().fields["properties"]) == Ok(GenerateImageProperties())
  {
    var props := GenerateImageSchemaJson().fields["properties"];
    EachPropertyParses(props.fields);
    var parsed := PropertiesFromDocument(props);
    assert parsed.value == GenerateImageProperties();
  }

  lemma SchemaJsonParses()
    ensures NewSchema(GenerateImageSchemaJson()) == Ok(ToolJsonSchema("object", GenerateImageProperties(), ["prompt", "path"]))
  {
    var d := GenerateImageSchemaJson();
    PropertiesJsonParse();
    var required := RequiredFromDocument(d.fields["required"]);
    assert required.Ok? && required.value == ["prompt", "path"];
    var r := NewSchema(d);
    assert r.Ok?;
    assert r.value.properties == GenerateImageProperties();
  }

  /** `generate_image_schema`: the JSON parses as a schema with the six
      properties, of which "prompt" and "path" are required, and that schema
      is what the tool configuration carries. */
  function GenerateImageSchema(): (r: Result<J.Document, string>)
    ensures r == Ok(SchemaToDocument(ToolJsonSchema("object", GenerateImageProperties(), ["prompt", "path"])))
  {
    SchemaJsonParses();
    Ok(SchemaToDocument(NewSchema(GenerateImageSchemaJson()).value))
  }

  /** A call into the file system or the desktop, in the order made. */
  datatype FsEffect =
    | CreateDirAll(dir: string)
    | OpenDetached(path: string)
    | SaveImage(path: string, image: DecodedImage)

  /** What saving produced: the tool result (or the error that escaped as
      `Err`) and the calls made on the way. */
  datatype SaveOutcome = SaveOutcome(result: Result<ToolResultBlock, string>, effects: seq<FsEffect>)

  function Prefixed(effects: seq<FsEffect>, o: SaveOutcome): SaveOutcome {
    SaveOutcome(o.result, effects + o.effects)
  }

  const SAVED_MESSAGE := "Image generated and saved."

  /** `{id}-{index}.png` */
  function ImageName(id: string, index: nat): string {
    id + "-" + NatToString(index) + ".png"
  }

  function ImagePath(dir: string, id: string, index: nat): string {
    Join(dir, ImageName(id, index))
  }

  /** Different indices give different file names. */
  lemma ImageNameInjective(id: string, i: nat, j: nat)
    requires i != j
    ensures ImageName(id, i) != ImageName(id, j)
  {
    NatToStringInjective(i, j);
    var a := ImageName(id, i);
    var b := ImageName(id, j);
    if a == b {
      assert a[|id| + 1..|a| - 4] == NatToString(i);
      assert b[|id| + 1..|b| - 4] == NatToString(j);
    }
  }

  /** Two images of one call never overwrite each other: their paths differ
      whatever the directory and the id. */
  lemma ImagePathsDistinct(dir: string, id: string, i: nat, j: nat)
    requires i != j
    ensures ImagePath(dir, id, i) != ImagePath(dir, id, j)
  {
    ImageNameInjective(id, i, j);
    var a := ImageName(id, i);
    var b := ImageName(id, j);
    assert |a| > 0 && |b| > 0;
    assert a[0] == b[0] by {
      if |id| > 0 {
        assert a[0] == id[0] && b[0] == id[0];
      } else {
        assert a[0] == '-' && b[0] == '-';
      }
    }
    JoinInjective(dir, a, b);
  }

  /** The picture image `index` stands for, when its base64 decodes and
      the bytes load. */
  function Loaded(image: string, platform: Platform): Option<DecodedImage> {
    if platform.decodeBase64(image).Ok? && platform.loadImage(platform.decodeBase64(image).value).Ok? then
      Some(platform.loadImage(platform.decodeBase64(image).value).value)
    else None
  }

  /** Image `index` decodes, loads and is written. */
  predicate ImageSaves(dir: string, id: string, image: string, index: nat, platform: Platform) {
    Loaded(image, platform).Some? && platform.saveImage(Loaded(image, platform).value, ImagePath(dir, id, index)).None?
  }

  /** How the loop ends at an image that is not saved: malformed base64
      escapes as `Err`, a load or write failure is an Error result under the
      caller's id, and only a write failure has attempted a write. */
  function FailedImage(dir: string, id: string, image: string, index: nat, platform: Platform): (o: SaveOutcome)
    requires !ImageSaves(dir, id, image, index, platform)
    ensures o.result.Err? <==> platform.decodeBase64(image).Err?
    ensures o.result.Ok? ==> o.result.value.toolUseId == id && o.result.value.status == Error
    ensures SavedPaths(o.effects) == if Loaded(image, platform).Some? then [ImagePath(dir, id, index)] else []
  {
    var target := ImagePath(dir, id, index);
    match platform.decodeBase64(image)
    case Err(e) => SaveOutcome(Err(e), [])
    case Ok(bytes) =>
      match platform.loadImage(bytes)
      case Err(e) => SaveOutcome(Ok(CreateToolResultBlock(id, e, Error)), [])
      case Ok(picture) =>
        assert SavedPaths([SaveImage(target, picture)]) == [target];
        SaveOutcome(Ok(CreateToolResultBlock(id, platform.saveImage(picture, target).value, Error)), [SaveImage(target, picture)])
  }

  /** The loop of `save_generated_image` from image `index` on: each saved
      image is written then opened; the first image that is not saved ends
      the loop. */
  function SaveImages(dir: string, id: string, images: seq<string>, index: nat, platform: Platform): (o: SaveOutcome)
    ensures |o.effects| <= 2 * |images|
    ensures forall i :: 0 <= i < |o.effects| ==> !o.effects[i].CreateDirAll?
    decreases |images|
  {
    if |images| == 0 then SaveOutcome(Ok(CreateToolResultBlock(id, SAVED_MESSAGE, Success)), [])
    else if ImageSaves(dir, id, images[0], index, platform) then
      var target := ImagePath(dir, id, index);
      Prefixed([SaveImage(target, Loaded(images[0], platform).value), OpenDetached(target)],
               SaveImages(dir, id, images[1..], index + 1, platform))
    else FailedImage(dir, id, images[0], index, platform)
  }

  /** How many images, from the first, are saved before one is not. */
  function LeadingSaved(dir: string, id: string, images: seq<string>, index: nat, platform: Platform): (n: nat)
    ensures n <= |images|
    ensures forall k :: 0 <= k < n ==> ImageSaves(dir, id, images[k], index + k, platform)
    ensures n < |images| ==> !ImageSaves(dir, id, images[n], index + n, platform)
    decreases |images|
  {
    if |images| > 0 && ImageSaves(dir, id, images[0], index, platform) then
      var rest := LeadingSaved(dir, id, images[1..], index + 1, platform);
      assert forall k :: 1 <= k < rest + 1 ==> images[k] == images[1..][k - 1] && index + k == index + 1 + (k - 1);
      rest + 1
    else 0
  }

  /** Where the images go: the parent of a path that has an extension, the
      path itself otherwise. */
  function TargetDirectory(path: string): Option<string> {
    if Extension(path).Some? then Parent(path) else Some(path)
  }

  /** `save_generated_image` as a function of its inputs. */
  function SaveGeneratedImageSpec(id: string, input: J.Document, images: seq<string>, platform: Platform): (o: SaveOutcome)
    ensures !input.Object? ==> o == SaveOutcome(Ok(CreateToolResultBlock(id, "failed to convert input to object", Error)), [])
    ensures input.Object? && "path" !in input.fields ==>
              o == SaveOutcome(Ok(CreateToolResultBlock(id, "path to save the image is not provided", Error)), [])
    ensures input.Object? && "path" in input.fields && !input.fields["path"].String? ==>
              o == SaveOutcome(Ok(CreateToolResultBlock(id, "path to save the image is not a string.", Error)), [])
    ensures o.result.Err? || o.effects != [] ==> input.Object? && "path" in input.fields && input.fields["path"].String?
    ensures input.Object? && "path" in input.fields && input.fields["path"].String? ==>
              && TargetDirectory(input.fields["path"].s).Some?
              && o == SaveIntoSpec(TargetDirectory(input.fields["path"].s).value, id, images, platform)
  {
    if !input.Object? then SaveOutcome(Ok(CreateToolResultBlock(id, "failed to convert input to object", Error)), [])
    else if "path" !in input.fields then SaveOutcome(Ok(CreateToolResultBlock(id, "path to save the image is not provided", Error)), [])
    else if !input.fields["path"].String? then SaveOutcome(Ok(CreateToolResultBlock(id, "path to save the image is not a string.", Error)), [])
    else
      TargetDirectoryFound(input.fields["path"].s);
      match TargetDirectory(input.fields["path"].s)
      case None => SaveOutcome(Ok(CreateToolResultBlock(id, "cannot get a path to save the image.", Error)), [])
      case Some(dir) => SaveIntoSpec(dir, id, images, platform)
  }

  /** The second half of `save_generated_image` once the directory is known:
      create it unless it is empty, open it, then save the images. */
  function SaveIntoSpec(dir: string, id: string, images: seq<string>, platform: Platform): (o: SaveOutcome)
    ensures |o.effects| >= 1
    ensures dir != "" <==> o.effects[0] == CreateDirAll(dir)
    ensures forall i :: 1 <= i < |o.effects| ==> !o.effects[i].CreateDirAll?
    ensures dir != "" && platform.createDirAll(dir).Some? ==>
              o == SaveOutcome(Ok(CreateToolResultBlock(id, platform.createDirAll(dir).value, Error)), [CreateDirAll(dir)])
    ensures !(dir != "" && platform.createDirAll(dir).Some?) ==>
              && o.result == SaveImages(dir, id, images, 0, platform).result
              && o.effects == (if dir != "" then [CreateDirAll(dir)] else []) + [OpenDetached(dir)]
                              + SaveImages(dir, id, images, 0, platform).effects
  {
    if dir != "" && platform.createDirAll(dir).Some? then
      SaveOutcome(Ok(CreateToolResultBlock(id, platform.createDirAll(dir).value, Error)), [CreateDirAll(dir)])
    else
      var created := if dir != "" then [CreateDirAll(dir)] else [];
      Prefixed(created + [OpenDetached(dir)], SaveImages(dir, id, images, 0, platform))
  }

  /** `save_generated_image`: checks the input, picks and creates the
      directory, then saves the images one by one. */
  method SaveGeneratedImage(id: string, input: J.Document, images: seq<string>, platform: Platform)
    returns (r: Result<ToolResultBlock, string>, effects: seq<FsEffect>)
    ensures SaveOutcome(r, effects) == SaveGeneratedImageSpec(id, input, images, platform)
  {
    effects := [];
    var fields;
    match J.AsObject(input) {
      case None =>
        r := Ok(CreateToolResultBlock(id, "failed to convert input to object", Error));
        return;
      case Some(f) =>
        fields := f;
    }
    var path;
    match J.Get(fields, "path") {
      case None =>
        r := Ok(CreateToolResultBlock(id, "path to save the image is not provided", Error));
        return;
      case Some(value) =>
        match J.AsString(value) {
          case None =>
            r := Ok(CreateToolResultBlock(id, "path to save the image is not a string.", Error));
            return;
          case Some(s) =>
            path := s;
        }
    }
    assert input.Object? && input.fields["path"] == J.String(path);
    if Extension(path).Some? {
      match Parent(path) {
        case None =>
          r := Ok(CreateToolResultBlock(id, "cannot get a path to save the image.", Error));
          return;
        case Some(p) =>
          path := p;
      }
    }
    assert TargetDirectory(input.fields["path"].s) == Some(path);
    r, effects := SaveInto(path, id, images, platform);
  }

  /** Creating and opening the directory, then the saving loop. */
  method SaveInto(dir: string, id: string, images: seq<string>, platform: Platform)
    returns (r: Result<ToolResultBlock, string>, effects: seq<FsEffect>)
    ensures SaveOutcome(r, effects) == SaveIntoSpec(dir, id, images, platform)
  {
    effects := [];
    if dir != "" {
      effects := effects + [CreateDirAll(dir)];
      var failure := platform.createDirAll(dir);
      if failure.Some? {
        r := Ok(CreateToolResultBlock(id, failure.value, Error));
        return;
      }
    }
    effects := effects + [OpenDetached(dir)];
    var saved;
    r, saved := SaveImagesLoop(dir, id, images, platform);
    effects := effects + saved;
  }

  /** One turn of the loop: what the first image's decode, load and write
      make of the rest of the run. */
  lemma SaveImagesFirst(dir: string, id: string, images: seq<string>, index: nat, platform: Platform)
    requires |images| > 0
    ensures platform.decodeBase64(images[0]).Err? ==>
              SaveImages(dir, id, images, index, platform) == SaveOutcome(Err(platform.decodeBase64(images[0]).error), [])
    ensures platform.decodeBase64(images[0]).Ok? && platform.loadImage(platform.decodeBase64(images[0]).value).Err? ==>
              SaveImages(dir, id, images, index, platform)
              == SaveOutcome(Ok(CreateToolResultBlock(id, platform.loadImage(platform.decodeBase64(images[0]).value).error, Error)), [])
    ensures Loaded(images[0], platform).Some? ==>
              var target := ImagePath(dir, id, index);
              var picture := Loaded(images[0], platform).value;
              SaveImages(dir, id, images, index, platform)
              == if platform.saveImage(picture, target).Some? then
                   SaveOutcome(Ok(CreateToolResultBlock(id, platform.saveImage(picture, target).value, Error)), [SaveImage(target, picture)])
                 else
                   Prefixed([SaveImage(target, picture), OpenDetached(target)], SaveImages(dir, id, images[1..], index + 1, platform))
  {
  }

  lemma PrefixedTwice(first: seq<FsEffect>, second: seq<FsEffect>, o: SaveOutcome)
    ensures Prefixed(first, Prefixed(second, o)) == Prefixed(first + second, o)
  {
    assert first + (second + o.effects) == (first + second) + o.effects;
  }

  /** The `for` loop of `save_generated_image` over the images and their
      indices. */
  method SaveImagesLoop(dir: string, id: string, images: seq<string>, platform: Platform)
    returns (r: Result<ToolResultBlock, string>, effects: seq<FsEffect>)
    ensures SaveOutcome(r, effects) == SaveImages(dir, id, images, 0, platform)
  {
    effects := [];
    var index := 0;
    assert images[index..] == images;
    while index < |images|
      invariant 0 <= index <= |images|
      invariant SaveImages(dir, id, images, 0, platform)
                == Prefixed(effects, SaveImages(dir, id, images[index..], index, platform))
      decreases |images| - index
    {
      var target := ImagePath(dir, id, index);
      ghost var before := effects;
      assert images[index..][1..] == images[index + 1..];
      SaveImagesFirst(dir, id, images[index..], index, platform);
      var bytes := platform.decodeBase64(images[index]);
      if bytes.Err? {
        r := Err(bytes.error);
        return;
      }
      var image := platform.loadImage(bytes.value);
      if image.Err? {
        r := Ok(CreateToolResultBlock(id, image.error, Error));
        return;
      }
      effects := effects + [SaveImage(target, image.value)];
      var failure := platform.saveImage(image.value, target);
      if failure.Some? {
        r := Ok(CreateToolResultBlock(id, failure.value, Error));
        return;
      }
      effects := effects + [OpenDetached(target)];
      assert effects == before + [SaveImage(target, image.value), OpenDetached(target)];
      PrefixedTwice(before, [SaveImage(target, image.value), OpenDetached(target)],
                    SaveImages(dir, id, images[index + 1..], index + 1, platform));
      index := index + 1;
    }
    r := Ok(CreateToolResultBlock(id, SAVED_MESSAGE, Success));
  }

  /** The paths written by the `SaveImage` effects, in order. */
  function SavedPaths(effects: seq<FsEffect>): seq<string> {
    if |effects| == 0 then []
    else (if effects[0].SaveImage? then [effects[0].path] else []) + SavedPaths(effects[1..])
  }

  lemma {:induction false} SavedPathsAppend(a: seq<FsEffect>, b: seq<FsEffect>)
    ensures SavedPaths(a + b) == SavedPaths(a) + SavedPaths(b)
    decreases |a|
  {
    if |a| > 0 {
      assert (a + b)[0] == a[0];
      assert (a + b)[1..] == a[1..] + b;
      SavedPathsAppend(a[1..], b);
    } else {
      assert a + b == b;
    }
  }

  /** The paths `ImagePath(dir, id, index + k)` for `k < n`. */
  function PathsFrom(dir: string, id: string, index: nat, n: nat): (r: seq<string>)
    ensures |r| == n
    ensures forall k :: 0 <= k < n ==> r[k] == ImagePath(dir, id, index + k)
    decreases n
  {
    if n == 0 then [] else [ImagePath(dir, id, index)] + PathsFrom(dir, id, index + 1, n - 1)
  }

  /** Writes go to `{dir}/{id}-{i}.png` for consecutive i from `index`, in
      input order: one per saved image, plus one for the image whose write
      failed, if that is how the loop ended. */
  lemma {:induction false} SaveImagesPaths(dir: string, id: string, images: seq<string>, index: nat, platform: Platform)
    ensures SavedPaths(SaveImages(dir, id, images, index, platform).effects)
              == PathsFrom(dir, id, index, PathsWritten(dir, id, images, index, platform))
    decreases |images|
  {
    if |images| > 0 && ImageSaves(dir, id, images[0], index, platform) {
      SaveImagesPaths(dir, id, images[1..], index + 1, platform);
      SaveImagesPathsStep(dir, id, images, index, platform);
    }
  }

  /** How many paths the loop writes to: the saved images, and the one whose
      write failed, if that is how the loop ended. */
  function PathsWritten(dir: string, id: string, images: seq<string>, index: nat, platform: Platform): nat {
    var n := LeadingSaved(dir, id, images, index, platform);
    if n < |images| && Loaded(images[n], platform).Some? then n + 1 else n
  }

  /** The inductive step of `SaveImagesPaths`: a saved first image puts its
      own path in front of the rest's. */
  lemma SaveImagesPathsStep(dir: string, id: string, images: seq<string>, index: nat, platform: Platform)
    requires |images| > 0 && ImageSaves(dir, id, images[0], index, platform)
    requires SavedPaths(SaveImages(dir, id, images[1..], index + 1, platform).effects)
               == PathsFrom(dir, id, index + 1, PathsWritten(dir, id, images[1..], index + 1, platform))
    ensures SavedPaths(SaveImages(dir, id, images, index, platform).effects)
              == PathsFrom(dir, id, index, PathsWritten(dir, id, images, index, platform))
  {
    var target := ImagePath(dir, id, index);
    var first := [SaveImage(target, Loaded(images[0], platform).value), OpenDetached(target)];
    var tail := images[1..];
    var rest := SaveImages(dir, id, tail, index + 1, platform);
    var m := LeadingSaved(dir, id, tail, index + 1, platform);
    var w := PathsWritten(dir, id, tail, index + 1, platform);
    SavedPathsAppend(first, rest.effects);
    assert SavedPaths(first) == [target];
    assert LeadingSaved(dir, id, images, index, platform) == m + 1;
    assert PathsWritten(dir, id, images, index, platform) == w + 1 by {
      if m < |tail| {
        assert tail[m] == images[m + 1];
      }
    }
    calc {
      SavedPaths(SaveImages(dir, id, images, index, platform).effects);
      SavedPaths(first + rest.effects);
      [target] + PathsFrom(dir, id, index + 1, w);
      PathsFrom(dir, id, index, w + 1);
    }
  }

  /** The loop reports success exactly when every image is saved. */
  lemma {:induction false} SaveImagesSucceeds(dir: string, id: string, images: seq<string>, index: nat, platform: Platform)
    ensures SaveImages(dir, id, images, index, platform).result == Ok(CreateToolResultBlock(id, SAVED_MESSAGE, Success))
            <==> LeadingSaved(dir, id, images, index, platform) == |images|
    decreases |images|
  {
    if |images| > 0 && ImageSaves(dir, id, images[0], index, platform) {
      SaveImagesSucceeds(dir, id, images[1..], index + 1, platform);
    }
  }

  /** The loop ends in `Err` exactly when the first image that is not saved
      has malformed base64. */
  lemma {:induction false} SaveImagesEscapes(dir: string, id: string, images: seq<string>, index: nat, platform: Platform)
    ensures SaveImages(dir, id, images, index, platform).result.Err?
            <==> var n := LeadingSaved(dir, id, images, index, platform);
                 n < |images| && platform.decodeBase64(images[n]).Err?
    decreases |images|
  {
    if |images| > 0 && ImageSaves(dir, id, images[0], index, platform) {
      SaveImagesEscapes(dir, id, images[1..], index + 1, platform);
      var n := LeadingSaved(dir, id, images[1..], index + 1, platform);
      if n < |images| - 1 {
        assert images[1..][n] == images[n + 1];
      }
    }
  }

  /** Every result the loop returns is under the caller's id. */
  lemma {:induction false} SaveImagesKeepsId(dir: string, id: string, images: seq<string>, index: nat, platform: Platform)
    ensures var o := SaveImages(dir, id, images, index, platform);
      o.result.Ok? ==> o.result.value.toolUseId == id
    decreases |images|
  {
    if |images| > 0 && ImageSaves(dir, id, images[0], index, platform) {
      SaveImagesKeepsId(dir, id, images[1..], index + 1, platform);
    }
  }

  /** Every result `save_generated_image` returns is under the caller's id. */
  lemma SaveGeneratedImageKeepsId(id: string, input: J.Document, images: seq<string>, platform: Platform)
    ensures var o := SaveGeneratedImageSpec(id, input, images, platform);
      o.result.Ok? ==> o.result.value.toolUseId == id
  {
    if input.Object? && "path" in input.fields && input.fields["path"].String? {
      var dir := TargetDirectory(input.fields["path"].s);
      if dir.Some? {
        SaveImagesKeepsId(dir.value, id, images, 0, platform);
      }
    }
  }

  /** A path that has an extension always has a parent, so the "cannot get a
      path to save the image." branch is never taken: every string path
      yields a directory, which is the path itself when it has no
      extension. */
  lemma TargetDirectoryFound(path: string)
    ensures TargetDirectory(path).Some?
    ensures Extension(path).None? ==> TargetDirectory(path) == Some(path)
    ensures Extension(path).Some? ==> TargetDirectory(path) == Parent(path)
  {
    if Extension(path).Some? {
      ExtensionImpliesParent(path);
    }
  }

  /** What `save_generated_image` does with a string path once the directory
      it picks exists: image i is written to `{dir}/{id}-{i}.png`, in input
      order, and the call reports success exactly when every image is
      saved. */
  lemma SaveGeneratedImageWrites(id: string, path: string, fields: map<string, J.Document>, images: seq<string>, platform: Platform)
    requires "path" in fields && fields["path"] == J.String(path)
    ensures TargetDirectory(path).Some?
    ensures var dir := TargetDirectory(path).value;
      var o := SaveGeneratedImageSpec(id, J.Object(fields), images, platform);
      (dir == "" || platform.createDirAll(dir).None?) ==>
        && SavedPaths(o.effects) == PathsFrom(dir, id, 0, PathsWritten(dir, id, images, 0, platform))
        && (o.result == Ok(CreateToolResultBlock(id, SAVED_MESSAGE, Success))
            <==> LeadingSaved(dir, id, images, 0, platform) == |images|)
  {
    TargetDirectoryFound(path);
    var dir := TargetDirectory(path).value;
    if dir == "" || platform.createDirAll(dir).None? {
      var created: seq<FsEffect> := if dir != "" then [CreateDirAll(dir)] else [];
      var rest := SaveImages(dir, id, images, 0, platform);
      SavedPathsAppend(created + [OpenDetached(dir)], rest.effects);
      assert SavedPaths(created + [OpenDetached(dir)]) == [];
      SaveImagesPaths(dir, id, images, 0, platform);
      SaveImagesSucceeds(dir, id, images, 0, platform);
    }
  }
}
