/** The conversation engine of `bedrock_service.rs`: a transcript of turns
    that grows as the user speaks, the model answers and tools run. A
    complete reply (`run`) or a streamed one (`run_stream`) is read, every
    tool the model asks for is dispatched by name, the results go back as
    one User turn and exactly one follow-up reply is requested.

    Each operation is first a function of the configuration and the
    transcript before the call, giving an `Outcome`: the turns appended, the
    requests sent and the error logged, if any. The class's methods change
    the transcript step by step and are proved to agree with those
    functions. Terminal output is not modelled. */
module Bedrock {
  import opened Wrappers
  import J = Json
  import opened Messages
  import opened Environment
  import opened Tool
  import ReadFile
  import GenerateImage
  import IGP = ImageGeneratorParameter

  /** What is fixed once the service exists. */
  datatype Config = Config(
    client: Client,
    platform: Platform,
    chatModelId: string,
    imageModelId: string,
    systemPrompt: string,
    toolConfig: seq<ToolSpecification>)

  const NO_OUTPUT := "Error getting output"
  const NOT_A_MESSAGE := "Output is not a message"
  const NO_DELTA := "delta in event not found"
  const JSON_CONTENT_TYPE := "application/json"

  function UnknownToolMessage(name: string): string {
    "The requested tool with name " + name + " does not exist"
  }

  /** The three tools offered to the model, READ_FILE first. Building the
      configuration fails only when the code-running tool's schema does. */
  function ToolConfiguration(platform: Platform): (r: Result<seq<ToolSpecification>, string>)
    ensures r.Ok? <==> platform.python.schema.Ok?
    ensures r.Err? ==> r.error == platform.python.schema.error
    ensures r.Ok? ==>
      && |r.value| == 3
      && r.value[0] == ToolSpecification(ReadFile.READ_FILE_NAME, ReadFile.READ_FILE_DESCRIPTION, ReadFile.ReadFileSchema().value)
      && r.value[1] == ToolSpecification(GenerateImage.GENERATE_IMAGE_NAME, GenerateImage.GENERATE_IMAGE_DESCRIPTION, GenerateImage.GenerateImageSchema().value)
      && r.value[2] == ToolSpecification(platform.python.name, platform.python.description, platform.python.schema.value)
  {
    var generateImage := GenerateImage.GenerateImageSchema().value;
    var readFile := ReadFile.ReadFileSchema().value;
    var python :- platform.python.schema;
    Ok([
      ToolSpecification(ReadFile.READ_FILE_NAME, ReadFile.READ_FILE_DESCRIPTION, readFile),
      ToolSpecification(GenerateImage.GENERATE_IMAGE_NAME, GenerateImage.GENERATE_IMAGE_DESCRIPTION, generateImage),
      ToolSpecification(platform.python.name, platform.python.description, python)])
  }

  /** The request `send` and `send_stream` build: the whole transcript. */
  function Request(cfg: Config, conversation: seq<Message>): ConverseRequest {
    ConverseRequest(cfg.chatModelId, cfg.systemPrompt, conversation, cfg.toolConfig)
  }

  function UserMessage(input: string): Message {
    Message(User, [Text(input)])
  }

  // ---------------------------------------------------------------------
  // Image generation: reading the tool input and asking the image model.

  /** 2^24: every integer below it and up to it is an `f32` exactly. */
  const F32_EXACT: nat := 0x100_0000

  /** The gap between neighbouring `f32` values at the size of `n`: 1 up to
      2^24, doubling with each further binary digit. */
  function F32Spacing(n: nat): (u: nat)
    ensures u >= 1
    ensures n < F32_EXACT * u
    ensures n < F32_EXACT ==> u == 1
    ensures n >= F32_EXACT ==> u >= 2 && u % 2 == 0 && F32_EXACT / 2 * u <= n
  {
    if n < F32_EXACT then 1 else 2 * F32Spacing(n / 2)
  }

  /** `n` rounded to the nearest multiple of `u`, a tie going to the even
      multiple. */
  function RoundToMultiple(n: nat, u: nat): (r: nat)
    requires u >= 1
    ensures r % u == 0
    ensures 2 * r <= 2 * n + u && 2 * n <= 2 * r + u
    ensures 2 * r == 2 * n + u || 2 * n == 2 * r + u ==> (r / u) % 2 == 0
    ensures n % u == 0 ==> r == n
  {
    var q := n / u;
    var rem := n % u;
    var below := q * u;
    assert (q + 1) * u == below + u;
    DivModUnique(below, u, q, 0);
    DivModUnique(below + u, u, q + 1, 0);
    assert n == below + rem;
    if 2 * rem < u || (2 * rem == u && q % 2 == 0) then below
    else below + u
  }

  lemma MulMonotonic(a: int, b: int, u: int)
    ensures u >= 0 && a <= b ==> a * u <= b * u
  {
  }

  /** Division with remainder has one answer. */
  lemma DivModUnique(n: int, u: int, q: int, rem: int)
    requires u >= 1 && 0 <= rem < u && n == q * u + rem
    ensures n / u == q && n % u == rem
  {
    var q' := n / u;
    MulMonotonic(q + 1, q', u);
    MulMonotonic(q' + 1, q, u);
    assert (q + 1) * u == q * u + u;
    assert (q' + 1) * u == q' * u + u;
  }

  /** A multiple of `u` no further than `u / 2` below a number that is at
      least `k * u` is itself at least `k * u`. */
  lemma NearMultipleAbove(k: nat, u: nat, n: nat, r: nat)
    requires u >= 1 && k * u <= n && r % u == 0 && 2 * n <= 2 * r + u
    ensures r >= k * u
  {
    var m := r / u;
    assert r == m * u;
    MulMonotonic(k, m, u);
    MulMonotonic(m, k - 1, u);
    assert (k - 1) * u == k * u - u;
  }

  /** `n as f32` for a non-negative integer: the nearest multiple of the
      spacing, a tie going to the even multiple. */
  function F32Round(n: nat): (r: nat)
    ensures n <= F32_EXACT ==> r == n
    ensures n >= F32_EXACT ==> r >= F32_EXACT
    ensures r % F32Spacing(n) == 0
    ensures 2 * r <= 2 * n + F32Spacing(n) && 2 * n <= 2 * r + F32Spacing(n)
    ensures 2 * r == 2 * n + F32Spacing(n) || 2 * n == 2 * r + F32Spacing(n) ==> (r / F32Spacing(n)) % 2 == 0
  {
    var u := F32Spacing(n);
    var r := RoundToMultiple(n, u);
    if n > F32_EXACT then
      NearMultipleAbove(F32_EXACT / 2, u, n, r);
      r
    else
      assert n == F32_EXACT ==> u == 2;
      r
  }

  /** `to_f32_lossy() as u8` on an integer: the number is rounded to `f32`,
      then saturated into 0..255, which makes the rounding invisible. */
  function ToU8(n: int): (r: IGP.U8)
    ensures 0 <= n < 256 ==> r == n
    ensures n < 0 ==> r == 0
    ensures n >= 256 ==> r == 255
  {
    if n < 0 then 0 else if F32Round(n) >= 256 then 255 else F32Round(n)
  }

  /** `to_f32_lossy() as u128` on an integer: negative numbers become 0,
      sizes up to 2^24 are kept, larger ones are rounded to `f32`, and a
      rounding that reaches 2^128 (infinity) saturates. */
  function ToU128(n: int): (r: IGP.U128)
    ensures 0 <= n <= F32_EXACT ==> r == n
    ensures n < 0 ==> r == 0
    ensures n >= 0 && F32Round(n) < IGP.U128_LIMIT ==> r == F32Round(n)
    ensures n >= 0 && F32Round(n) >= IGP.U128_LIMIT ==> r == IGP.U128_LIMIT - 1
  {
    if n < 0 then 0 else if F32Round(n) >= IGP.U128_LIMIT then IGP.U128_LIMIT - 1 else F32Round(n)
  }

  /** The quality asked for: its text is parsed as JSON and must name a
      quality; anything else, and no text at all, means Standard. */
  function QualityFromInput(fields: map<string, J.Document>, parseJson: string -> Result<J.Document, string>): IGP.ImageQuality {
    match J.AsString(J.GetOrNull(fields, "quality"))
    case None => IGP.Standard
    case Some(q) =>
      match parseJson(q)
      case Err(_) => IGP.Standard
      case Ok(d) => if IGP.QualityFromJson(d).Ok? then IGP.QualityFromJson(d).value else IGP.Standard
  }

  /** A number field read as a dimension, or `default` when it is absent or
      not a number. */
  function DimensionFromInput(fields: map<string, J.Document>, key: string, default: IGP.U128): IGP.U128 {
    match J.AsNumber(J.GetOrNull(fields, key))
    case None => default
    case Some(n) => ToU128(n)
  }

  /** The input-decoding part of `generate_image_from_prompt`: the prompt
      and the path must be strings; the count, quality and size fall back
      to 1, Standard and 512 by 512. Every field of the configuration is
      set. */
  function ImageRequestFromInput(input: J.Document, parseJson: string -> Result<J.Document, string>): (r: Result<IGP.Parameters, string>)
    ensures !input.Object? ==> r == Err("failed to convert input to object.")
    ensures input.Object? && "prompt" !in input.fields ==> r == Err("prompt is not provided.")
    ensures input.Object? && "prompt" in input.fields && !input.fields["prompt"].String? ==> r == Err("prompt is not string")
    ensures input.Object? && "prompt" in input.fields && input.fields["prompt"].String? && "path" !in input.fields ==>
              r == Err("path is not provided.")
    ensures input.Object? && "prompt" in input.fields && input.fields["prompt"].String? && "path" in input.fields && !input.fields["path"].String? ==>
              r == Err("path is not string")
    ensures r.Ok? <==> input.Object? && "prompt" in input.fields && input.fields["prompt"].String?
                       && "path" in input.fields && input.fields["path"].String?
    ensures r.Ok? ==>
      && r.value.taskType == IGP.TextImage
      && r.value.textToImageParams.text == input.fields["prompt"].s
      && r.value.imageGenerationConfig.Some?
      && var c := r.value.imageGenerationConfig.value;
      && c.numberOfImages.Some? && c.quality.Some? && c.height.Some? && c.width.Some?
    ensures r.Ok? ==>
      var f := input.fields;
      var c := r.value.imageGenerationConfig.value;
      && c.numberOfImages == Some(if "numberOfImages" in f && f["numberOfImages"].Number? then ToU8(f["numberOfImages"].n) else 1)
      && c.height == Some(if "height" in f && f["height"].Number? then ToU128(f["height"].n) else GenerateImage.DEFAULT_HEIGHT)
      && c.width == Some(if "width" in f && f["width"].Number? then ToU128(f["width"].n) else GenerateImage.DEFAULT_WIDTH)
      && (!("quality" in f && f["quality"].String?) ==> c.quality == Some(IGP.Standard))
      && ("quality" in f && f["quality"].String? ==>
            var parsed := parseJson(f["quality"].s);
            c.quality == Some(if parsed.Ok? && IGP.QualityFromJson(parsed.value).Ok? then IGP.QualityFromJson(parsed.value).value
                              else IGP.Standard))
  {
    match J.AsObject(input)
    case None => Err("failed to convert input to object.")
    case Some(fields) =>
      if "prompt" !in fields then Err("prompt is not provided.")
      else if !fields["prompt"].String? then Err("prompt is not string")
      else if "path" !in fields then Err("path is not provided.")
      else if !fields["path"].String? then Err("path is not string")
      else
        var count := match J.AsNumber(J.GetOrNull(fields, "numberOfImages")) case Some(n) => ToU8(n) case None => 1;
        var config := IGP.ImageGenerationConfig(
          Some(count),
          Some(QualityFromInput(fields, parseJson)),
          Some(DimensionFromInput(fields, "height", GenerateImage.DEFAULT_HEIGHT)),
          Some(DimensionFromInput(fields, "width", GenerateImage.DEFAULT_WIDTH)));
        Ok(IGP.NewGenerateImageParams(fields["prompt"].s, Some(config)))
  }

  /** The request `invoke_model` is sent for some parameters. */
  function ImageModelRequest(cfg: Config, params: IGP.Parameters): InvokeModelRequest {
    InvokeModelRequest(cfg.imageModelId, JSON_CONTENT_TYPE, IGP.ParamsToJson(params))
  }

  /** The call to the image model and the reading of its reply: the body
      must be UTF-8 text holding JSON with a list of base64 images. */
  function ImagesFromModel(cfg: Config, params: IGP.Parameters): (r: Result<seq<string>, string>)
    ensures cfg.client.invokeModel(ImageModelRequest(cfg, params)).Err? ==> r == Err(cfg.client.invokeModel(ImageModelRequest(cfg, params)).error)
    ensures cfg.client.invokeModel(ImageModelRequest(cfg, params)).Ok? ==>
      var body := cfg.client.invokeModel(ImageModelRequest(cfg, params)).value;
      && (cfg.platform.decodeUtf8(body).Err? ==> r == Err(cfg.platform.decodeUtf8(body).error))
      && (cfg.platform.decodeUtf8(body).Ok? ==>
            var text := cfg.platform.decodeUtf8(body).value;
            && (cfg.platform.parseJson(text).Err? ==> r == Err(cfg.platform.parseJson(text).error))
            && (cfg.platform.parseJson(text).Ok? ==>
                  var response := IGP.ResponseFromJson(cfg.platform.parseJson(text).value);
                  && (response.Err? ==> r == Err(response.error))
                  && (response.Ok? ==> r == Ok(response.value.images))))
  {
    var body :- cfg.client.invokeModel(ImageModelRequest(cfg, params));
    var text :- cfg.platform.decodeUtf8(body);
    var doc :- cfg.platform.parseJson(text);
    var response :- IGP.ResponseFromJson(doc);
    Ok(response.images)
  }

  /** `generate_image_from_prompt`: the images, or the first error met in
      the input or in the exchange with the image model. */
  function GenerateImageFromPrompt(cfg: Config, input: J.Document): (r: Result<seq<string>, string>)
    ensures ImageRequestFromInput(input, cfg.platform.parseJson).Err? ==> r == Err(ImageRequestFromInput(input, cfg.platform.parseJson).error)
    ensures ImageRequestFromInput(input, cfg.platform.parseJson).Ok? ==> r == ImagesFromModel(cfg, ImageRequestFromInput(input, cfg.platform.parseJson).value)
  {
    var params :- ImageRequestFromInput(input, cfg.platform.parseJson);
    ImagesFromModel(cfg, params)
  }

  // ---------------------------------------------------------------------
  // Tool dispatch.

  /** `use_tool`: the tool is chosen by name. A failed image generation is
      an Error result; a name no tool has is an error. */
  function UseToolSpec(cfg: Config, toolUse: ToolUseBlock): (r: Result<ToolResultBlock, string>)
    ensures toolUse.name == ReadFile.READ_FILE_NAME ==>
              r == Ok(ReadFile.ReadFileTool(toolUse.toolUseId, toolUse.input, cfg.platform))
    ensures toolUse.name == GenerateImage.GENERATE_IMAGE_NAME ==>
              var generated := GenerateImageFromPrompt(cfg, toolUse.input);
              && (generated.Err? ==> r == Ok(CreateToolResultBlock(toolUse.toolUseId, generated.error, Error)))
              && (generated.Ok? ==>
                    r == GenerateImage.SaveGeneratedImageSpec(toolUse.toolUseId, toolUse.input, generated.value, cfg.platform).result)
    ensures toolUse.name == cfg.platform.python.name && toolUse.name !in {ReadFile.READ_FILE_NAME, GenerateImage.GENERATE_IMAGE_NAME} ==>
              r == cfg.platform.python.run(toolUse.toolUseId, toolUse.input)
    ensures toolUse.name !in {ReadFile.READ_FILE_NAME, GenerateImage.GENERATE_IMAGE_NAME, cfg.platform.python.name} ==>
              r == Err(UnknownToolMessage(toolUse.name))
  {
    var id := toolUse.toolUseId;
    if toolUse.name == ReadFile.READ_FILE_NAME then
      Ok(ReadFile.ReadFileTool(id, toolUse.input, cfg.platform))
    else if toolUse.name == GenerateImage.GENERATE_IMAGE_NAME then
      match GenerateImageFromPrompt(cfg, toolUse.input)
      case Err(e) => Ok(CreateToolResultBlock(id, e, Error))
      case Ok(images) => GenerateImage.SaveGeneratedImageSpec(id, toolUse.input, images, cfg.platform).result
    else if toolUse.name == cfg.platform.python.name then
      cfg.platform.python.run(id, toolUse.input)
    else
      Err(UnknownToolMessage(toolUse.name))
  }

  // ---------------------------------------------------------------------
  // Non-streaming: `run` and `process_output`.

  /** What one call did: the turns appended to the transcript, the requests
      sent to the chat model (in order) and the error logged, if any. */
  datatype Outcome = Outcome(appended: seq<Message>, requests: seq<ConverseRequest>, error: Option<string>)

  function Prefix(appended: seq<Message>, requests: seq<ConverseRequest>, o: Outcome): Outcome {
    Outcome(appended + o.appended, requests + o.requests, o.error)
  }

  /** `results` followed by whatever `rest` collects; an error stays one. */
  function Prepend(results: seq<ContentBlock>, rest: Result<seq<ContentBlock>, string>): Result<seq<ContentBlock>, string> {
    if rest.Ok? then Ok(results + rest.value) else rest
  }

  lemma PrependTwice(a: seq<ContentBlock>, b: seq<ContentBlock>, rest: Result<seq<ContentBlock>, string>)
    ensures Prepend(a, Prepend(b, rest)) == Prepend(a + b, rest)
    ensures Prepend([], rest) == rest
  {
    if rest.Ok? {
      assert a + (b + rest.value) == (a + b) + rest.value;
      assert [] + rest.value == rest.value;
    }
  }

  /** The `for` loop of `process_output`: text is shown, a tool use runs its
      tool and keeps the result, any other block ends the loop; a tool error
      ends everything. */
  function CollectResults(cfg: Config, blocks: seq<ContentBlock>): (r: Result<seq<ContentBlock>, string>)
    ensures r.Ok? ==> forall i :: 0 <= i < |r.value| ==> r.value[i].ToolResult?
    ensures r.Ok? ==> |r.value| <= |blocks|
    decreases |blocks|
  {
    if |blocks| == 0 then Ok([])
    else match blocks[0]
      case Text(_) => CollectResults(cfg, blocks[1..])
      case ToolUse(toolUse) =>
        var result :- UseToolSpec(cfg, toolUse);
        Prepend([ToolResult(result)], CollectResults(cfg, blocks[1..]))
      case _ => Ok([])
  }

  /** A reply read as the model's turn: `output()` must be present and be a
      message. */
  function ReplyMessage(response: ConverseResponse): (r: Result<Message, string>)
    ensures r.Ok? <==> response.output.Some? && response.output.value.OutputMessage?
    ensures r.Ok? ==> r.value == response.output.value.message
    ensures response.output.None? ==> r == Err(NO_OUTPUT)
    ensures response.output.Some? && !response.output.value.OutputMessage? ==> r == Err(NOT_A_MESSAGE)
  {
    match response.output
    case None => Err(NO_OUTPUT)
    case Some(OutputMessage(message)) => Ok(message)
    case Some(_) => Err(NOT_A_MESSAGE)
  }

  /** `process_output` on the transcript `conversation`. */
  function ProcessOutputSpec(cfg: Config, conversation: seq<Message>, response: ConverseResponse): (o: Outcome)
    ensures |o.appended| <= 3 && |o.requests| <= 1
    ensures |o.appended| >= 1 ==> ReplyMessage(response) == Ok(o.appended[0])
    ensures |o.requests| == 1 <==> |o.appended| >= 2
    ensures |o.requests| == 1 ==> o.requests[0] == Request(cfg, conversation + o.appended[..2]) && o.appended[1].role == User
    ensures o.error.None? ==> |o.appended| == 1 || |o.appended| == 3
  {
    match ReplyMessage(response)
    case Err(e) => Outcome([], [], Some(e))
    case Ok(message) =>
      match CollectResults(cfg, message.content)
      case Err(e) => Outcome([message], [], Some(e))
      case Ok(results) =>
        if results == [] then Outcome([message], [], None)
        else
          var turn := Message(User, results);
          var request := Request(cfg, conversation + [message, turn]);
          match cfg.client.converse(request)
          case Err(e) => Outcome([message, turn], [request], Some(e))
          case Ok(followUp) =>
            match ReplyMessage(followUp)
            case Err(e) => Outcome([message, turn], [request], Some(e))
            case Ok(reply) => Outcome([message, turn, reply], [request], None)
  }

  /** `run`: the user's turn, one request, then `process_output`. Every error
      is logged and the turns already appended stay. */
  function RunSpec(cfg: Config, conversation: seq<Message>, input: string): (o: Outcome)
    ensures 1 <= |o.appended| <= 4 && 1 <= |o.requests| <= 2
    ensures o.appended[0] == UserMessage(input) && o.requests[0] == Request(cfg, conversation + [UserMessage(input)])
    ensures |o.requests| == 2 ==> |o.appended| >= 3 && o.requests[1] == Request(cfg, conversation + o.appended[..3])
  {
    var withInput := conversation + [UserMessage(input)];
    var request := Request(cfg, withInput);
    match cfg.client.converse(request)
    case Err(e) => Outcome([UserMessage(input)], [request], Some(e))
    case Ok(response) => Prefix([UserMessage(input)], [request], ProcessOutputSpec(cfg, withInput, response))
  }

  // ---------------------------------------------------------------------
  // Streaming: `run_stream` and `process_output_stream`.

  /** The four accumulators of `process_output_stream`. */
  datatype Assembly = Assembly(toolInput: string, toolId: string, toolName: string, assistantMessage: string)

  const EMPTY_ASSEMBLY := Assembly("", "", "", "")

  /** The loop's state: accumulators, turns appended so far, tool results
      gathered so far, and the error that ended the loop, if any. */
  datatype StreamState = StreamState(acc: Assembly, appended: seq<Message>, results: seq<ContentBlock>, failure: Option<string>)

  const INITIAL_STATE := StreamState(EMPTY_ASSEMBLY, [], [], None)

  /** The tool input: the accumulated text parsed as JSON, or the text
      itself as a string when it does not parse. */
  function ToolInput(cfg: Config, text: string): (d: J.Document)
    ensures cfg.platform.parseJson(text).Ok? ==> d == cfg.platform.parseJson(text).value
    ensures cfg.platform.parseJson(text).Err? ==> d == J.String(text)
  {
    match cfg.platform.parseJson(text)
    case Ok(d) => d
    case Err(_) => J.String(text)
  }

  /** The assistant turn of a tool-use stop: the text so far, if any, then
      the tool use. */
  function ToolTurn(text: string, toolUse: ToolUseBlock): (m: Message)
    ensures m.role == Assistant
    ensures m.content == if text == "" then [ToolUse(toolUse)] else [Text(text), ToolUse(toolUse)]
  {
    Message(Assistant, (if text != "" then [Text(text)] else []) + [ToolUse(toolUse)])
  }

  /** One `recv()` of `process_output_stream`. */
  function Step(cfg: Config, s: StreamState, item: Received): (t: StreamState)
    ensures s.failure.Some? ==> t == s
    ensures s.appended <= t.appended && |t.appended| <= |s.appended| + 1
    ensures s.results <= t.results && |t.results| <= |s.results| + 1
    ensures |t.results| > |s.results| ==> t.results[|s.results|].ToolResult? && |t.appended| > |s.appended|
  {
    if s.failure.Some? then s
    else match item
      case RecvError(e) => s.(failure := Some(e))
      case Event(event) =>
        match event
        case ContentBlockDelta(None) => s.(failure := Some(NO_DELTA))
        case ContentBlockDelta(Some(TextDelta(text))) =>
          s.(acc := s.acc.(assistantMessage := s.acc.assistantMessage + text))
        case ContentBlockDelta(Some(ToolUseDelta(input))) =>
          s.(acc := s.acc.(toolInput := s.acc.toolInput + input))
        case ContentBlockDelta(Some(OtherDelta)) => s
        case ContentBlockStart(Some(ToolUseStart(id, name))) =>
          s.(acc := s.acc.(toolId := id, toolName := name))
        case ContentBlockStart(_) => s
        case MessageStart => s
        case MessageStop(reason) =>
          if reason == ToolUseStop then
            var toolUse := ToolUseBlock(s.acc.toolId, s.acc.toolName, ToolInput(cfg, s.acc.toolInput));
            var appended := s.appended + [ToolTurn(s.acc.assistantMessage, toolUse)];
            match UseToolSpec(cfg, toolUse)
            case Err(e) => StreamState(s.acc, appended, s.results, Some(e))
            case Ok(result) => StreamState(EMPTY_ASSEMBLY, appended, s.results + [ToolResult(result)], None)
          else
            StreamState(EMPTY_ASSEMBLY, s.appended + [Message(Assistant, [Text(s.acc.assistantMessage)])], s.results, None)
        case OtherEvent => s
  }

  function Steps(cfg: Config, s: StreamState, items: seq<Received>): StreamState
    decreases |items|
  {
    if |items| == 0 then s else Steps(cfg, Step(cfg, s, items[0]), items[1..])
  }

  /** An error ends the loop: nothing after it changes the state. */
  lemma {:induction false} FailureAbsorbs(cfg: Config, s: StreamState, items: seq<Received>)
    requires s.failure.Some?
    ensures Steps(cfg, s, items) == s
    decreases |items|
  {
    if |items| > 0 {
      FailureAbsorbs(cfg, s, items[1..]);
    }
  }

  /** The follow-up stream's state: the text so far, the turns appended and
      the error that ended it, if any. */
  datatype FollowState = FollowState(text: string, appended: seq<Message>, failure: Option<string>)

  /** One `recv()` of the follow-up loop: only text deltas are kept, and a
      turn is appended only when the stop reason is EndTurn. */
  function FollowStep(s: FollowState, item: Received): (t: FollowState)
    ensures s.failure.Some? ==> t == s
    ensures s.appended <= t.appended && |t.appended| <= |s.appended| + 1
    ensures |t.appended| > |s.appended| ==> t.appended[|s.appended|] == Message(Assistant, [Text(s.text)]) && item == Event(MessageStop(EndTurn))
  {
    if s.failure.Some? then s
    else match item
      case RecvError(e) => s.(failure := Some(e))
      case Event(event) =>
        match event
        case ContentBlockDelta(None) => s.(failure := Some(NO_DELTA))
        case ContentBlockDelta(Some(TextDelta(text))) => s.(text := s.text + text)
        case ContentBlockDelta(Some(_)) => s
        case MessageStart => s
        case MessageStop(reason) =>
          if reason == EndTurn then FollowState("", s.appended + [Message(Assistant, [Text(s.text)])], None)
          else FollowState("", s.appended, None)
        case _ => s
  }

  function FollowSteps(s: FollowState, items: seq<Received>): FollowState
    decreases |items|
  {
    if |items| == 0 then s else FollowSteps(FollowStep(s, items[0]), items[1..])
  }

  lemma {:induction false} FollowFailureAbsorbs(s: FollowState, items: seq<Received>)
    requires s.failure.Some?
    ensures FollowSteps(s, items) == s
    decreases |items|
  {
    if |items| > 0 {
      FollowFailureAbsorbs(s, items[1..]);
    }
  }

  /** `process_output_stream` on the transcript `conversation`: the turns
      rebuilt from the stream, then, when a tool ran, one User turn with all
      the results and the turns of one follow-up stream. */
  function ProcessStreamSpec(cfg: Config, conversation: seq<Message>, items: seq<Received>): (o: Outcome)
    ensures |o.requests| <= 1
    ensures |o.requests| == 1 ==>
      && |conversation| < |o.requests[0].messages| <= |conversation| + |o.appended|
      && o.requests[0] == Request(cfg, conversation + o.appended[..|o.requests[0].messages| - |conversation|])
      && o.appended[|o.requests[0].messages| - |conversation| - 1].role == User
  {
    var s := Steps(cfg, INITIAL_STATE, items);
    if s.failure.Some? then Outcome(s.appended, [], s.failure)
    else if s.results == [] then Outcome(s.appended, [], None)
    else
      var turn := Message(User, s.results);
      var request := Request(cfg, conversation + s.appended + [turn]);
      match cfg.client.converseStream(request)
      case Err(e) => Outcome(s.appended + [turn], [request], Some(e))
      case Ok(followUp) =>
        var f := FollowSteps(FollowState("", [], None), followUp);
        Outcome(s.appended + [turn] + f.appended, [request], f.failure)
  }

  /** `run_stream`: the user's turn, one streamed request, then
      `process_output_stream`. */
  function RunStreamSpec(cfg: Config, conversation: seq<Message>, input: string): (o: Outcome)
    ensures |o.appended| >= 1 && 1 <= |o.requests| <= 2
    ensures o.appended[0] == UserMessage(input) && o.requests[0] == Request(cfg, conversation + [UserMessage(input)])
    ensures |o.requests| == 2 ==>
      |conversation| < |o.requests[1].messages| <= |conversation| + |o.appended|
      && o.requests[1] == Request(cfg, conversation + o.appended[..|o.requests[1].messages| - |conversation|])
  {
    var withInput := conversation + [UserMessage(input)];
    var request := Request(cfg, withInput);
    match cfg.client.converseStream(request)
    case Err(e) => Outcome([UserMessage(input)], [request], Some(e))
    case Ok(items) => Prefix([UserMessage(input)], [request], ProcessStreamSpec(cfg, withInput, items))
  }

  // ---------------------------------------------------------------------
  // The service.

  class BedrockService {
    const config: Config
    var conversation: seq<Message>

    constructor (config: Config)
      ensures this.config == config
      ensures conversation == []
    {
      this.config := config;
      conversation := [];
    }

    /** `BedrockService::new`: fails only when the tool configuration
        cannot be built; the transcript starts empty. */
    static method New(client: Client, platform: Platform, chatModelId: string, imageModelId: string, systemPrompt: string)
      returns (r: Result<BedrockService, string>)
      ensures r.Ok? <==> ToolConfiguration(platform).Ok?
      ensures r.Err? ==> r.error == ToolConfiguration(platform).error
      ensures r.Ok? ==> fresh(r.value) && r.value.conversation == []
                        && r.value.config == Config(client, platform, chatModelId, imageModelId, systemPrompt, ToolConfiguration(platform).value)
    {
      var tools := ToolConfiguration(platform);
      if tools.Err? {
        return Err(tools.error);
      }
      var service := new BedrockService(Config(client, platform, chatModelId, imageModelId, systemPrompt, tools.value));
      return Ok(service);
    }

    /** `append_user_message`: one User turn holding the input as text. */
    method AppendUserMessage(input: string)
      modifies this
      ensures conversation == old(conversation) + [UserMessage(input)]
    {
      conversation := conversation + [UserMessage(input)];
    }

    /** `send`: the whole transcript goes to the chat model. */
    method Send() returns (r: Result<ConverseResponse, string>)
      ensures r == config.client.converse(Request(config, conversation))
    {
      r := config.client.converse(Request(config, conversation));
    }

    /** `send_stream` */
    method SendStream() returns (r: Result<seq<Received>, string>)
      ensures r == config.client.converseStream(Request(config, conversation))
    {
      r := config.client.converseStream(Request(config, conversation));
    }

    /** `use_tool`; saving generated images goes through the imperative
        `save_generated_image`. */
    method UseTool(toolUse: ToolUseBlock) returns (r: Result<ToolResultBlock, string>)
      ensures r == UseToolSpec(config, toolUse)
    {
      var id := toolUse.toolUseId;
      if toolUse.name == ReadFile.READ_FILE_NAME {
        r := Ok(ReadFile.ReadFileTool(id, toolUse.input, config.platform));
      } else if toolUse.name == GenerateImage.GENERATE_IMAGE_NAME {
        var images := GenerateImageFromPrompt(config, toolUse.input);
        if images.Err? {
          return Ok(CreateToolResultBlock(id, images.error, Error));
        }
        var effects;
        r, effects := GenerateImage.SaveGeneratedImage(id, toolUse.input, images.value, config.platform);
      } else if toolUse.name == config.platform.python.name {
        r := config.platform.python.run(id, toolUse.input);
      } else {
        r := Err(UnknownToolMessage(toolUse.name));
      }
    }

    /** `process_output`: the model's turn is appended before any tool
        runs; tool results are gathered in a loop; when there are any, they
        are appended as one User turn and one follow-up reply is requested
        and appended. */
    method ProcessOutput(response: ConverseResponse) returns (error: Option<string>, ghost sent: seq<ConverseRequest>)
      modifies this
      ensures var o := ProcessOutputSpec(config, old(conversation), response);
        conversation == old(conversation) + o.appended && error == o.error && sent == o.requests
    {
      sent := [];
      var reply := ReplyMessage(response);
      if reply.Err? {
        return Some(reply.error), sent;
      }
      var message := reply.value;
      conversation := conversation + [message];
      var toolResults: seq<ContentBlock> := [];
      var i := 0;
      assert message.content[i..] == message.content;
      PrependTwice([], [], CollectResults(config, message.content));
      while i < |message.content|
        invariant 0 <= i <= |message.content|
        invariant conversation == old(conversation) + [message]
        invariant CollectResults(config, message.content) == Prepend(toolResults, CollectResults(config, message.content[i..]))
        decreases |message.content| - i
      {
        assert message.content[i..][0] == message.content[i];
        assert message.content[i..][1..] == message.content[i + 1..];
        match message.content[i] {
          case Text(_) =>
          case ToolUse(toolUse) =>
            var result := UseTool(toolUse);
            if result.Err? {
              return Some(result.error), sent;
            }
            PrependTwice(toolResults, [ToolResult(result.value)], CollectResults(config, message.content[i + 1..]));
            toolResults := toolResults + [ToolResult(result.value)];
          case _ =>
            assert CollectResults(config, message.content[i..]) == Ok([]);
            break;
        }
        i := i + 1;
      }
      assert CollectResults(config, message.content[i..]) == Ok([]);
      assert toolResults + [] == toolResults;
      assert CollectResults(config, message.content) == Ok(toolResults);
      if toolResults == [] {
        return None, sent;
      }
      conversation := conversation + [Message(User, toolResults)];
      assert conversation == old(conversation) + [message, Message(User, toolResults)];
      sent := [Request(config, conversation)];
      var followUp := Send();
      if followUp.Err? {
        return Some(followUp.error), sent;
      }
      var followUpMessage := ReplyMessage(followUp.value);
      if followUpMessage.Err? {
        return Some(followUpMessage.error), sent;
      }
      conversation := conversation + [followUpMessage.value];
      error := None;
    }

    /** `run`: every error is caught and logged. */
    method Run(input: string) returns (logged: Option<string>, ghost sent: seq<ConverseRequest>)
      modifies this
      ensures var o := RunSpec(config, old(conversation), input);
        conversation == old(conversation) + o.appended && logged == o.error && sent == o.requests
    {
      AppendUserMessage(input);
      var request := Request(config, conversation);
      var response := Send();
      if response.Err? {
        return Some(response.error), [request];
      }
      ghost var rest;
      logged, rest := ProcessOutput(response.value);
      sent := [request] + rest;
    }

    /** `process_output_stream`: the first loop rebuilds turns from the
        events, running a tool at each tool-use stop; when any tool ran, its
        results are appended as one User turn and a second loop reads one
        follow-up stream. */
    method ProcessOutputStream(items: seq<Received>) returns (error: Option<string>, ghost sent: seq<ConverseRequest>)
      modifies this
      ensures var o := ProcessStreamSpec(config, old(conversation), items);
        conversation == old(conversation) + o.appended && error == o.error && sent == o.requests
    {
      sent := [];
      var toolResults;
      toolResults, error := AssembleStream(items);
      if error.Some? || toolResults == [] {
        return error, sent;
      }
      conversation := conversation + [Message(User, toolResults)];
      sent := [Request(config, conversation)];
      var followUp := SendStream();
      if followUp.Err? {
        return Some(followUp.error), sent;
      }
      error := FollowUpStream(followUp.value);
    }

    /** The first loop of `process_output_stream`: the turns it appends,
        the results it gathers and the error that ends it are those of
        `Steps` from the initial state. */
    method AssembleStream(items: seq<Received>) returns (toolResults: seq<ContentBlock>, error: Option<string>)
      modifies this
      ensures var s := Steps(config, INITIAL_STATE, items);
        conversation == old(conversation) + s.appended && error == s.failure && (error.None? ==> toolResults == s.results)
    {
      var toolInput, toolId, toolName, assistantMessage := "", "", "", "";
      toolResults := [];
      ghost var appended: seq<Message> := [];
      var i := 0;
      assert items[i..] == items;
      while i < |items|
        invariant 0 <= i <= |items|
        invariant conversation == old(conversation) + appended
        invariant Steps(config, INITIAL_STATE, items)
                  == Steps(config, StreamState(Assembly(toolInput, toolId, toolName, assistantMessage), appended, toolResults, None), items[i..])
        decreases |items| - i
      {
        ghost var s := StreamState(Assembly(toolInput, toolId, toolName, assistantMessage), appended, toolResults, None);
        assert items[i..][1..] == items[i + 1..];
        match items[i] {
          case RecvError(e) =>
            FailureAbsorbs(config, Step(config, s, items[i]), items[i + 1..]);
            return toolResults, Some(e);
          case Event(event) =>
            match event {
              case ContentBlockDelta(delta) =>
                if delta.None? {
                  FailureAbsorbs(config, Step(config, s, items[i]), items[i + 1..]);
                  return toolResults, Some(NO_DELTA);
                }
                match delta.value {
                  case TextDelta(text) => assistantMessage := assistantMessage + text;
                  case ToolUseDelta(input) => toolInput := toolInput + input;
                  case OtherDelta =>
                }
              case ContentBlockStart(start) =>
                if start.Some? && start.value.ToolUseStart? {
                  toolId := start.value.toolUseId;
                  toolName := start.value.name;
                }
              case MessageStart =>
              case MessageStop(reason) =>
                if reason == ToolUseStop {
                  var toolUse := ToolUseBlock(toolId, toolName, ToolInput(config, toolInput));
                  var turn := ToolTurn(assistantMessage, toolUse);
                  conversation := conversation + [turn];
                  appended := appended + [turn];
                  var result := UseTool(toolUse);
                  if result.Err? {
                    FailureAbsorbs(config, Step(config, s, items[i]), items[i + 1..]);
                    return toolResults, Some(result.error);
                  }
                  toolResults := toolResults + [ToolResult(result.value)];
                } else {
                  var turn := Message(Assistant, [Text(assistantMessage)]);
                  conversation := conversation + [turn];
                  appended := appended + [turn];
                }
                toolId, toolInput, toolName, assistantMessage := "", "", "", "";
              case OtherEvent =>
            }
        }
        i := i + 1;
      }
      assert Steps(config, INITIAL_STATE, items) == StreamState(Assembly(toolInput, toolId, toolName, assistantMessage), appended, toolResults, None);
      error := None;
    }

    /** The second loop of `process_output_stream`, over the follow-up
        stream. */
    method FollowUpStream(items: seq<Received>) returns (error: Option<string>)
      modifies this
      ensures var f := FollowSteps(FollowState("", [], None), items);
        conversation == old(conversation) + f.appended && error == f.failure
    {
      var text := "";
      ghost var appended: seq<Message> := [];
      var i := 0;
      assert items[i..] == items;
      while i < |items|
        invariant 0 <= i <= |items|
        invariant conversation == old(conversation) + appended
        invariant FollowSteps(FollowState("", [], None), items) == FollowSteps(FollowState(text, appended, None), items[i..])
        decreases |items| - i
      {
        ghost var s := FollowState(text, appended, None);
        assert items[i..][1..] == items[i + 1..];
        match items[i] {
          case RecvError(e) =>
            FollowFailureAbsorbs(FollowStep(s, items[i]), items[i + 1..]);
            return Some(e);
          case Event(event) =>
            match event {
              case ContentBlockDelta(delta) =>
                if delta.None? {
                  FollowFailureAbsorbs(FollowStep(s, items[i]), items[i + 1..]);
                  return Some(NO_DELTA);
                }
                if delta.value.TextDelta? {
                  text := text + delta.value.text;
                }
              case MessageStart =>
              case MessageStop(reason) =>
                if reason == EndTurn {
                  var turn := Message(Assistant, [Text(text)]);
                  conversation := conversation + [turn];
                  appended := appended + [turn];
                }
                text := "";
              case _ =>
            }
        }
        i := i + 1;
      }
      error := None;
    }

    /** `run_stream`: every error is caught and logged. */
    method RunStream(input: string) returns (logged: Option<string>, ghost sent: seq<ConverseRequest>)
      modifies this
      ensures var o := RunStreamSpec(config, old(conversation), input);
        conversation == old(conversation) + o.appended && logged == o.error && sent == o.requests
    {
      AppendUserMessage(input);
      var request := Request(config, conversation);
      var response := SendStream();
      if response.Err? {
        return Some(response.error), [request];
      }
      ghost var rest;
      logged, rest := ProcessOutputStream(response.value);
      sent := [request] + rest;
    }
  }
}
