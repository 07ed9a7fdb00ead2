# Bedrock assistant: the conversation and tool engine, in Dafny

This project models the core of a terminal chat client for Amazon Bedrock.
`BedrockService` keeps a transcript of turns. Each time the user speaks it
appends a User turn and sends the whole transcript to the chat model. It then
reads the reply in one of two ways:

- complete (`run` / `process_output`): the reply is one message;
- streamed (`run_stream` / `process_output_stream`): the reply is a list of
  events. A state machine with four string accumulators rebuilds the
  assistant turns from those events.

Every tool use in the reply is dispatched by name to one of three tools:

- READ_FILE reads a file and returns it as a document or as text;
- GENERATE_IMAGE asks the image model for pictures and saves them as
  `{dir}/{id}-{i}.png`;
- the code-running tool is opaque.

The tools' results go back to the model as a single User turn, and exactly one
follow-up reply is requested. The model also covers:

- the tool schemas and their conversion to JSON documents and back;
- the mapping from file extensions to document formats;
- the JSON shape of the image request and of the image model's response.

Files, one module each:

- `wrappers.dfy`: Option and Result.
- `json.dfy`: JSON documents.
- `text.dfy`: ASCII case and decimal numerals.
- `paths.dfy`: Unix path extension, parent and join.
- `messages.dfy`: the Bedrock message and stream-event types.
- `environment.dfy`: the transport and the platform, as oracles.
- `tool.dfy`: `tool/mod.rs`.
- `read_file.dfy`: `tool/read_file.rs`.
- `generate_image.dfy`: `tool/generate_image.rs`.
- `image_generator_parameter.dfy`: `tool/image_generator_parameter.rs`.
- `bedrock_service.dfy`: `bedrock_service.rs`.
- `service_properties.dfy`: the properties of the engine.

How the model is built:

- The chat model, the image model, the file system, the image codec, base64,
  JSON parsing and the code-running tool are functions held in the `Client`
  and `Platform` records.
- A stream is the finite list of what `recv()` returns. The end of the list is
  `recv()` returning nothing.
- Each engine operation is first a function of the configuration and the
  transcript before the call (`RunSpec`, `ProcessOutputSpec`,
  `ProcessStreamSpec`, `RunStreamSpec`). The function's result says three
  things: the turns appended, the requests sent and the error logged.
- The methods of the `BedrockService` class push onto the transcript in loops,
  as the Rust code does. Each method is proved to agree with its function.
- The properties are then proved about the functions.
- `save_generated_image` is treated the same way. The method
  `SaveGeneratedImage` reassigns the directory and loops over the images. It is
  proved equal to `SaveGeneratedImageSpec`, which also records the file-system
  calls in order.

Where the stated design and the code differ, the model follows the code:

- `ToolJsonSchema::new` does not check that the required names are declared
  properties. It also does not check that the type is "object".
  `SchemaRoundTrip` holds for every schema.
- Malformed base64 in a generated image escapes `save_generated_image` as an
  error, not as an Error result (`SaveImagesEscapes`). That error then ends
  `use_tool` and the whole run.
- In a streamed reply, every tool-use stop adds its result to one list. All of
  them reach the model in a single User turn after the stream ends
  (`ToolStopsShareOneResultsTurn`).
- In the follow-up stream, a turn is appended only at an EndTurn stop. Other
  stop reasons discard the text gathered.
- The quality text of an image request is parsed as JSON. So `"premium"` with
  its quotes selects Premium, and the bare word premium gives Standard.

## Model

| member | source | states |
|---|---|---|
| Tool.CreateToolResultBlock | src/tool/mod.rs:15-22 | the block carries the given id and status and exactly one text block holding the given content |
| Tool.WireNameIsSerdeName | src/tool/mod.rs:44-58 | for each of the six property types, the lower-cased Debug name written by `to_document` equals the camelCase name serde reads |
| Tool.PropertyToDocument | src/tool/mod.rs:60-73 | an object with exactly the keys "type" and "description"; "type" is the lower-cased variant name, "description" the description |
| Tool.SchemaToDocument | src/tool/mod.rs:83-96 | an object with exactly the keys "type", "properties" and "required"; property keys are kept one to one with each value written by `PropertyToDocument`; the required list keeps its length and order |
| Tool.PropertyTypeFromDocument | src/tool/mod.rs:44-53 | a value naming one of the six camelCase variants (as a string or as a one-key object) reads as that variant, and only such values read at all |
| Tool.PropertyFromDocument | src/tool/mod.rs:36-42 | succeeds exactly when the value is an object whose "type" names a property type and whose "description" is a string; the property read holds that type and that description |
| Tool.PropertiesFromDocument | src/tool/mod.rs:29-34 | succeeds exactly when every entry is a property; keys are kept and each value is its entry read as a property |
| Tool.RequiredFromDocument | src/tool/mod.rs:29-34 | succeeds exactly when the value is a list of strings; the list is kept in order |
| Tool.NewSchema | src/tool/mod.rs:77-80 | succeeds exactly when "type" is a string, "properties" reads as properties and "required" as a list of strings; nothing ties required names to properties |
| Tool.PropertyRoundTrip | src/tool/mod.rs:60-73 | reading back what `to_document` writes for a property gives the same property |
| Tool.SchemaRoundTrip | src/tool/mod.rs:77-96 | reading back what `to_document` writes for any schema gives the same schema (type, properties by key, required list in order), whatever the required names are |
| ReadFile.ReadFileSchema | src/tool/read_file.rs:14-27 | the schema declares one string property, "path", with its description, and requires ["path"] |
| ReadFile.FormatFromExtension | src/tool/read_file.rs:90-103 | succeeds exactly when the lower-cased extension is one of the nine format names, giving the format of that name; otherwise the error names the extension as given |
| ReadFile.FormatRoundTrip | src/tool/read_file.rs:90-103 | every format is recognised from its own extension, in lower and in upper case |
| ReadFile.FormatCaseInsensitive | src/tool/read_file.rs:91 | two extensions equal up to ASCII case give the same answer |
| ReadFile.ReadFileTool | src/tool/read_file.rs:29-87 | always a block under the caller's id, never an error; a non-object input, a missing path and a non-string path each give an Error result with its own message; a failed read gives an Error result with the error text; a recognised extension gives Success with "File read." and the bytes as a document named "file_read"; otherwise invalid UTF-8 gives an Error result and valid UTF-8 gives Success with "File read with Content: " followed by the text |
| ReadFile.ReadFileResultShape | src/tool/read_file.rs:59-86 | a result has one or two blocks, text first; a two-block result is a Success holding exactly the bytes read, in the format its extension names |
| GenerateImage.GenerateImageSchema | src/tool/generate_image.rs:20-54 | the schema declares the six properties with their types and descriptions (the size ones quoting 512) and requires ["prompt", "path"] |
| GenerateImage.ImageNameInjective | src/tool/generate_image.rs:103 | `{id}-{i}.png` differs for different indices |
| GenerateImage.ImagePathsDistinct | src/tool/generate_image.rs:103-104 | two images of one call never go to the same path, whatever the directory and id |
| GenerateImage.FailedImage | src/tool/generate_image.rs:106-119 | at the first image that is not saved, malformed base64 is an error, while a load or write failure is an Error result under the caller's id; only a write failure has written a file |
| GenerateImage.LeadingSaved | src/tool/generate_image.rs:102-125 | counts the images saved before the first one that is not, which it names |
| GenerateImage.SaveGeneratedImage | src/tool/generate_image.rs:56-127 | the method (path checks, directory choice, creating and opening the directory, the saving loop) returns the result and makes the file-system calls that `SaveGeneratedImageSpec` gives |
| GenerateImage.SaveGeneratedImageSpec | src/tool/generate_image.rs:56-127 | a non-object input, a missing path and a non-string path each give their own Error result with no file-system call; a string path always yields a directory (`TargetDirectory`), and the call is then exactly `SaveIntoSpec` on that directory |
| GenerateImage.SaveIntoSpec | src/tool/generate_image.rs:88-127 | the first call creates the directory exactly when its name is not empty, and no later call does; a failure to create it is an Error result after that call alone; otherwise the result is the loop's (`SaveImages` from index 0) and the calls are the optional directory creation, the opening of the directory, then the loop's calls |
| GenerateImage.SaveInto | src/tool/generate_image.rs:88-127 | creating the directory unless its name is empty (a failure is an Error result), opening it, then the loop: the result and calls that `SaveIntoSpec` gives |
| GenerateImage.SaveImagesFirst | src/tool/generate_image.rs:102-123 | at the first image, malformed base64 is an error with nothing written, a load failure an Error result with nothing written, a write failure an Error result after that one write; a saved image is written, opened, and the loop goes on at the next index |
| GenerateImage.SaveImagesLoop | src/tool/generate_image.rs:102-126 | the `for` loop returns the result and makes the calls that `SaveImages` gives from index 0 |
| GenerateImage.SaveImages | src/tool/generate_image.rs:102-126 | at most two calls per image (the write and the opening), and never a directory creation |
| GenerateImage.SavedPathsAppend | src/tool/generate_image.rs:102-125 | the paths written by two runs of calls are those of the first followed by those of the second |
| GenerateImage.PathsFrom | src/tool/generate_image.rs:102-104 | the k-th path is `{dir}/{id}-{index+k}.png` |
| GenerateImage.SaveImagesPaths | src/tool/generate_image.rs:102-119 | image i goes to `{dir}/{id}-{i}.png`, in input order: one write per saved image, plus the write that failed if that ended the loop |
| GenerateImage.SaveImagesPathsStep | src/tool/generate_image.rs:102-119 | a saved first image puts its own path in front of the paths the rest of the loop writes |
| GenerateImage.SaveImagesSucceeds | src/tool/generate_image.rs:102-126 | the loop returns "Image generated and saved." as Success exactly when every image is saved |
| GenerateImage.SaveImagesEscapes | src/tool/generate_image.rs:106 | the loop ends in an error exactly when the first image that is not saved has malformed base64 |
| GenerateImage.SaveImagesKeepsId | src/tool/generate_image.rs:102-126 | every block the loop returns is under the caller's id |
| GenerateImage.SaveGeneratedImageKeepsId | src/tool/generate_image.rs:56-127 | every block `save_generated_image` returns is under the caller's id |
| GenerateImage.TargetDirectoryFound | src/tool/generate_image.rs:78-86 | every string path yields a directory: the parent when the path has an extension, the path itself otherwise, so "cannot get a path to save the image." is never returned |
| GenerateImage.SaveGeneratedImageWrites | src/tool/generate_image.rs:56-127 | for a string path whose directory exists or is created, image i is written to `{dir}/{id}-{i}.png` in input order (dir chosen from the path), and the call reports "Image generated and saved." exactly when every image is saved |
| ImageGeneratorParameter.NewGenerateImageParams | src/tool/image_generator_parameter.rs:13-19 | task type TextImage, text the prompt, configuration passed through unchanged |
| ImageGeneratorParameter.TaskTypeFromJson | src/tool/image_generator_parameter.rs:23-30 | a value naming one of TEXT_IMAGE, INPAINTING, OUTPAINTING, IMAGE_VARIATION reads as that variant, and only such values read |
| ImageGeneratorParameter.QualityFromJson | src/tool/image_generator_parameter.rs:51-56 | a value naming "standard" or "premium" reads as that quality, and only such values read |
| ImageGeneratorParameter.ConfigToJson | src/tool/image_generator_parameter.rs:38-49 | each of "numberOfImages", "quality", "height", "width" is present exactly when its field is set, holding its value (quality by its lower-case name); no other key |
| ImageGeneratorParameter.ParamsToJson | src/tool/image_generator_parameter.rs:3-10 | keys are "taskType" and "textToImageParams", plus "imageGenerationConfig" exactly when a configuration is set |
| ImageGeneratorParameter.OptionalNumber | src/tool/image_generator_parameter.rs:41-48 | an optional number field reads as absent when missing or null and as its value when it is in range; anything else fails |
| ImageGeneratorParameter.ConfigFromJson | src/tool/image_generator_parameter.rs:38-49 | reads exactly from an object whose four optional fields all read; each number field is set exactly when present and not null, holding that number, and the quality is set exactly when present and not null, holding the quality it names |
| ImageGeneratorParameter.ParamsFromJson | src/tool/image_generator_parameter.rs:3-10 | reads exactly from an object whose "taskType" names a task type and whose "textToImageParams" is an object with a string "text", with a configuration that is absent, null or readable; the request holds that task type, that text, and the configuration read, set exactly when present and not null |
| ImageGeneratorParameter.ConfigRoundTrip | src/tool/image_generator_parameter.rs:38-56 | what serde writes for a configuration reads back as the same configuration |
| ImageGeneratorParameter.ParamsRoundTrip | src/tool/image_generator_parameter.rs:3-30 | what serde writes for a request reads back as the same request, an absent configuration included |
| ImageGeneratorParameter.ResponseFromJson | src/tool/image_generator_parameter.rs:59-63 | the response reads exactly from an object whose "images" field is a list of strings, kept in order |
| ImageGeneratorParameter.ResponseRoundTrip | src/tool/image_generator_parameter.rs:59-63 | a response written by serde reads back unchanged |
| Bedrock.ToolConfiguration | src/bedrock_service.rs:79-109 | fails only with the code-running tool's schema error; otherwise three tools in order: READ_FILE, GENERATE_IMAGE and the code-running tool, each with its name, description and schema |
| Bedrock.F32Spacing | src/bedrock_service.rs:498-514 | the distance between neighbouring `f32` values near n: 1 below 2^24, an even number of at least 2 above it, small enough that 2^24 steps pass n and large enough that 2^23 steps reach it |
| Bedrock.RoundToMultiple | src/bedrock_service.rs:498-514 | the multiple of u nearest n, within half a step either way, and the even multiple on a tie; multiples are kept |
| Bedrock.F32Round | src/bedrock_service.rs:498-514 | integer to `f32`, round to nearest with ties to even: numbers up to 2^24 are kept, larger ones go to a nearest multiple of the spacing, never below 2^24 |
| Bedrock.ToU8 | src/bedrock_service.rs:500 | `to_f32_lossy() as u8` keeps 0..255 exactly, turns negative counts into 0 and saturates at 255 above |
| Bedrock.ToU128 | src/bedrock_service.rs:509-514 | `to_f32_lossy() as u128` keeps sizes up to 2^24 exactly, turns negative ones into 0, gives larger ones as `f32` rounds them (`F32Round`), and saturates when that rounding reaches 2^128 |
| Bedrock.ImageRequestFromInput | src/bedrock_service.rs:490-526 | a non-object input, a missing or non-string prompt and a missing or non-string path each give their own error, in that order; it succeeds exactly when prompt and path are strings, giving a TextImage request for the prompt; each configuration field is set: count, height and width through the casts when the field is a number and 1, 512, 512 otherwise, quality Standard unless the field is a string that parses as JSON naming a quality |
| Bedrock.ImagesFromModel | src/bedrock_service.rs:529-546 | each step in turn (the model call, UTF-8 decoding, JSON parsing, reading the response) returns its own error when it fails; when all succeed the result is `Ok` of the response's "images" list |
| Bedrock.GenerateImageFromPrompt | src/bedrock_service.rs:489-547 | an input error is returned as is; otherwise the result is the image model's answer to the request the input gives |
| Bedrock.UseToolSpec | src/bedrock_service.rs:456-485 | dispatch by name: READ_FILE is the read-file tool's block; GENERATE_IMAGE is an Error result carrying a failed generation's error, or else what `save_generated_image` returns for the images; the code-running tool's name is that tool's answer; any other name is the error "The requested tool with name … does not exist" |
| Bedrock.CollectResults | src/bedrock_service.rs:179-199 | what the loop gathers is only ToolResult blocks, at most one per block of the reply |
| Bedrock.ReplyMessage | src/bedrock_service.rs:168-174 | a reply is read as a message exactly when its output is present and a message; otherwise "Error getting output" or "Output is not a message" |
| Bedrock.ProcessOutputSpec | src/bedrock_service.rs:167-234 | at most three turns appended and one request sent; the first turn is the reply's message; a request is sent exactly when a results turn follows it, and carries the transcript up to that User turn; a run without error appends one turn or three |
| Bedrock.RunSpec | src/bedrock_service.rs:125-147 | one to four turns and one or two requests; the user's turn comes first and the first request ends with it; a second request carries the transcript up to the results turn |
| Bedrock.Step | src/bedrock_service.rs:289-383 | one stream item: a failed state stays failed; at most one turn and one result are added, earlier ones kept; a new result is a ToolResult and comes with a new turn |
| Bedrock.FollowStep | src/bedrock_service.rs:400-433 | one follow-up item: a failed state stays failed; at most one turn is added, earlier ones kept, and only at an EndTurn stop, holding the text gathered |
| Bedrock.ProcessStreamSpec | src/bedrock_service.rs:279-443 | at most one request, which carries the transcript plus the turns appended up to a User turn |
| Bedrock.RunStreamSpec | src/bedrock_service.rs:237-260 | the user's turn comes first and the first request ends with it; a second request carries the transcript up to a prefix of the turns appended |
| Bedrock.FailureAbsorbs | src/bedrock_service.rs:289-296 | once the stream loop has failed, no later item changes its state |
| Bedrock.FollowFailureAbsorbs | src/bedrock_service.rs:401-406 | once the follow-up loop has failed, no later item changes its state |
| Bedrock.ToolInput | src/bedrock_service.rs:340-343 | the tool input is the parsed JSON when the accumulated text parses, and the text itself as a string otherwise |
| Bedrock.ToolTurn | src/bedrock_service.rs:351-360 | an assistant turn holding the text only when it is non-empty, followed by the tool use |
| Bedrock.BedrockService.New | src/bedrock_service.rs:79-122 | fails exactly when the tool configuration does; otherwise an empty transcript and that configuration |
| Bedrock.BedrockService.AppendUserMessage | src/bedrock_service.rs:445-453 | the transcript gains exactly one User turn holding the input as text; earlier turns are unchanged |
| Bedrock.BedrockService.Send | src/bedrock_service.rs:150-165 | the request carries the chat model, the system prompt, the whole transcript and the tools |
| Bedrock.BedrockService.SendStream | src/bedrock_service.rs:262-277 | the streamed request carries the same |
| Bedrock.BedrockService.UseTool | src/bedrock_service.rs:456-485 | the method's result is `UseToolSpec` |
| Bedrock.BedrockService.ProcessOutput | src/bedrock_service.rs:167-234 | the transcript grows by the turns `ProcessOutputSpec` gives and the error is its error |
| Bedrock.BedrockService.Run | src/bedrock_service.rs:125-147 | the transcript grows by the turns `RunSpec` gives; every error is caught and only logged |
| Bedrock.BedrockService.ProcessOutputStream | src/bedrock_service.rs:279-443 | the transcript grows by the turns `ProcessStreamSpec` gives and the error is its error |
| Bedrock.BedrockService.AssembleStream | src/bedrock_service.rs:279-387 | the event loop appends the turns `Steps` gives from the empty state, returns its error, and otherwise the results it gathered |
| Bedrock.BedrockService.FollowUpStream | src/bedrock_service.rs:396-439 | the follow-up loop appends the turns `FollowSteps` gives |
| Bedrock.BedrockService.RunStream | src/bedrock_service.rs:237-260 | the transcript grows by the turns `RunStreamSpec` gives; every error is caught and only logged |
| ServiceProperties.UserTurnFirst | src/bedrock_service.rs:125-136 | both `run` and `run_stream` append the user's turn first, and their first request ends with it |
| ServiceProperties.ResultsOf | src/bedrock_service.rs:181-199 | the reference results turn: it exists exactly when every tool succeeds, with one result per tool use, in order |
| ServiceProperties.ResultsFollowToolUses | src/bedrock_service.rs:181-199 | the loop of `process_output` gathers exactly the reference results of the tool uses it reaches, in their order |
| ServiceProperties.FirstFailingToolDecides | src/bedrock_service.rs:187-193 | for any k: when the reachable tools before tool k succeed and tool k fails, tool k's error is the loop's error |
| ServiceProperties.FirstFailureDecidesResults | src/bedrock_service.rs:187-193 | the reference results turn of a list of tool uses is the error of the first tool that fails |
| ServiceProperties.StopsAtFirstOtherBlock | src/bedrock_service.rs:195-197 | nothing after the first block that is neither text nor a tool use is looked at |
| ServiceProperties.ToolResultKeepsId | src/bedrock_service.rs:456-485 | a tool's result carries the id of the tool use that asked for it, provided the code-running tool does |
| ServiceProperties.ResultIdsMatchToolUses | src/bedrock_service.rs:187-193 | result i of the results turn answers reachable tool use i |
| ServiceProperties.ModelTurnFirst | src/bedrock_service.rs:175-201 | the model's turn is the first turn appended, before any tool runs; with no tool use the transcript grows by that turn alone and nothing more is sent |
| ServiceProperties.ToolRoundTrip | src/bedrock_service.rs:201-217 | when tools ran: one User turn of ToolResult blocks follows the model's turn, exactly one follow-up request carries the transcript up to it, and its reply is the last turn appended |
| ServiceProperties.UnknownToolEndsRun | src/bedrock_service.rs:138-145 | a reply whose first tool names no tool ends `run` with that error logged, keeping the user's and the model's turns, after one request |
| ServiceProperties.RunWithToolsSendsTwice | src/bedrock_service.rs:125-217 | a `run` whose reply runs tools sends exactly two requests, the second carrying the user's turn, the model's turn and the results turn |
| ServiceProperties.StepsAppend | src/bedrock_service.rs:288-387 | reading two runs of events is reading the first, then the second |
| ServiceProperties.TextDeltasAccumulate | src/bedrock_service.rs:298-301 | text deltas are concatenated onto the assistant text in arrival order, and nothing else changes |
| ServiceProperties.ToolDeltasAccumulate | src/bedrock_service.rs:302-305 | tool-input deltas are concatenated onto the tool input in arrival order, and nothing else changes |
| ServiceProperties.SkippedEvents | src/bedrock_service.rs:306-334 | other deltas, non-tool block starts, message starts and unknown events leave the state unchanged |
| ServiceProperties.SkippedRunKeepsState | src/bedrock_service.rs:306-334 | any run of passed-over events (block stops and metadata among them) leaves the state unchanged |
| ServiceProperties.DropSkipped | src/bedrock_service.rs:288-387 | a run of passed-over events can be taken out of any stream without changing where the loop ends up |
| ServiceProperties.WithoutSkipped | src/bedrock_service.rs:288-387 | reading a tool-use message is reading its events without those passed over |
| ServiceProperties.BareToolMessage | src/bedrock_service.rs:295-379 | the bare events of a message (start, text deltas, tool-use start, input deltas, tool-use stop) append one assistant turn with the whole text and the parsed input, and gather its result or fail with its error |
| ServiceProperties.MessageStopTurn | src/bedrock_service.rs:335-379 | a ToolUse stop appends the text (if any) and one tool use with the latest id and name and the parsed input, and runs that tool; any other stop appends one text turn; unless the tool failed, all four accumulators are then empty |
| ServiceProperties.StreamedToolMessage | src/bedrock_service.rs:288-379 | a streamed tool-use message, with block stops, metadata and any other passed-over events between its pieces, is rebuilt into one assistant turn with the whole text and the whole input; its tool's result is gathered, or its error ends the loop with the results unchanged |
| ServiceProperties.StreamedToolMessageOk | src/bedrock_service.rs:288-379 | when that tool succeeds, the state after the message is exactly: empty accumulators, the turn appended, the result added, no failure |
| ServiceProperties.FirstToolMessage | src/bedrock_service.rs:288-379 | the first message of a stream is taken in full, leaving the rest of the stream to continue from its new state |
| ServiceProperties.StreamResultsThenOneFollowUp | src/bedrock_service.rs:389-396 | a clean stream with results appends its turns, then one User turn with all the results, and sends exactly one follow-up request carrying the transcript up to it |
| ServiceProperties.UsesOf | src/bedrock_service.rs:340-349 | the tool use each streamed message stands for, in order |
| ServiceProperties.TurnsOf | src/bedrock_service.rs:351-362 | the assistant turn each streamed message is rebuilt into, in order |
| ServiceProperties.StreamedToolMessages | src/bedrock_service.rs:288-387 | several streamed tool-use messages, each with block stops and metadata between its pieces, whose tools all succeed give one assistant turn each, in order, and exactly the reference results of their tool uses |
| ServiceProperties.ToolStopsShareOneResultsTurn | src/bedrock_service.rs:364-396 | all the tool stops of one stream (block stops and metadata included) share one User results turn after every assistant turn, with exactly one follow-up stream requested |
| ServiceProperties.UnknownToolEndsStream | src/bedrock_service.rs:364 | after any prefix that leaves the loop clean with empty accumulators, a tool-use message (block stops and metadata included) naming no tool appends its assistant turn after the prefix's turns, ignores the rest of the stream, sends nothing more and logs the unknown-tool error |
| ServiceProperties.FollowUpAppendsOnlyAtEndTurn | src/bedrock_service.rs:400-439 | the follow-up stream appends only assistant text turns; on a stream without errors, exactly one per EndTurn stop |
| ServiceProperties.FollowStepsAppend | src/bedrock_service.rs:400-433 | reading two runs of follow-up events is reading the first, then the second |
| ServiceProperties.FollowSkippedRunKeepsState | src/bedrock_service.rs:400-433 | block stops, metadata, tool-use starts and tool-input deltas leave the follow-up state unchanged |
| ServiceProperties.FollowTextDeltasAccumulate | src/bedrock_service.rs:408-411 | follow-up text deltas are concatenated onto the text in arrival order, and nothing else changes |
| ServiceProperties.FollowUpReply | src/bedrock_service.rs:400-433 | one follow-up reply: at an EndTurn stop the turn appended is an assistant turn holding exactly the text so far followed by the reply's text deltas; any other stop appends nothing; either way the text is then cleared |
| ServiceProperties.ImageDefaults | src/bedrock_service.rs:499-526 | with only prompt and path given, the request asks for one Standard image of 512 by 512 |
| ServiceProperties.QualityTextIsJson | src/bedrock_service.rs:503-506 | Premium is chosen exactly when the quality text parses as JSON naming "premium"; text that does not parse gives Standard |
| ServiceProperties.ImageNumbersCast | src/bedrock_service.rs:499-516 | numeric count, height and width reach the request through `ToU8` and `ToU128`, rounding of large sizes included |
| ServiceProperties.LargeSizesRoundToF32 | src/bedrock_service.rs:509-514 | 2^24 + 1 reaches the request as 2^24 (the tie goes to the even neighbour) and 2^24 + 3 as 2^24 + 4 |
| Text.DecimalValueOfNatToString | src/tool/generate_image.rs:42 | the decimal text of a number reads back as that number |
| Text.NatToStringInjective | src/tool/generate_image.rs:103 | different numbers have different decimal texts |
| Text.NatToString | src/tool/generate_image.rs:103 | `format!("{}", n)` is a non-empty string of decimal digits |
| Text.ToLowerAscii | src/tool/read_file.rs:91 | same length, each character lower-cased on its own |
| Text.LowerOfUpper | src/tool/read_file.rs:91 | lower-casing after upper-casing is lower-casing |
| Paths.JoinInjective | src/tool/generate_image.rs:104 | joining a directory with two different relative names gives two different paths |
| Paths.LastDot | src/tool/generate_image.rs:79 | the position of the last `.`, with none after it; none only when there is no `.` |
| Paths.Extension | src/tool/generate_image.rs:79 | an extension is what follows the last `.` of the file name, with at least one character before that `.`; such a file name always has one |
| Paths.Parent | src/tool/generate_image.rs:80 | a parent is a strict prefix of the path; "" and "/" have none; a path ending in a name always has one |
| Paths.ExtensionImpliesParent | src/tool/generate_image.rs:79-85 | a path with an extension has a parent |
| Paths.Join | src/tool/generate_image.rs:104 | an absolute name replaces the base; otherwise the result is the base, at most one `/`, then the name |

## Left out

- Terminal output (`terminal_service.rs`) is not modelled. Logging is a no-op, and `Run`/`RunStream` return the logged error instead.
- `main.rs` is not part of this model: flag parsing, AWS set-up, the async runtime and the key-event loop.
- `model_constants.rs` is not part of this model. Model ids and the system prompt text are fields of `Config`.
- The chat model, the image model, `recv()`, `fs::read`, `fs::create_dir_all`, image loading and saving, base64, UTF-8 decoding, `serde_json::from_str` and the code-running tool are oracles. A repeated call with the same arguments gives the same answer.
- `open::that_detached` is recorded as a call, and its outcome is ignored, as the code does.
- Bedrock.ToU128: `to_f32_lossy` is modelled as one rounding of the integer to `f32`. Numbers of 2^64 and more, which the source holds as `f64` and rounds twice, are not told apart from that.
- Bedrock.ToU8: the same single rounding; it cannot change the count, which saturates at 255 long before 2^24.
- Fractional numbers in tool inputs are not modelled. JSON numbers are integers here.
- `Value::to_document` is not part of this model. A parsed tool input is taken to be the document the parser gives.
- serde's reading of a struct from a JSON array is not modelled, nor the exact wording of serde's errors. The error texts of `NewSchema` and the readers are placeholders.
- Message and block builders are taken never to fail, because every field they require is set.
- ServiceProperties.ToolResultKeepsId: assumes the code-running tool answers under the id it is given, because its code is not part of this model.
- GenerateImage.SaveGeneratedImage: the image paths are joined as Unix paths, and Windows path rules are not modelled.
