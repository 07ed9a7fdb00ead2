/** Everything the engine and the tools call but whose code is not part of
    the model, as total functions: the Bedrock client, the file system, the
    codecs, the JSON text parser and the code-running tool. Calling one with
    the same argument always gives the same answer. */
module Environment {
  import opened Wrappers
  import opened Json
  import opened Messages

  datatype InvokeModelRequest = InvokeModelRequest(modelId: string, contentType: string, body: Document)

  /** The three operations of the Bedrock runtime client the engine uses:
      a failed call gives the root cause of the error. A streamed response is
      the sequence of what `recv()` yields. */
  datatype Client = Client(
    converse: ConverseRequest -> Result<ConverseResponse, string>,
    converseStream: ConverseRequest -> Result<seq<Received>, string>,
    invokeModel: InvokeModelRequest -> Result<seq<byte>, string>)

  /** A decoded image (`image::DynamicImage`). */
  datatype DecodedImage = DecodedImage(pixels: seq<byte>)

  /** The code-running tool, whose module is not part of this model. */
  datatype PythonTool = PythonTool(
    name: string,
    description: string,
    schema: Result<Document, string>,
    run: (string, Document) -> Result<ToolResultBlock, string>)

  /** `fs::read`, `str::from_utf8`, `serde_json::from_str`, `fs::create_dir_all`
      (`None` is success), base64 decoding, `image::load_from_memory` and
      `DynamicImage::save` (`None` is success). */
  datatype Platform = Platform(
    readFile: string -> Result<seq<byte>, string>,
    decodeUtf8: seq<byte> -> Result<string, string>,
    parseJson: string -> Result<Document, string>,
    createDirAll: string -> Option<string>,
    decodeBase64: string -> Result<seq<byte>, string>,
    loadImage: seq<byte> -> Result<DecodedImage, string>,
    saveImage: (DecodedImage, string) -> Option<string>,
    python: PythonTool)
}
