/** The READ_FILE tool: its schema, the mapping from file extensions to the
    document formats Bedrock accepts, and the tool itself, which reads a
    file and returns it either as a document block or as text. */
module ReadFile {
  import opened Wrappers
  import J = Json
  import opened Messages
  import opened Text
  import opened Tool
  import opened Paths
  import opened Environment

  const READ_FILE_NAME := "READ_FILE"
  const READ_FILE_DESCRIPTION := "Read the contents of a file at the specified path. Use this when you need to examine the contents of an existing file."
  const PATH_DESCRIPTION := "The path of the file to read."

  /** The JSON the schema is written in. */
  function ReadFileSchemaJson(): J.Document {
    J.Object(map[
      "type" := J.String("object"),
      "properties" := J.Object(map[
        "path" := J.Object(map[
          "type" := J.String("string"),
          "description" := J.String(PATH_DESCRIPTION)])]),
      "required" := J.Array([J.String("path")])])
  }

  /** `read_file_schema`: the JSON parses as a schema with the single string
      property `path`, which is required, and that schema is what the tool
      configuration carries. */
  function ReadFileSchema(): (r: Result<J.Document, string>)
    ensures r == Ok(SchemaToDocument(ToolJsonSchema("object", map["path" := Property(PropertyType.String, PATH_DESCRIPTION)], ["path"])))
  {
    var d := ReadFileSchemaJson();
    var path := d.fields["properties"].fields["path"];
    assert NamesVariant(path.fields["type"], SerdeName(PropertyType.String));
    assert PropertyFromDocument(path) == Ok(Property(PropertyType.String, PATH_DESCRIPTION));
    var schema :- NewSchema(d);
    assert schema.properties == map["path" := Property(PropertyType.String, PATH_DESCRIPTION)];
    assert schema.required == ["path"];
    Ok(SchemaToDocument(schema))
  }

  /** The lower-case extension Bedrock knows each format by. */
  function FormatExtension(f: DocumentFormat): string {
    match f
    case Pdf => "pdf"
    case Csv => "csv"
    case Doc => "doc"
    case Docx => "docx"
    case Html => "html"
    case Md => "md"
    case Txt => "txt"
    case Xls => "xls"
    case Xlsx => "xlsx"
  }

  /** `get_format_from_extension`: the extension, lower-cased, must be one of
      the nine format names; anything else is an error naming the extension
      as given. */
  function FormatFromExtension(ext: string): (r: Result<DocumentFormat, string>)
    ensures r.Ok? <==> exists f: DocumentFormat :: ToLowerAscii(ext) == FormatExtension(f)
    ensures r.Ok? ==> FormatExtension(r.value) == ToLowerAscii(ext)
    ensures r.Err? ==> r.error == "No format available for extension: " + ext
  {
    var lower := ToLowerAscii(ext);
    if lower == FormatExtension(Pdf) then Ok(Pdf)
    else if lower == FormatExtension(Csv) then Ok(Csv)
    else if lower == FormatExtension(Doc) then Ok(Doc)
    else if lower == FormatExtension(Docx) then Ok(Docx)
    else if lower == FormatExtension(Html) then Ok(Html)
    else if lower == FormatExtension(Md) then Ok(Md)
    else if lower == FormatExtension(Txt) then Ok(Txt)
    else if lower == FormatExtension(Xls) then Ok(Xls)
    else if lower == FormatExtension(Xlsx) then Ok(Xlsx)
    else
      assert forall f: DocumentFormat :: ToLowerAscii(ext) != FormatExtension(f);
      Err("No format available for extension: " + ext)
  }

  /** Every format is recognised from its own extension, whatever its case. */
  lemma FormatRoundTrip(f: DocumentFormat)
    ensures FormatFromExtension(FormatExtension(f)) == Ok(f)
    ensures FormatFromExtension(ToUpperAscii(FormatExtension(f))) == Ok(f)
  {
    var e := FormatExtension(f);
    assert ToLowerAscii(e) == e;
    LowerOfUpper(e);
  }

  /** The match ignores ASCII case. */
  lemma FormatCaseInsensitive(a: string, b: string)
    requires ToLowerAscii(a) == ToLowerAscii(b)
    ensures FormatFromExtension(a).Ok? <==> FormatFromExtension(b).Ok?
    ensures FormatFromExtension(a).Ok? ==> FormatFromExtension(a) == FormatFromExtension(b)
  {
    var r := FormatFromExtension(a);
    if r.Ok? {
      assert FormatExtension(r.value) == ToLowerAscii(b);
    }
  }

  /** What a recognised file is returned as: a text note and the raw bytes as
      a document block named "file_read". */
  function DocumentContent(format: DocumentFormat, bytes: seq<byte>): seq<ToolResultContentBlock> {
    [ResultText("File read."), ResultDocument("file_read", format, bytes)]
  }

  /** `read_file`: every failure is an Error result under the caller's id,
      never an `Err`. The file is read before its extension is looked at. */
  function ReadFileTool(id: string, input: J.Document, platform: Platform): (r: ToolResultBlock)
    ensures r.toolUseId == id
    ensures !input.Object? ==> r == CreateToolResultBlock(id, "failed to convert input to object", Error)
    ensures input.Object? && "path" !in input.fields ==>
              r == CreateToolResultBlock(id, "path to read file from is not provided", Error)
    ensures input.Object? && "path" in input.fields && !input.fields["path"].String? ==>
              r == CreateToolResultBlock(id, "path to read file from is not a string.", Error)
    ensures input.Object? && "path" in input.fields && input.fields["path"].String? ==>
              var path := input.fields["path"].s;
              match platform.readFile(path)
              case Err(e) => r == CreateToolResultBlock(id, e, Error)
              case Ok(bytes) =>
                if Extension(path).Some? && FormatFromExtension(Extension(path).value).Ok? then
                  r == ToolResultBlock(id, DocumentContent(FormatFromExtension(Extension(path).value).value, bytes), Success)
                else
                  match platform.decodeUtf8(bytes)
                  case Err(e) => r == CreateToolResultBlock(id, e, Error)
                  case Ok(text) => r == CreateToolResultBlock(id, "File read with Content: " + text, Success)
  {
    match J.AsObject(input)
    case None => CreateToolResultBlock(id, "failed to convert input to object", Error)
    case Some(fields) =>
      match J.Get(fields, "path")
      case None => CreateToolResultBlock(id, "path to read file from is not provided", Error)
      case Some(value) =>
        match J.AsString(value)
        case None => CreateToolResultBlock(id, "path to read file from is not a string.", Error)
        case Some(path) =>
          match platform.readFile(path)
          case Err(e) => CreateToolResultBlock(id, e, Error)
          case Ok(bytes) =>
            var format := if Extension(path).Some? then FormatFromExtension(Extension(path).value) else Err("");
            if format.Ok? then
              ToolResultBlock(id, DocumentContent(format.value, bytes), Success)
            else
              match platform.decodeUtf8(bytes)
              case Err(e) => CreateToolResultBlock(id, e, Error)
              case Ok(text) => CreateToolResultBlock(id, "File read with Content: " + text, Success)
  }

  /** A document result carries exactly the bytes that were read, in a
      format named by the file's extension; a text result starts with the
      fixed prefix. In every case the result has at most two blocks and a
      text block comes first. */
  lemma ReadFileResultShape(id: string, input: J.Document, platform: Platform)
    ensures var r := ReadFileTool(id, input, platform);
      && 1 <= |r.content| <= 2
      && r.content[0].ResultText?
      && (|r.content| == 2 ==>
            && r.status == Success
            && input.Object? && "path" in input.fields && input.fields["path"].String?
            && var path := input.fields["path"].s;
            && platform.readFile(path).Ok?
            && Extension(path).Some?
            && r.content[1] == ResultDocument("file_read", r.content[1].format, platform.readFile(path).value)
            && FormatExtension(r.content[1].format) == ToLowerAscii(Extension(path).value))
  {
  }
}
