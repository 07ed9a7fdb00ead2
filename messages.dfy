/** The Bedrock runtime types the engine exchanges with the service
    (`aws_sdk_bedrockruntime::types`): turns, content blocks, tool blocks,
    requests, responses and the events of a streamed response. Only the
    variants the program inspects are distinguished; every other variant is
    one `Other…` case. */
module Messages {
  import opened Wrappers
  import opened Json

  type byte = b: int | 0 <= b < 256

  datatype ConversationRole = User | Assistant

  datatype ToolResultStatus = Success | Error

  datatype DocumentFormat = Pdf | Csv | Doc | Docx | Html | Md | Txt | Xls | Xlsx

  datatype ToolResultContentBlock =
    | ResultText(text: string)
    | ResultDocument(name: string, format: DocumentFormat, source: seq<byte>)

  datatype ToolResultBlock = ToolResultBlock(toolUseId: string, content: seq<ToolResultContentBlock>, status: ToolResultStatus)

  datatype ToolUseBlock = ToolUseBlock(toolUseId: string, name: string, input: Document)

  datatype ContentBlock =
    | Text(text: string)
    | ToolUse(toolUse: ToolUseBlock)
    | ToolResult(toolResult: ToolResultBlock)
    | OtherBlock

  datatype Message = Message(role: ConversationRole, content: seq<ContentBlock>)

  datatype ToolSpecification = ToolSpecification(name: string, description: string, inputSchema: Document)

  /** What `converse()` and `converse_stream()` are sent: model id, system
      prompt, the whole transcript and the tool configuration. */
  datatype ConverseRequest = ConverseRequest(modelId: string, system: string, messages: seq<Message>, toolConfig: seq<ToolSpecification>)

  datatype ConverseOutput = OutputMessage(message: Message) | OutputUnknown

  /** `ConverseOutput::output()` may be absent. */
  datatype ConverseResponse = ConverseResponse(output: Option<ConverseOutput>)

  datatype StopReason = EndTurn | ToolUseStop | MaxTokens | StopSequence | GuardrailIntervened | ContentFiltered | OtherStopReason

  datatype BlockStart = ToolUseStart(toolUseId: string, name: string) | OtherStart

  datatype BlockDelta = TextDelta(text: string) | ToolUseDelta(input: string) | OtherDelta

  /** `ConverseStreamOutput`: message and block boundaries and deltas;
      metadata, block stops and unknown kinds are `OtherEvent`. */
  datatype StreamEvent =
    | MessageStart
    | ContentBlockStart(start: Option<BlockStart>)
    | ContentBlockDelta(delta: Option<BlockDelta>)
    | MessageStop(stopReason: StopReason)
    | OtherEvent

  /** One `stream.recv()` that yields an event or fails; the end of the
      sequence is `recv()` returning `None`. */
  datatype Received = Event(event: StreamEvent) | RecvError(message: string)
}
