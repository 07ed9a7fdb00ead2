/** What the conversation engine promises, proved about the functions the
    `BedrockService` methods are proved to follow: the shape of the
    transcript after a complete or a streamed reply, the order of tool
    results, and how the streamed fragments are put back together. */
module ServiceProperties {
  import opened Wrappers
  import J = Json
  import opened Messages
  import opened Environment
  import opened Tool
  import ReadFile
  import GenerateImage
  import IGP = ImageGeneratorParameter
  import opened Bedrock

  // ---------------------------------------------------------------------
  // The user's turn.

  /** Both `run` and `run_stream` append the user's turn first and send the
      transcript ending with it as their first request, whatever follows. */
  lemma UserTurnFirst(cfg: Config, conversation: seq<Message>, input: string)
    ensures var o := RunSpec(cfg, conversation, input);
      && |o.appended| >= 1 && o.appended[0] == Message(User, [Text(input)])
      && |o.requests| >= 1 && o.requests[0].messages == conversation + [Message(User, [Text(input)])]
    ensures var o := RunStreamSpec(cfg, conversation, input);
      && |o.appended| >= 1 && o.appended[0] == Message(User, [Text(input)])
      && |o.requests| >= 1 && o.requests[0].messages == conversation + [Message(User, [Text(input)])]
  {
  }

  // ---------------------------------------------------------------------
  // Tool results in the non-streaming path.

  /** The tool uses the loop of `process_output` reaches: those before the
      first block that is neither text nor a tool use, in order. */
  function ToolUsesBeforeStop(blocks: seq<ContentBlock>): seq<ToolUseBlock>
    decreases |blocks|
  {
    if |blocks| == 0 then []
    else match blocks[0]
      case Text(_) => ToolUsesBeforeStop(blocks[1..])
      case ToolUse(toolUse) => [toolUse] + ToolUsesBeforeStop(blocks[1..])
      case _ => []
  }

  /** Reference definition of a results turn: the result of each tool use
      in order, or the error of the first one that fails. */
  function ResultsOf(cfg: Config, uses: seq<ToolUseBlock>): (r: Result<seq<ContentBlock>, string>)
    ensures r.Ok? <==> forall i :: 0 <= i < |uses| ==> UseToolSpec(cfg, uses[i]).Ok?
    ensures r.Ok? ==> |r.value| == |uses|
    ensures r.Ok? ==> forall i :: 0 <= i < |uses| ==> r.value[i] == ToolResult(UseToolSpec(cfg, uses[i]).value)
    decreases |uses|
  {
    if |uses| == 0 then Ok([])
    else
      var first := UseToolSpec(cfg, uses[0]);
      var rest := ResultsOf(cfg, uses[1..]);
      if first.Err? then Err(first.error)
      else if rest.Err? then
        assert forall i :: 1 <= i < |uses| ==> uses[i] == uses[1..][i - 1];
        rest
      else
        assert forall i :: 1 <= i < |uses| ==> uses[i] == uses[1..][i - 1];
        Ok([ToolResult(first.value)] + rest.value)
  }

  /** The loop of `process_output` gathers exactly the reference results of
      the tool uses it reaches. */
  lemma {:induction false} ResultsFollowToolUses(cfg: Config, blocks: seq<ContentBlock>)
    ensures CollectResults(cfg, blocks) == ResultsOf(cfg, ToolUsesBeforeStop(blocks))
    decreases |blocks|
  {
    if |blocks| > 0 {
      ResultsFollowToolUses(cfg, blocks[1..]);
      match blocks[0]
      case Text(_) =>
      case ToolUse(toolUse) =>
        var uses := ToolUsesBeforeStop(blocks);
        assert uses[0] == toolUse && uses[1..] == ToolUsesBeforeStop(blocks[1..]);
      case _ =>
    }
  }

  /** In the reference, the first tool that fails decides the error. */
  lemma {:induction false} FirstFailureDecidesResults(cfg: Config, uses: seq<ToolUseBlock>, k: nat)
    requires k < |uses|
    requires forall j :: 0 <= j < k ==> UseToolSpec(cfg, uses[j]).Ok?
    requires UseToolSpec(cfg, uses[k]).Err?
    ensures ResultsOf(cfg, uses) == Err(UseToolSpec(cfg, uses[k]).error)
    decreases k
  {
    if k > 0 {
      assert forall j :: 0 <= j < k - 1 ==> uses[1..][j] == uses[j + 1];
      FirstFailureDecidesResults(cfg, uses[1..], k - 1);
    }
  }

  /** When the reachable tools before tool use `k` succeed and tool use `k`
      fails, the `?` in the loop of `process_output` returns tool use `k`'s
      error. */
  lemma FirstFailingToolDecides(cfg: Config, blocks: seq<ContentBlock>, k: nat)
    requires k < |ToolUsesBeforeStop(blocks)|
    requires forall j :: 0 <= j < k ==> UseToolSpec(cfg, ToolUsesBeforeStop(blocks)[j]).Ok?
    requires UseToolSpec(cfg, ToolUsesBeforeStop(blocks)[k]).Err?
    ensures CollectResults(cfg, blocks) == Err(UseToolSpec(cfg, ToolUsesBeforeStop(blocks)[k]).error)
  {
    ResultsFollowToolUses(cfg, blocks);
    FirstFailureDecidesResults(cfg, ToolUsesBeforeStop(blocks), k);
  }

  /** The loop ends at the first block that is neither text nor a tool use:
      nothing from there on is looked at. */
  lemma {:induction false} StopsAtFirstOtherBlock(cfg: Config, blocks: seq<ContentBlock>, k: nat)
    requires k < |blocks| && !blocks[k].Text? && !blocks[k].ToolUse?
    ensures CollectResults(cfg, blocks) == CollectResults(cfg, blocks[..k])
    ensures ToolUsesBeforeStop(blocks) == ToolUsesBeforeStop(blocks[..k])
    decreases k
  {
    if k > 0 {
      assert blocks[..k][0] == blocks[0];
      assert blocks[..k][1..] == blocks[1..][..k - 1];
      StopsAtFirstOtherBlock(cfg, blocks[1..], k - 1);
    }
  }

  /** The code-running tool answers under the id it is given. */
  ghost predicate PythonKeepsIds(platform: Platform) {
    forall id: string, input: J.Document :: platform.python.run(id, input).Ok? ==> platform.python.run(id, input).value.toolUseId == id
  }

  /** A tool's result carries the id of the tool use that asked for it. */
  lemma ToolResultKeepsId(cfg: Config, toolUse: ToolUseBlock)
    requires PythonKeepsIds(cfg.platform)
    ensures UseToolSpec(cfg, toolUse).Ok? ==> UseToolSpec(cfg, toolUse).value.toolUseId == toolUse.toolUseId
  {
    var images := GenerateImageFromPrompt(cfg, toolUse.input);
    if images.Ok? {
      GenerateImage.SaveGeneratedImageKeepsId(toolUse.toolUseId, toolUse.input, images.value, cfg.platform);
    }
  }

  /** So the results turn answers the tool uses one for one: result i
      carries the id of reachable tool use i. */
  lemma ResultIdsMatchToolUses(cfg: Config, blocks: seq<ContentBlock>)
    requires PythonKeepsIds(cfg.platform)
    ensures var r := CollectResults(cfg, blocks);
      var uses := ToolUsesBeforeStop(blocks);
      r.Ok? ==> |r.value| == |uses| && forall i :: 0 <= i < |uses| ==> r.value[i].toolResult.toolUseId == uses[i].toolUseId
  {
    ResultsFollowToolUses(cfg, blocks);
    var uses := ToolUsesBeforeStop(blocks);
    forall i | 0 <= i < |uses|
      ensures UseToolSpec(cfg, uses[i]).Ok? ==> UseToolSpec(cfg, uses[i]).value.toolUseId == uses[i].toolUseId
    {
      ToolResultKeepsId(cfg, uses[i]);
    }
  }

  // ---------------------------------------------------------------------
  // The shape of the transcript after a complete reply.

  /** The model's turn is appended before any tool runs: it is the first
      turn `process_output` appends whatever the tools do. When no tool
      runs, it is the only one, and nothing more is sent. */
  lemma ModelTurnFirst(cfg: Config, conversation: seq<Message>, response: ConverseResponse)
    requires response.output.Some? && response.output.value.OutputMessage?
    ensures var o := ProcessOutputSpec(cfg, conversation, response);
      && |o.appended| >= 1 && o.appended[0] == response.output.value.message
    ensures ToolUsesBeforeStop(response.output.value.message.content) == [] ==>
      ProcessOutputSpec(cfg, conversation, response) == Outcome([response.output.value.message], [], None)
  {
    var message := response.output.value.message;
    ResultsFollowToolUses(cfg, message.content);
  }

  /** When tools ran: exactly one User turn made only of their results
      follows the model's turn, exactly one follow-up request is sent, it
      carries the transcript up to that turn, and its reply is the last
      turn appended. */
  lemma ToolRoundTrip(cfg: Config, conversation: seq<Message>, response: ConverseResponse)
    requires response.output.Some? && response.output.value.OutputMessage?
    requires CollectResults(cfg, response.output.value.message.content).Ok?
    requires CollectResults(cfg, response.output.value.message.content).value != []
    ensures var message := response.output.value.message;
      var results := CollectResults(cfg, message.content).value;
      var o := ProcessOutputSpec(cfg, conversation, response);
      && 2 <= |o.appended| <= 3
      && o.appended[0] == message
      && o.appended[1] == Message(User, results)
      && (forall i :: 0 <= i < |results| ==> results[i].ToolResult?)
      && |o.requests| == 1
      && o.requests[0].messages == conversation + [message, Message(User, results)]
      && (|o.appended| == 3 <==> o.error.None?)
      && (o.error.None? ==> cfg.client.converse(o.requests[0]).Ok?
                            && cfg.client.converse(o.requests[0]).value.output == Some(OutputMessage(o.appended[2])))
  {
  }

  /** A tool use naming no tool: `run` logs the error, sends nothing more,
      and the transcript keeps the user's turn and the model's turn. */
  lemma UnknownToolEndsRun(cfg: Config, conversation: seq<Message>, input: string)
    requires var request := Request(cfg, conversation + [UserMessage(input)]);
      && cfg.client.converse(request).Ok?
      && ReplyMessage(cfg.client.converse(request).value).Ok?
      && var uses := ToolUsesBeforeStop(ReplyMessage(cfg.client.converse(request).value).value.content);
      && |uses| > 0
      && uses[0].name !in {ReadFile.READ_FILE_NAME, GenerateImage.GENERATE_IMAGE_NAME, cfg.platform.python.name}
    ensures var request := Request(cfg, conversation + [UserMessage(input)]);
      var message := ReplyMessage(cfg.client.converse(request).value).value;
      RunSpec(cfg, conversation, input)
        == Outcome([UserMessage(input), message], [request], Some(UnknownToolMessage(ToolUsesBeforeStop(message.content)[0].name)))
  {
    var request := Request(cfg, conversation + [UserMessage(input)]);
    var message := ReplyMessage(cfg.client.converse(request).value).value;
    FirstFailingToolDecides(cfg, message.content, 0);
  }

  /** With tools, a whole `run` sends exactly two requests: the second
      carries the user's turn, the model's turn and the results turn. */
  lemma RunWithToolsSendsTwice(cfg: Config, conversation: seq<Message>, input: string)
    requires var request := Request(cfg, conversation + [UserMessage(input)]);
      && cfg.client.converse(request).Ok?
      && ReplyMessage(cfg.client.converse(request).value).Ok?
      && CollectResults(cfg, ReplyMessage(cfg.client.converse(request).value).value.content).Ok?
      && CollectResults(cfg, ReplyMessage(cfg.client.converse(request).value).value.content).value != []
    ensures var request := Request(cfg, conversation + [UserMessage(input)]);
      var message := ReplyMessage(cfg.client.converse(request).value).value;
      var results := CollectResults(cfg, message.content).value;
      var o := RunSpec(cfg, conversation, input);
      && |o.requests| == 2
      && o.requests[1].messages == conversation + [UserMessage(input), message, Message(User, results)]
      && o.appended[..3] == [UserMessage(input), message, Message(User, results)]
  {
    var request := Request(cfg, conversation + [UserMessage(input)]);
    var response := cfg.client.converse(request).value;
    ToolRoundTrip(cfg, conversation + [UserMessage(input)], response);
  }

  // ---------------------------------------------------------------------
  // Streaming: putting the fragments back together.

  lemma {:induction false} StepsAppend(cfg: Config, s: StreamState, a: seq<Received>, b: seq<Received>)
    ensures Steps(cfg, s, a + b) == Steps(cfg, Steps(cfg, s, a), b)
    decreases |a|
  {
    if |a| > 0 {
      assert (a + b)[0] == a[0];
      assert (a + b)[1..] == a[1..] + b;
      StepsAppend(cfg, Step(cfg, s, a[0]), a[1..], b);
    } else {
      assert a + b == b;
    }
  }

  function Concat(parts: seq<string>): string
    decreases |parts|
  {
    if |parts| == 0 then "" else parts[0] + Concat(parts[1..])
  }

  /** Text deltas carrying `parts`, one event each. */
  function TextDeltas(parts: seq<string>): (r: seq<Received>)
    ensures |r| == |parts|
    ensures forall i :: 0 <= i < |parts| ==> r[i] == Event(ContentBlockDelta(Some(TextDelta(parts[i]))))
    decreases |parts|
  {
    if |parts| == 0 then [] else [Event(ContentBlockDelta(Some(TextDelta(parts[0]))))] + TextDeltas(parts[1..])
  }

  /** Tool-input deltas carrying `parts`, one event each. */
  function ToolDeltas(parts: seq<string>): (r: seq<Received>)
    ensures |r| == |parts|
    ensures forall i :: 0 <= i < |parts| ==> r[i] == Event(ContentBlockDelta(Some(ToolUseDelta(parts[i]))))
    decreases |parts|
  {
    if |parts| == 0 then [] else [Event(ContentBlockDelta(Some(ToolUseDelta(parts[0]))))] + ToolDeltas(parts[1..])
  }

  /** Text deltas are concatenated in arrival order onto the assistant
      text, and nothing else changes. */
  lemma {:induction false} TextDeltasAccumulate(cfg: Config, s: StreamState, parts: seq<string>)
    requires s.failure.None?
    ensures Steps(cfg, s, TextDeltas(parts)) == s.(acc := s.acc.(assistantMessage := s.acc.assistantMessage + Concat(parts)))
    decreases |parts|
  {
    if |parts| == 0 {
      assert s.acc.assistantMessage + "" == s.acc.assistantMessage;
    } else {
      var next := s.(acc := s.acc.(assistantMessage := s.acc.assistantMessage + parts[0]));
      assert TextDeltas(parts)[1..] == TextDeltas(parts[1..]);
      TextDeltasAccumulate(cfg, next, parts[1..]);
      assert s.acc.assistantMessage + parts[0] + Concat(parts[1..]) == s.acc.assistantMessage + Concat(parts);
    }
  }

  /** Tool-input deltas are concatenated in arrival order onto the tool
      input, and nothing else changes. */
  lemma {:induction false} ToolDeltasAccumulate(cfg: Config, s: StreamState, parts: seq<string>)
    requires s.failure.None?
    ensures Steps(cfg, s, ToolDeltas(parts)) == s.(acc := s.acc.(toolInput := s.acc.toolInput + Concat(parts)))
    decreases |parts|
  {
    if |parts| == 0 {
      assert s.acc.toolInput + "" == s.acc.toolInput;
    } else {
      var next := s.(acc := s.acc.(toolInput := s.acc.toolInput + parts[0]));
      assert ToolDeltas(parts)[1..] == ToolDeltas(parts[1..]);
      ToolDeltasAccumulate(cfg, next, parts[1..]);
      assert s.acc.toolInput + parts[0] + Concat(parts[1..]) == s.acc.toolInput + Concat(parts);
    }
  }

  /** Other delta kinds, block starts that are not tool uses, message
      starts and unknown events are skipped without ending the loop. */
  lemma SkippedEvents(cfg: Config, s: StreamState)
    ensures Step(cfg, s, Event(ContentBlockDelta(Some(OtherDelta)))) == s
    ensures Step(cfg, s, Event(ContentBlockStart(None))) == s
    ensures Step(cfg, s, Event(ContentBlockStart(Some(OtherStart)))) == s
    ensures Step(cfg, s, Event(MessageStart)) == s
    ensures Step(cfg, s, Event(OtherEvent)) == s
  {
  }

  /** A stop with reason ToolUse appends the assistant's text (if any) and
      one tool use carrying the latest id and name and the parsed input;
      any other stop appends one text turn. Unless the tool failed, all four
      accumulators are empty afterwards. */
  lemma MessageStopTurn(cfg: Config, s: StreamState, reason: StopReason)
    requires s.failure.None?
    ensures var t := Step(cfg, s, Event(MessageStop(reason)));
      var toolUse := ToolUseBlock(s.acc.toolId, s.acc.toolName, ToolInput(cfg, s.acc.toolInput));
      && (reason == ToolUseStop ==>
            && t.appended == s.appended + [ToolTurn(s.acc.assistantMessage, toolUse)]
            && (UseToolSpec(cfg, toolUse).Ok? <==> t.failure.None?)
            && (t.failure.None? ==> t.results == s.results + [ToolResult(UseToolSpec(cfg, toolUse).value)]))
      && (reason != ToolUseStop ==>
            t.appended == s.appended + [Message(Assistant, [Text(s.acc.assistantMessage)])] && t.results == s.results)
      && (t.failure.None? ==> t.acc == Assembly("", "", "", ""))
  {
  }

  /** The events the loop passes over: other delta kinds, block starts that
      are not tool uses, message starts and every other kind, among them the
      stop of each content block and the metadata after each message. */
  predicate Skipped(item: Received) {
    && item.Event?
    && match item.event
       case ContentBlockDelta(Some(OtherDelta)) => true
       case ContentBlockStart(None) => true
       case ContentBlockStart(Some(OtherStart)) => true
       case MessageStart => true
       case OtherEvent => true
       case _ => false
  }

  predicate AllSkipped(items: seq<Received>) {
    forall i :: 0 <= i < |items| ==> Skipped(items[i])
  }

  /** A run of skipped events leaves the state as it was. */
  lemma {:induction false} SkippedRunKeepsState(cfg: Config, s: StreamState, items: seq<Received>)
    requires AllSkipped(items)
    ensures Steps(cfg, s, items) == s
    decreases |items|
  {
    if |items| > 0 {
      assert Skipped(items[0]);
      assert AllSkipped(items[1..]) by {
        forall i | 0 <= i < |items| - 1
          ensures Skipped(items[1..][i])
        {
          assert items[1..][i] == items[i + 1];
        }
      }
      SkippedRunKeepsState(cfg, s, items[1..]);
    }
  }

  /** So a run of skipped events can be taken out of any stream. */
  lemma DropSkipped(cfg: Config, s: StreamState, a: seq<Received>, gap: seq<Received>, b: seq<Received>)
    requires AllSkipped(gap)
    ensures Steps(cfg, s, a + gap + b) == Steps(cfg, s, a + b)
  {
    StepsAppend(cfg, s, a + gap, b);
    StepsAppend(cfg, s, a, gap);
    SkippedRunKeepsState(cfg, Steps(cfg, s, a), gap);
    StepsAppend(cfg, s, a, b);
  }

  /** One streamed tool-use message, as its pieces: the text deltas, the id
      and name of the tool-use block and its input deltas, and the events
      Bedrock sends around them that the loop passes over (`afterText`
      holds the stop of the text block, `afterInput` the stop of the
      tool-use block, `afterStop` the metadata that follows the message). */
  datatype ToolMessage = ToolMessage(
    text: seq<string>, afterText: seq<Received>,
    id: string, name: string, input: seq<string>, afterInput: seq<Received>,
    afterStop: seq<Received>)

  /** The events around the pieces are all passed over. */
  predicate Framed(m: ToolMessage) {
    AllSkipped(m.afterText) && AllSkipped(m.afterInput) && AllSkipped(m.afterStop)
  }

  /** The events of one message, as Bedrock sends them. */
  function ToolMessageEvents(m: ToolMessage): seq<Received> {
    [Event(MessageStart)] + TextDeltas(m.text) + m.afterText
    + [Event(ContentBlockStart(Some(ToolUseStart(m.id, m.name))))] + ToolDeltas(m.input) + m.afterInput
    + [Event(MessageStop(ToolUseStop))] + m.afterStop
  }

  /** The events of one message without those the loop passes over. */
  function BareEvents(text: seq<string>, id: string, name: string, input: seq<string>): seq<Received> {
    [Event(MessageStart)] + TextDeltas(text)
    + [Event(ContentBlockStart(Some(ToolUseStart(id, name))))] + ToolDeltas(input)
    + [Event(MessageStop(ToolUseStop))]
  }

  /** Reading a message is reading its bare events. */
  lemma WithoutSkipped(cfg: Config, s: StreamState, m: ToolMessage)
    requires Framed(m)
    ensures Steps(cfg, s, ToolMessageEvents(m)) == Steps(cfg, s, BareEvents(m.text, m.id, m.name, m.input))
  {
    var front := [Event(MessageStart)] + TextDeltas(m.text);
    var middle := [Event(ContentBlockStart(Some(ToolUseStart(m.id, m.name))))] + ToolDeltas(m.input);
    var stop := [Event(MessageStop(ToolUseStop))];
    assert ToolMessageEvents(m) == (front + m.afterText + middle + m.afterInput + stop) + m.afterStop + [];
    DropSkipped(cfg, s, front + m.afterText + middle + m.afterInput + stop, m.afterStop, []);
    assert front + m.afterText + middle + m.afterInput + stop + [] == (front + m.afterText + middle) + m.afterInput + stop;
    DropSkipped(cfg, s, front + m.afterText + middle, m.afterInput, stop);
    assert front + m.afterText + middle + stop == front + m.afterText + (middle + stop);
    DropSkipped(cfg, s, front, m.afterText, middle + stop);
    assert front + (middle + stop) == BareEvents(m.text, m.id, m.name, m.input);
  }

  /** The bare events of a message rebuild its turn. */
  lemma BareToolMessage(cfg: Config, s: StreamState, text: seq<string>, id: string, name: string, input: seq<string>)
    requires s.failure.None? && s.acc == Assembly("", "", "", "")
    ensures var toolUse := ToolUseBlock(id, name, ToolInput(cfg, Concat(input)));
      var t := Steps(cfg, s, BareEvents(text, id, name, input));
      && t.appended == s.appended + [ToolTurn(Concat(text), toolUse)]
      && (UseToolSpec(cfg, toolUse).Ok? ==>
            t == StreamState(Assembly("", "", "", ""), t.appended, s.results + [ToolResult(UseToolSpec(cfg, toolUse).value)], None))
      && (UseToolSpec(cfg, toolUse).Err? ==> t.results == s.results && t.failure == Some(UseToolSpec(cfg, toolUse).error))
  {
    var start := [Event(MessageStart)];
    var begin := [Event(ContentBlockStart(Some(ToolUseStart(id, name))))];
    var stop := [Event(MessageStop(ToolUseStop))];
    assert BareEvents(text, id, name, input) == start + TextDeltas(text) + begin + ToolDeltas(input) + stop;
    StepsAppend(cfg, s, start + TextDeltas(text) + begin + ToolDeltas(input), stop);
    StepsAppend(cfg, s, start + TextDeltas(text) + begin, ToolDeltas(input));
    StepsAppend(cfg, s, start + TextDeltas(text), begin);
    StepsAppend(cfg, s, start, TextDeltas(text));
    var s1 := Steps(cfg, s, start);
    assert s1 == s;
    TextDeltasAccumulate(cfg, s1, text);
    var s2 := Steps(cfg, s1, TextDeltas(text));
    var s3 := Steps(cfg, s2, begin);
    assert s3 == s2.(acc := s2.acc.(toolId := id, toolName := name));
    ToolDeltasAccumulate(cfg, s3, input);
    var s4 := Steps(cfg, s3, ToolDeltas(input));
    assert s4.acc == Assembly(Concat(input), id, name, Concat(text));
    MessageStopTurn(cfg, s4, ToolUseStop);
  }

  /** The tool use each message stands for, once its input is put together. */
  function UseOf(cfg: Config, m: ToolMessage): ToolUseBlock {
    ToolUseBlock(m.id, m.name, ToolInput(cfg, Concat(m.input)))
  }

  /** A streamed tool-use message, block stops and metadata included, is
      rebuilt into the turn the complete reply would have held: the whole
      text (if any), then one tool use with the id, the name and the whole
      input, parsed. Its tool's result is gathered and the accumulators are
      empty again, or its tool's error ends the loop. */
  lemma StreamedToolMessage(cfg: Config, s: StreamState, m: ToolMessage)
    requires Framed(m)
    requires s.failure.None? && s.acc == Assembly("", "", "", "")
    ensures var t := Steps(cfg, s, ToolMessageEvents(m));
      && t.appended == s.appended + [ToolTurn(Concat(m.text), UseOf(cfg, m))]
      && (UseToolSpec(cfg, UseOf(cfg, m)).Ok? ==>
            t == StreamState(Assembly("", "", "", ""), t.appended, s.results + [ToolResult(UseToolSpec(cfg, UseOf(cfg, m)).value)], None))
      && (UseToolSpec(cfg, UseOf(cfg, m)).Err? ==> t.results == s.results && t.failure == Some(UseToolSpec(cfg, UseOf(cfg, m)).error))
  {
    WithoutSkipped(cfg, s, m);
    BareToolMessage(cfg, s, m.text, m.id, m.name, m.input);
  }

  /** The same message when its tool succeeds, as the whole new state. */
  lemma StreamedToolMessageOk(cfg: Config, s: StreamState, m: ToolMessage)
    requires Framed(m)
    requires s.failure.None? && s.acc == Assembly("", "", "", "")
    requires UseToolSpec(cfg, UseOf(cfg, m)).Ok?
    ensures Steps(cfg, s, ToolMessageEvents(m))
        == StreamState(Assembly("", "", "", ""), s.appended + [ToolTurn(Concat(m.text), UseOf(cfg, m))],
                       s.results + [ToolResult(UseToolSpec(cfg, UseOf(cfg, m)).value)], None)
  {
    StreamedToolMessage(cfg, s, m);
  }

  /** A stream that ends cleanly with tool results: the rebuilt turns, one
      results turn, and the turns of one follow-up stream; one request. */
  lemma StreamResultsThenOneFollowUp(cfg: Config, conversation: seq<Message>, items: seq<Received>)
    requires Steps(cfg, INITIAL_STATE, items).failure.None?
    requires Steps(cfg, INITIAL_STATE, items).results != []
    ensures var s := Steps(cfg, INITIAL_STATE, items);
      var o := ProcessStreamSpec(cfg, conversation, items);
      && |o.appended| > |s.appended|
      && o.appended[..|s.appended| + 1] == s.appended + [Message(User, s.results)]
      && o.requests == [Request(cfg, conversation + s.appended + [Message(User, s.results)])]
  {
    var s := Steps(cfg, INITIAL_STATE, items);
    var o := ProcessStreamSpec(cfg, conversation, items);
    var head := s.appended + [Message(User, s.results)];
    assert o.appended[..|head|] == head;
  }

  /** The events of several messages, one after the other. */
  function StreamOf(ms: seq<ToolMessage>): seq<Received>
    decreases |ms|
  {
    if |ms| == 0 then []
    else ToolMessageEvents(ms[0]) + StreamOf(ms[1..])
  }

  predicate AllFramed(ms: seq<ToolMessage>) {
    forall i :: 0 <= i < |ms| ==> Framed(ms[i])
  }

  function UsesOf(cfg: Config, ms: seq<ToolMessage>): (r: seq<ToolUseBlock>)
    ensures |r| == |ms| && forall i :: 0 <= i < |ms| ==> r[i] == UseOf(cfg, ms[i])
    decreases |ms|
  {
    if |ms| == 0 then [] else [UseOf(cfg, ms[0])] + UsesOf(cfg, ms[1..])
  }

  /** The assistant turn each message is rebuilt into. */
  function TurnsOf(cfg: Config, ms: seq<ToolMessage>): (r: seq<Message>)
    ensures |r| == |ms| && forall i :: 0 <= i < |ms| ==> r[i] == ToolTurn(Concat(ms[i].text), UseOf(cfg, ms[i]))
    decreases |ms|
  {
    if |ms| == 0 then [] else [ToolTurn(Concat(ms[0].text), UseOf(cfg, ms[0]))] + TurnsOf(cfg, ms[1..])
  }

  /** The state once the first of several messages has been taken. */
  function AfterFirst(cfg: Config, s: StreamState, ms: seq<ToolMessage>): StreamState
    requires |ms| > 0 && UseToolSpec(cfg, UseOf(cfg, ms[0])).Ok?
  {
    StreamState(EMPTY_ASSEMBLY, s.appended + [ToolTurn(Concat(ms[0].text), UseOf(cfg, ms[0]))],
                s.results + [ToolResult(UseToolSpec(cfg, UseOf(cfg, ms[0])).value)], None)
  }

  /** The inductive step: a first message taking `s` to `mid`, and the rest
      taking `mid` on by `turns` and `results`, take `s` on by both. */
  lemma NextToolMessages(cfg: Config, s: StreamState, items: seq<Received>, rest: seq<Received>,
                         turn: Message, result: ContentBlock, turns: seq<Message>, results: seq<ContentBlock>)
    requires var mid := StreamState(EMPTY_ASSEMBLY, s.appended + [turn], s.results + [result], None);
      && Steps(cfg, s, items) == Steps(cfg, mid, rest)
      && Steps(cfg, mid, rest) == StreamState(EMPTY_ASSEMBLY, mid.appended + turns, mid.results + results, None)
    ensures Steps(cfg, s, items) == StreamState(EMPTY_ASSEMBLY, s.appended + ([turn] + turns), s.results + ([result] + results), None)
  {
    assert s.appended + [turn] + turns == s.appended + ([turn] + turns);
    assert s.results + [result] + results == s.results + ([result] + results);
  }

  /** The turns and results of several messages are those of the first
      followed by those of the rest. */
  lemma SplitFirstMessage(cfg: Config, ms: seq<ToolMessage>)
    requires |ms| > 0
    requires ResultsOf(cfg, UsesOf(cfg, ms)).Ok?
    ensures UseToolSpec(cfg, UseOf(cfg, ms[0])).Ok?
    ensures ResultsOf(cfg, UsesOf(cfg, ms[1..])).Ok?
    ensures TurnsOf(cfg, ms) == [ToolTurn(Concat(ms[0].text), UseOf(cfg, ms[0]))] + TurnsOf(cfg, ms[1..])
    ensures ResultsOf(cfg, UsesOf(cfg, ms)).value
      == [ToolResult(UseToolSpec(cfg, UseOf(cfg, ms[0])).value)] + ResultsOf(cfg, UsesOf(cfg, ms[1..])).value
  {
    var uses := UsesOf(cfg, ms);
    assert uses[0] == UseOf(cfg, ms[0]);
    assert uses[1..] == UsesOf(cfg, ms[1..]);
  }

  /** The first message of several is taken in full before the rest. */
  lemma FirstToolMessage(cfg: Config, s: StreamState, ms: seq<ToolMessage>)
    requires |ms| > 0 && Framed(ms[0])
    requires s.failure.None? && s.acc == Assembly("", "", "", "")
    requires UseToolSpec(cfg, UseOf(cfg, ms[0])).Ok?
    ensures Steps(cfg, s, StreamOf(ms))
      == Steps(cfg, StreamState(EMPTY_ASSEMBLY, s.appended + [ToolTurn(Concat(ms[0].text), UseOf(cfg, ms[0]))],
                                s.results + [ToolResult(UseToolSpec(cfg, UseOf(cfg, ms[0])).value)], None),
               StreamOf(ms[1..]))
  {
    var head := ToolMessageEvents(ms[0]);
    assert StreamOf(ms) == head + StreamOf(ms[1..]);
    StepsAppend(cfg, s, head, StreamOf(ms[1..]));
    StreamedToolMessageOk(cfg, s, ms[0]);
  }

  /** Several tool-use messages in one stream, every tool succeeding: each
      message becomes its own assistant turn, in order, and the results
      gathered are the reference results of their tool uses, the same as
      the non-streaming path would gather; the loop ends cleanly. */
  lemma {:induction false} StreamedToolMessages(cfg: Config, s: StreamState, ms: seq<ToolMessage>)
    requires AllFramed(ms)
    requires s.failure.None? && s.acc == Assembly("", "", "", "")
    requires ResultsOf(cfg, UsesOf(cfg, ms)).Ok?
    ensures Steps(cfg, s, StreamOf(ms))
      == StreamState(Assembly("", "", "", ""), s.appended + TurnsOf(cfg, ms), s.results + ResultsOf(cfg, UsesOf(cfg, ms)).value, None)
    decreases |ms|
  {
    if |ms| > 0 {
      SplitFirstMessage(cfg, ms);
      var mid := AfterFirst(cfg, s, ms);
      assert AllFramed(ms[1..]) by {
        forall i | 0 <= i < |ms| - 1
          ensures Framed(ms[1..][i])
        {
          assert ms[1..][i] == ms[i + 1];
        }
      }
      StreamedToolMessages(cfg, mid, ms[1..]);
      assert Framed(ms[0]);
      FirstToolMessage(cfg, s, ms);
      NextToolMessages(cfg, s, StreamOf(ms), StreamOf(ms[1..]), mid.appended[|s.appended|], mid.results[|s.results|],
                       TurnsOf(cfg, ms[1..]), ResultsOf(cfg, UsesOf(cfg, ms[1..])).value);
    }
  }

  /** So all the tool stops of one stream share one results turn, which
      follows every assistant turn, and exactly one follow-up stream is
      requested, carrying the transcript up to that turn. */
  lemma ToolStopsShareOneResultsTurn(cfg: Config, conversation: seq<Message>, ms: seq<ToolMessage>)
    requires AllFramed(ms)
    requires |ms| > 0
    requires ResultsOf(cfg, UsesOf(cfg, ms)).Ok?
    ensures var results := ResultsOf(cfg, UsesOf(cfg, ms)).value;
      var head := TurnsOf(cfg, ms) + [Message(User, results)];
      var o := ProcessStreamSpec(cfg, conversation, StreamOf(ms));
      && |o.appended| >= |head|
      && o.appended[..|head|] == head
      && o.requests == [Request(cfg, conversation + head)]
  {
    StreamedToolMessages(cfg, INITIAL_STATE, ms);
    assert [] + TurnsOf(cfg, ms) == TurnsOf(cfg, ms);
    assert [] + ResultsOf(cfg, UsesOf(cfg, ms)).value == ResultsOf(cfg, UsesOf(cfg, ms)).value;
    StreamResultsThenOneFollowUp(cfg, conversation, StreamOf(ms));
    var turn := Message(User, ResultsOf(cfg, UsesOf(cfg, ms)).value);
    assert conversation + TurnsOf(cfg, ms) + [turn] == conversation + (TurnsOf(cfg, ms) + [turn]);
  }

  /** A streamed tool use naming no tool, wherever it comes in the stream
      (after any events that leave the loop clean with empty accumulators,
      as every message stop does): its assistant turn is appended after the
      turns so far, the rest of the stream is ignored, nothing more is sent
      and the error is the one `run_stream` logs. */
  lemma UnknownToolEndsStream(cfg: Config, conversation: seq<Message>, prefix: seq<Received>, m: ToolMessage, rest: seq<Received>)
    requires Framed(m)
    requires m.name !in {ReadFile.READ_FILE_NAME, GenerateImage.GENERATE_IMAGE_NAME, cfg.platform.python.name}
    requires Steps(cfg, INITIAL_STATE, prefix).failure.None? && Steps(cfg, INITIAL_STATE, prefix).acc == EMPTY_ASSEMBLY
    ensures ProcessStreamSpec(cfg, conversation, prefix + ToolMessageEvents(m) + rest)
      == Outcome(Steps(cfg, INITIAL_STATE, prefix).appended + [ToolTurn(Concat(m.text), UseOf(cfg, m))], [],
                 Some(UnknownToolMessage(m.name)))
  {
    var s := Steps(cfg, INITIAL_STATE, prefix);
    var head := ToolMessageEvents(m);
    assert prefix + head + rest == prefix + (head + rest);
    StepsAppend(cfg, INITIAL_STATE, prefix, head + rest);
    StepsAppend(cfg, s, head, rest);
    StreamedToolMessage(cfg, s, m);
    FailureAbsorbs(cfg, Steps(cfg, s, head), rest);
  }

  // ---------------------------------------------------------------------
  // The follow-up stream.

  /** Items that neither fail nor carry an empty delta. */
  predicate Clean(items: seq<Received>) {
    forall i :: 0 <= i < |items| ==> items[i].Event? && items[i].event != ContentBlockDelta(None)
  }

  function CountEndTurns(items: seq<Received>): nat
    decreases |items|
  {
    if |items| == 0 then 0
    else (if items[0] == Event(MessageStop(EndTurn)) then 1 else 0) + CountEndTurns(items[1..])
  }

  /** In the follow-up stream every appended turn is one assistant text
      turn; on a clean stream there is one per EndTurn stop and no error. */
  lemma {:induction false} FollowUpAppendsOnlyAtEndTurn(s: FollowState, items: seq<Received>)
    requires s.failure.None?
    ensures var f := FollowSteps(s, items);
      && |f.appended| >= |s.appended| && f.appended[..|s.appended|] == s.appended
      && (forall i :: |s.appended| <= i < |f.appended| ==> f.appended[i].role == Assistant && |f.appended[i].content| == 1 && f.appended[i].content[0].Text?)
      && (Clean(items) ==> f.failure.None? && |f.appended| == |s.appended| + CountEndTurns(items))
    decreases |items|
  {
    if |items| > 0 {
      var next := FollowStep(s, items[0]);
      assert |next.appended| >= |s.appended| && next.appended[..|s.appended|] == s.appended;
      if next.failure.None? {
        FollowUpAppendsOnlyAtEndTurn(next, items[1..]);
        var f := FollowSteps(next, items[1..]);
        assert f.appended[..|next.appended|][..|s.appended|] == f.appended[..|s.appended|];
        if Clean(items) {
          assert Clean(items[1..]) by {
            forall i | 0 <= i < |items| - 1
              ensures items[1..][i].Event? && items[1..][i].event != ContentBlockDelta(None)
            {
              assert items[1..][i] == items[i + 1];
            }
          }
        }
      } else {
        FollowFailureAbsorbs(next, items[1..]);
        assert !Clean(items) by {
          assert !(items[0].Event? && items[0].event != ContentBlockDelta(None));
        }
      }
    } else {
      assert FollowSteps(s, items).appended[..|s.appended|] == s.appended;
    }
  }

  /** Besides what the main loop passes over, the follow-up stream passes
      over tool-use block starts and tool-input deltas: it keeps only text. */
  predicate FollowSkipped(item: Received) {
    || Skipped(item)
    || (item.Event? && item.event.ContentBlockDelta? && item.event.delta.Some? && item.event.delta.value.ToolUseDelta?)
    || (item.Event? && item.event.ContentBlockStart? && item.event.start.Some? && item.event.start.value.ToolUseStart?)
  }

  predicate AllFollowSkipped(items: seq<Received>) {
    forall i :: 0 <= i < |items| ==> FollowSkipped(items[i])
  }

  lemma {:induction false} FollowStepsAppend(s: FollowState, a: seq<Received>, b: seq<Received>)
    ensures FollowSteps(s, a + b) == FollowSteps(FollowSteps(s, a), b)
    decreases |a|
  {
    if |a| > 0 {
      assert (a + b)[0] == a[0];
      assert (a + b)[1..] == a[1..] + b;
      FollowStepsAppend(FollowStep(s, a[0]), a[1..], b);
    } else {
      assert a + b == b;
    }
  }

  /** A run of such events leaves the follow-up state as it was. */
  lemma {:induction false} FollowSkippedRunKeepsState(s: FollowState, items: seq<Received>)
    requires AllFollowSkipped(items)
    ensures FollowSteps(s, items) == s
    decreases |items|
  {
    if |items| > 0 {
      assert FollowSkipped(items[0]);
      assert AllFollowSkipped(items[1..]) by {
        forall i | 0 <= i < |items| - 1
          ensures FollowSkipped(items[1..][i])
        {
          assert items[1..][i] == items[i + 1];
        }
      }
      FollowSkippedRunKeepsState(s, items[1..]);
    }
  }

  /** Text deltas of the follow-up stream are concatenated in arrival
      order, and nothing else changes. */
  lemma {:induction false} FollowTextDeltasAccumulate(s: FollowState, parts: seq<string>)
    requires s.failure.None?
    ensures FollowSteps(s, TextDeltas(parts)) == s.(text := s.text + Concat(parts))
    decreases |parts|
  {
    if |parts| == 0 {
      assert s.text + "" == s.text;
    } else {
      var next := s.(text := s.text + parts[0]);
      assert TextDeltas(parts)[1..] == TextDeltas(parts[1..]);
      FollowTextDeltasAccumulate(next, parts[1..]);
      assert s.text + parts[0] + Concat(parts[1..]) == s.text + Concat(parts);
    }
  }

  /** One follow-up reply, block stop and metadata included: at an EndTurn
      stop the turn appended holds exactly the text so far followed by the
      reply's text deltas, in order; any other stop appends nothing. Either
      way the text is cleared. */
  lemma FollowUpReply(s: FollowState, parts: seq<string>, afterText: seq<Received>, reason: StopReason, afterStop: seq<Received>)
    requires s.failure.None?
    requires AllFollowSkipped(afterText) && AllFollowSkipped(afterStop)
    ensures FollowSteps(s, [Event(MessageStart)] + TextDeltas(parts) + afterText + [Event(MessageStop(reason))] + afterStop)
      == if reason == EndTurn then FollowState("", s.appended + [Message(Assistant, [Text(s.text + Concat(parts))])], None)
         else FollowState("", s.appended, None)
  {
    var start := [Event(MessageStart)];
    var stop := [Event(MessageStop(reason))];
    FollowStepsAppend(s, start + TextDeltas(parts) + afterText + stop, afterStop);
    FollowStepsAppend(s, start + TextDeltas(parts) + afterText, stop);
    FollowStepsAppend(s, start + TextDeltas(parts), afterText);
    FollowStepsAppend(s, start, TextDeltas(parts));
    assert FollowSteps(s, start) == s;
    FollowTextDeltasAccumulate(s, parts);
    var s2 := FollowSteps(s, start + TextDeltas(parts));
    FollowSkippedRunKeepsState(s2, afterText);
    var s3 := FollowSteps(s2, stop);
    FollowSkippedRunKeepsState(s3, afterStop);
  }

  // ---------------------------------------------------------------------
  // Generating an image: defaults and the quality text.

  /** With only the prompt and the path given, the request asks for one
      standard image of 512 by 512. */
  lemma ImageDefaults(prompt: string, path: string, parseJson: string -> Result<J.Document, string>)
    ensures ImageRequestFromInput(J.Object(map["prompt" := J.String(prompt), "path" := J.String(path)]), parseJson)
      == Ok(IGP.NewGenerateImageParams(prompt, Some(IGP.ImageGenerationConfig(Some(1), Some(IGP.Standard), Some(512), Some(512)))))
  {
    var fields := map["prompt" := J.String(prompt), "path" := J.String(path)];
    assert "numberOfImages" !in fields && "quality" !in fields && "height" !in fields && "width" !in fields;
  }

  /** The quality text is read as JSON: Premium is chosen exactly when the
      text parses to a value naming "premium" (such as `"premium"` with its
      quotes); a text that does not parse, like the bare word premium, gives
      Standard. */
  lemma QualityTextIsJson(fields: map<string, J.Document>, parseJson: string -> Result<J.Document, string>, q: string)
    requires "quality" in fields && fields["quality"] == J.String(q)
    ensures QualityFromInput(fields, parseJson) == IGP.Premium
            <==> parseJson(q).Ok? && NamesVariant(parseJson(q).value, "premium")
    ensures parseJson(q).Err? ==> QualityFromInput(fields, parseJson) == IGP.Standard
  {
    if parseJson(q).Ok? && NamesVariant(parseJson(q).value, "premium") {
      assert NamesVariant(parseJson(q).value, IGP.QualityName(IGP.Premium));
    }
  }

  /** Sizes and counts given as numbers are taken as the casts give them:
      a count is clamped to 0..255, a negative size becomes 0. */
  lemma ImageNumbersCast(prompt: string, path: string, count: int, height: int, width: int, parseJson: string -> Result<J.Document, string>)
    ensures var input := J.Object(map["prompt" := J.String(prompt), "path" := J.String(path),
                                       "numberOfImages" := J.Number(count), "height" := J.Number(height), "width" := J.Number(width)]);
      var r := ImageRequestFromInput(input, parseJson);
      && r.Ok?
      && r.value.imageGenerationConfig.value.numberOfImages == Some(ToU8(count))
      && r.value.imageGenerationConfig.value.height == Some(ToU128(height))
      && r.value.imageGenerationConfig.value.width == Some(ToU128(width))
  {
  }

  /** Sizes above 2^24 reach the request rounded as `f32` rounds them:
      2^24 + 1 lies halfway between 2^24 and 2^24 + 2 and goes to the even
      2^24; 2^24 + 3 goes to 2^24 + 4. */
  lemma LargeSizesRoundToF32()
    ensures ToU128(0x100_0001) == 0x100_0000
    ensures ToU128(0x100_0003) == 0x100_0004
    ensures ToU128(0x100_0000) == 0x100_0000
  {
    assert F32Spacing(0x100_0001) == 2 && F32Spacing(0x100_0003) == 2;
  }
}
