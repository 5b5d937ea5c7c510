/**
 The Anthropic Messages decoder at value level. It keeps two accumulators side by side: the raw
 content blocks, replayed verbatim in later requests, and the Responses emitter.
 */
module AnthropicModel {
  import opened Wrappers
  import opened OrderedTable
  import opened OutputModel

  const MAX_CONTENT_BLOCKS: nat := 256

  datatype AnthropicError = InvalidMessages | MessagesStateLimit | MessagesBufferLimit

  /** A field of a JSON object: missing, a string, or something else. */
  datatype Field = Absent | Str(text: string) | NotString

  /** A JSON value, by its text; only non-empty objects matter as tool input. */
  datatype Json = Json(text: string, isNonEmptyObject: bool)

  datatype Block = Block(kind: Option<string>, text: Field, thinking: Field, signature: Field,
                         id: Option<string>, name: Option<string>, input: Option<Json>)

  datatype Part =
    | TextPart(text: string)
    | ThinkingPart(thinking: string)
    | SignaturePart(signature: Option<string>)
    | InputPart(partial: string)
    | OtherPart

  datatype UsagePart = UsagePart(outputTokens: Option<nat>)

  /** One event; `Faulty` is an `error` event, or one that is malformed or lacks a field it needs. */
  datatype MessageEvent =
    | MessageStart(id: Option<string>, inputTokens: Option<nat>)
    | BlockStart(index: nat, block: Block, serializedBytes: nat)
    | BlockDelta(index: nat, part: Part)
    | BlockStop(index: nat)
    | MessageDelta(stopReason: Option<string>, usage: Option<UsagePart>)
    | MessageStop
    | Faulty
    | Ignored

  datatype Messages = Messages(
    emitter: Emitter,
    limit: nat,
    content: Table<Block>,
    toolJson: map<nat, string>,
    toolIndices: map<nat, nat>,
    inputTokens: nat,
    outputTokens: nat,
    aggregate: nat)

  function NewMessages(limit: nat, names: map<string, ToolIdentity>, seed: string, fallbackId: string): Messages {
    Messages(NewEmitter(limit, names, seed, fallbackId), limit, [], map[], map[], 0, 0, 0)
  }

  /** After a failure the stream is over, so only the error is kept. */
  type Step = Result<Messages, AnthropicError>

  function FeedEvent(a: Messages, event: StreamEvent): Step {
    var applied := Apply(a.emitter, event);
    match applied.error
    case Some(InvalidStream) => Err(InvalidMessages)
    case Some(StreamStateLimit) => Err(MessagesStateLimit)
    case None => Ok(a.(emitter := applied.state))
  }

  function ReserveBytes(a: Messages, additional: nat): Step {
    if a.aggregate + additional > a.limit then Err(MessagesStateLimit)
        else Ok(a.(aggregate := a.aggregate + additional))
  }

  function PutBlock(a: Messages, index: nat, block: Block): Messages { a.(content := Put(a.content, index, block)) }

  // Opening a block.

  function StartTool(a: Messages, index: nat, block: Block): Step {
    var toolIndex := if index in a.toolIndices then a.toolIndices[index] else |a.toolIndices|;
    if block.id.None? || block.name.None? then Err(InvalidMessages) else
    var arguments := if block.input.Some? && block.input.value.isNonEmptyObject then block.input.value.text else "";
    FeedEvent(a.(toolIndices := a.toolIndices[index := toolIndex]),
        Tool(toolIndex, block.id, block.name, Some(arguments)))
  }

  function StartBlock(a: Messages, index: nat, block: Block, serializedBytes: nat): Step {
    if Get(a.content, index).None? && |a.content| >= MAX_CONTENT_BLOCKS then Err(MessagesStateLimit) else
    match ReserveBytes(a, serializedBytes)
    case Err(e) => Err(e)
    case Ok(r) =>
      var b := PutBlock(r, index, block);
      if block.kind == Some("text") then
        if block.text.Str? && block.text.text != "" then FeedEvent(b, Text(block.text.text)) else Ok(b)
      else if block.kind == Some("thinking") then
        if block.thinking.Str? && block.thinking.text != "" then FeedEvent(b, Reasoning(block.thinking.text)) else Ok(b)
      else if block.kind == Some("tool_use") then StartTool(b, index, block)
      else if block.kind == Some("redacted_thinking") then Ok(b)
      else Err(InvalidMessages)
  }

  // Extending a block.

  function AppendText(a: Messages, index: nat, delta: string): Step {
    match Get(a.content, index)
    case Some(block) =>
      if block.text.Str? then Ok(PutBlock(a, index, block.(text := Str(block.text.text + delta))))
          else Err(InvalidMessages)
    case None => Err(InvalidMessages)
  }

  function AppendThinking(a: Messages, index: nat, delta: string): Step {
    match Get(a.content, index)
    case Some(block) =>
      if block.thinking.Str? then Ok(PutBlock(a, index, block.(thinking := Str(block.thinking.text + delta))))
      else Err(InvalidMessages)
    case None => Err(InvalidMessages)
  }

  function AppendSignature(a: Messages, index: nat, signature: string): Step {
    match Get(a.content, index)
    case None => Err(InvalidMessages)
    case Some(block) =>
      match block.signature
      case NotString => Err(InvalidMessages)
      case Absent => Ok(PutBlock(a, index, block.(signature := Str(signature))))
      case Str(current) => Ok(PutBlock(a, index, block.(signature := Str(current + signature))))
  }

  function ExtendText(a: Messages, index: nat, text: string): Step {
    match ReserveBytes(a, |text|)
    case Err(e) => Err(e)
    case Ok(r) =>
      match AppendText(r, index, text)
      case Err(e) => Err(e)
      case Ok(b) => FeedEvent(b, Text(text))
  }

  function ExtendThinking(a: Messages, index: nat, thinking: string): Step {
    match ReserveBytes(a, |thinking|)
    case Err(e) => Err(e)
    case Ok(r) =>
      match AppendThinking(r, index, thinking)
      case Err(e) => Err(e)
      case Ok(b) => FeedEvent(b, Reasoning(thinking))
  }

  function ExtendInput(a: Messages, index: nat, partial: string): Step {
    if index !in a.toolIndices then Err(InvalidMessages) else
    match ReserveBytes(a, |partial|)
    case Err(e) => Err(e)
    case Ok(r) =>
      var soFar := if index in r.toolJson then r.toolJson[index] else "";
      FeedEvent(r.(toolJson := r.toolJson[index := soFar + partial]),
          Tool(r.toolIndices[index], None, None, Some(partial)))
  }

  function ExtendBlock(a: Messages, index: nat, part: Part): Step {
    match part
    case TextPart(text) => ExtendText(a, index, text)
    case ThinkingPart(thinking) => ExtendThinking(a, index, thinking)
    case SignaturePart(signature) =>
      if signature.None? then Err(InvalidMessages) else
      (match ReserveBytes(a, |signature.value|)
       case Err(e) => Err(e)
       case Ok(r) => AppendSignature(r, index, signature.value))
    case InputPart(partial) => ExtendInput(a, index, partial)
    case OtherPart => Ok(a)
  }

  // Closing a block, and the message itself. `parse` is the JSON reader.

  function StopBlock(parse: string -> Option<Json>, a: Messages, index: nat): Step {
    if index !in a.toolJson then Ok(a) else
    match parse(a.toolJson[index])
    case None => Err(InvalidMessages)
    case Some(input) =>
      match Get(a.content, index)
      case None => Err(InvalidMessages)
      case Some(block) => Ok(PutBlock(a.(toolJson := a.toolJson - {index}), index, block.(input := Some(input))))
  }

  function StopReason(reason: string): string {
    if reason == "end_turn" || reason == "stop_sequence" then "stop"
    else if reason == "tool_use" then "tool_calls"
    else if reason == "max_tokens" then "length"
    else "error"
  }

  function StartMessage(a: Messages, id: Option<string>, inputTokens: Option<nat>): Step {
    var counted := a.(inputTokens := inputTokens.GetOr(0));
    match FeedEvent(counted, Start(id.GetOr("message")))
    case Err(e) => Err(e)
    case Ok(b) => FeedEvent(b, Usage(b.inputTokens, b.outputTokens))
  }

  function UpdateUsage(a: Messages, usage: Option<UsagePart>): Step {
    if usage.None? then Ok(a) else
    var counted := a.(outputTokens := usage.value.outputTokens.GetOr(a.outputTokens));
    FeedEvent(counted, Usage(counted.inputTokens, counted.outputTokens))
  }

  function UpdateMessage(a: Messages, stopReason: Option<string>, usage: Option<UsagePart>): Step {
    if stopReason.None? then UpdateUsage(a, usage) else
    match FeedEvent(a, Stop(StopReason(stopReason.value)))
    case Err(e) => Err(e)
    case Ok(b) => UpdateUsage(b, usage)
  }

  function ApplyMessage(parse: string -> Option<Json>, a: Messages, event: MessageEvent): Step {
    match event
    case MessageStart(id, inputTokens) => StartMessage(a, id, inputTokens)
    case BlockStart(index, block, serializedBytes) => StartBlock(a, index, block, serializedBytes)
    case BlockDelta(index, part) => ExtendBlock(a, index, part)
    case BlockStop(index) => StopBlock(parse, a, index)
    case MessageDelta(stopReason, usage) => UpdateMessage(a, stopReason, usage)
    case MessageStop => FeedEvent(a, Done)
    case Faulty => Err(InvalidMessages)
    case Ignored => Ok(a)
  }

  function RunMessages(parse: string -> Option<Json>, a: Messages, events: seq<MessageEvent>): Step
    decreases |events|
  {
    if events == [] then Ok(a) else
    match ApplyMessage(parse, a, events[0])
    case Err(e) => Err(e)
    case Ok(b) => RunMessages(parse, b, events[1..])
  }
}
