/**
 The value-level meaning of the Responses output emitter: semantic stream events go in, Responses
 events come out, and the running state is the record `Emitter`. Strings are sequences of UTF-8
 bytes, one `char` a byte, so `|s|` is the byte length the source accounts with.
 */
module OutputModel {
  import opened Wrappers
  import opened OrderedTable

  const MAX_STREAM_TOOL_CALLS: nat := 256
  const U64_MAX: nat := 0xFFFF_FFFF_FFFF_FFFF

  datatype OutputError = InvalidStream | StreamStateLimit

  datatype StreamEvent =
    | Start(id: string)
    | Usage(input: nat, output: nat)
    | Text(text: string)
    | Reasoning(text: string)
    | Tool(index: nat, callId: Option<string>, name: Option<string>, arguments: Option<string>)
    | Stop(reason: string)
    | Done

  datatype ToolIdentity = ToolIdentity(name: string, namespace: Option<string>)

  datatype ToolCall = ToolCall(id: string, name: string, arguments: string, added: bool)

  const NO_CALL := ToolCall("", "", "", false)

  datatype TokenUsage = TokenUsage(input: nat, output: nat, total: nat)

  /**
   An output item. A reasoning item or message without content yet (`summary: []`, `content: []`)
   has `None`; the item id of a function call is "fc_" followed by its call id.
   */
  datatype Item =
    | ReasoningItem(id: string, summary: Option<string>)
    | MessageItem(id: string, content: Option<string>)
    | FunctionCallItem(callId: string, identity: ToolIdentity, arguments: string, completed: bool)

  datatype Status = Completed | Incomplete | Failed

  datatype OutEvent =
    | Created(responseId: string)
    | ItemAdded(outputIndex: nat, item: Item)
    | ItemDone(outputIndex: nat, item: Item)
    | SummaryPartAdded(itemId: string, outputIndex: nat)
    | SummaryDelta(itemId: string, outputIndex: nat, delta: string)
    | SummaryTextDone(itemId: string, outputIndex: nat, text: string)
    | SummaryPartDone(itemId: string, outputIndex: nat, text: string)
    | ContentPartAdded(itemId: string, outputIndex: nat)
    | TextDelta(itemId: string, outputIndex: nat, delta: string)
    | TextDone(itemId: string, outputIndex: nat, text: string)
    | ContentPartDone(itemId: string, outputIndex: nat, text: string)
    | ArgumentsDelta(itemId: string, outputIndex: nat, delta: string)
    | ArgumentsDone(itemId: string, outputIndex: nat, arguments: string)
    | Terminal(status: Status, responseId: string, output: seq<Item>, usage: TokenUsage)

  /** The emitter's fields; `log` is every event emitted so far, delivered or still pending. */
  datatype Emitter = Emitter(
    limit: nat,
    aggregate: nat,
    responseId: Option<string>,
    reasoningId: string,
    messageId: string,
    fallbackId: string,
    reasoning: string,
    text: string,
    tools: Table<ToolCall>,
    names: map<string, ToolIdentity>,
    reasoningStarted: bool,
    textStarted: bool,
    finishReason: Option<string>,
    usage: Option<TokenUsage>,
    usageBytes: nat,
    terminal: bool,
    completed: bool,
    log: seq<OutEvent>)
  {
    function Emit(events: seq<OutEvent>): Emitter { this.(log := log + events) }

    function MessageIndex(): nat { if reasoningStarted then 1 else 0 }

    function ToolBase(): nat { MessageIndex() + if textStarted then 1 else 0 }
  }

  /** `seed` and `fallbackId` stand for the random identifiers the source draws. */
  function NewEmitter(limit: nat, names: map<string, ToolIdentity>, seed: string, fallbackId: string): Emitter {
    Emitter(limit, 0, None, "rs_" + seed, "msg_" + seed, fallbackId, "", "", [], names,
            false, false, None, None, 0, false, false, [])
  }

  /** The state after an event, and the error the event was answered with, if any. */
  datatype Applied = Applied(state: Emitter, error: Option<OutputError>)

  // Byte accounting. A sum beyond the machine word also exceeds every limit, and the source maps
  // both to the same error, so the unbounded comparison is the source's checked addition.

  function SaturatingSub(a: nat, b: nat): nat { if a >= b then a - b else 0 }

  function SaturatingAdd(a: nat, b: nat): nat { if a + b > U64_MAX then U64_MAX else a + b }

  function Resize(s: Emitter, previous: nat, next: nat): Option<Emitter> {
    var resized := SaturatingSub(s.aggregate, previous) + next;
    if resized > s.limit then None else Some(s.(aggregate := resized))
  }

  function Reserve(s: Emitter, additional: nat): Option<Emitter> { Resize(s, 0, additional) }

  function Digits(n: nat): nat { if n < 10 then 1 else 1 + Digits(n / 10) }

  /** Length of {"input_tokens":I,"output_tokens":O,"total_tokens":T}. */
  function UsageLength(u: TokenUsage): nat { 50 + Digits(u.input) + Digits(u.output) + Digits(u.total) }

  function Len(s: Option<string>): nat { |s.GetOr("")| }

  // The event handlers.

  function IdentityOf(names: map<string, ToolIdentity>, wireName: string): ToolIdentity {
    if wireName in names then names[wireName] else ToolIdentity(wireName, None)
  }

  function CallItem(names: map<string, ToolIdentity>, call: ToolCall): Item {
    FunctionCallItem(call.id, IdentityOf(names, call.name), call.arguments, true)
  }

  function StartReasoning(s: Emitter): Emitter {
    if s.reasoningStarted then s else
    s.(reasoningStarted := true).Emit(
      [ItemAdded(0, ReasoningItem(s.reasoningId, None)), SummaryPartAdded(s.reasoningId, 0)])
  }

  function StartText(s: Emitter): Emitter {
    if s.textStarted then s else
    s.(textStarted := true).Emit(
      [ItemAdded(s.MessageIndex(), MessageItem(s.messageId, None)),
       ContentPartAdded(s.messageId, s.MessageIndex())])
  }

  function ApplyText(s: Emitter, text: string): Applied {
    var started := StartText(s);
    match Reserve(started, |text|)
    case None => Applied(started, Some(StreamStateLimit))
    case Some(r) =>
      Applied(r.(text := r.text + text).Emit([TextDelta(r.messageId, r.MessageIndex(), text)]), None)
  }

  function ApplyReasoning(s: Emitter, text: string): Applied {
    var started := StartReasoning(s);
    match Reserve(started, |text|)
    case None => Applied(started, Some(StreamStateLimit))
    case Some(r) =>
      Applied(r.(reasoning := r.reasoning + text).Emit([SummaryDelta(r.reasoningId, 0, text)]), None)
  }

  /** A call after one delta, before it is decided whether it is announced. */
  function Merged(call: ToolCall, callId: Option<string>, name: Option<string>, arguments: Option<string>): ToolCall {
    ToolCall(callId.GetOr(call.id), call.name + name.GetOr(""), call.arguments + arguments.GetOr(""), call.added)
  }

  predicate Announces(call: ToolCall) { !call.added && call.id != "" && call.name != "" }

  function Announced(call: ToolCall): ToolCall { call.(added := call.added || Announces(call)) }

  function ToolEvents(s: Emitter, index: nat, call: ToolCall, arguments: Option<string>): seq<OutEvent> {
    (if Announces(call)
     then [ItemAdded(s.ToolBase() + index, FunctionCallItem(call.id, IdentityOf(s.names, call.name), "", false))]
     else [])
    + (if arguments.Some?
       then [ArgumentsDelta("fc_" + call.id, s.ToolBase() + index, arguments.value)]
       else [])
  }

  function StoreCall(s: Emitter, index: nat, call: ToolCall, arguments: Option<string>): Emitter {
    s.(tools := Put(s.tools, index, Announced(call))).Emit(ToolEvents(s, index, call, arguments))
  }

  function ApplyTool(s: Emitter, index: nat, callId: Option<string>, name: Option<string>,
      arguments: Option<string>): Applied {
    var previous := Get(s.tools, index);
    if previous.None? && |s.tools| >= MAX_STREAM_TOOL_CALLS then
      Applied(s, Some(StreamStateLimit))
    else
      var before := previous.GetOr(NO_CALL);
      var nextId := if callId.Some? then |callId.value| else |before.id|;
      match Resize(s, |before.id|, nextId + Len(name) + Len(arguments))
      case None => Applied(s, Some(StreamStateLimit))
      case Some(r) =>
        Applied(StoreCall(r, index, Merged(before, callId, name, arguments), arguments), None)
  }

  function ReasoningClosing(id: string, text: string): seq<OutEvent> {
    [SummaryTextDone(id, 0, text), SummaryPartDone(id, 0, text), ItemDone(0, ReasoningItem(id, Some(text)))]
  }

  function MessageClosing(id: string, index: nat, text: string): seq<OutEvent> {
    [TextDone(id, index, text), ContentPartDone(id, index, text), ItemDone(index, MessageItem(id, Some(text)))]
  }

  function CallClosing(names: map<string, ToolIdentity>, index: nat, call: ToolCall): seq<OutEvent> {
    [ArgumentsDone("fc_" + call.id, index, call.arguments), ItemDone(index, CallItem(names, call))]
  }

  function CallClosings(names: map<string, ToolIdentity>, base: nat, tools: Table<ToolCall>): seq<OutEvent> {
    if tools == [] then []
    else CallClosing(names, base + tools[0].key, tools[0].value) + CallClosings(names, base, tools[1..])
  }

  function ReasoningClosings(s: Emitter): seq<OutEvent> {
    if s.reasoningStarted then ReasoningClosing(s.reasoningId, s.reasoning) else []
  }

  function MessageClosings(s: Emitter): seq<OutEvent> {
    if s.textStarted then MessageClosing(s.messageId, s.MessageIndex(), s.text) else []
  }

  function FinishItems(s: Emitter): Emitter {
    s.Emit(ReasoningClosings(s)).Emit(MessageClosings(s)).Emit(CallClosings(s.names, s.ToolBase(), s.tools))
  }

  function CallItems(names: map<string, ToolIdentity>, tools: Table<ToolCall>): seq<Item> {
    if tools == [] then [] else [CallItem(names, tools[0].value)] + CallItems(names, tools[1..])
  }

  function ResponseOutput(s: Emitter): seq<Item> {
    (if s.reasoningStarted then [ReasoningItem(s.reasoningId, Some(s.reasoning))] else [])
    + (if s.textStarted then [MessageItem(s.messageId, Some(s.text))] else [])
    + CallItems(s.names, s.tools)
  }

  function StatusOf(reason: string): Status {
    if reason == "stop" || reason == "tool_calls" then Completed
    else if reason == "length" then Incomplete
    else Failed
  }

  function Finalize(s: Emitter): Emitter {
    if s.terminal then s else
    var r := if s.finishReason.None? then FinishItems(s.(finishReason := Some("stop"))) else s;
    var status := StatusOf(r.finishReason.value);
    r.(completed := r.completed || status == Completed)
     .Emit([Terminal(status, r.responseId.GetOr(r.fallbackId), ResponseOutput(r),
                     r.usage.GetOr(TokenUsage(0, 0, 0)))])
     .(terminal := true)
  }

  function Finish(s: Emitter): Emitter {
    if !s.terminal && s.finishReason.Some? then Finalize(s) else s
  }

  function Apply(s: Emitter, event: StreamEvent): Applied {
    if s.terminal then Applied(s, Some(InvalidStream)) else
    match event
    case Start(id) =>
      if s.responseId.Some? then Applied(s, None) else
      (match Reserve(s, |id|)
       case None => Applied(s, Some(StreamStateLimit))
       case Some(r) => Applied(r.(responseId := Some(id)).Emit([Created(id)]), None))
    case Usage(input, output) =>
      var usage := TokenUsage(input, output, SaturatingAdd(input, output));
      (match Resize(s, s.usageBytes, UsageLength(usage))
       case None => Applied(s, Some(StreamStateLimit))
       case Some(r) => Applied(r.(usage := Some(usage), usageBytes := UsageLength(usage)), None))
    case Text(text) => if text == "" then Applied(s, None) else ApplyText(s, text)
    case Reasoning(text) => if text == "" then Applied(s, None) else ApplyReasoning(s, text)
    case Tool(index, callId, name, arguments) => ApplyTool(s, index, callId, name, arguments)
    case Stop(reason) =>
      if s.finishReason.Some? then Applied(s, Some(InvalidStream)) else
      (match Reserve(s, |reason|)
       case None => Applied(s, Some(StreamStateLimit))
       case Some(r) => Applied(FinishItems(r.(finishReason := Some(reason))), None))
    case Done =>
      if s.finishReason.None? then Applied(s, Some(InvalidStream)) else Applied(Finalize(s), None)
  }

  /** The assistant message handed to the session when the stream ends. */
  datatype CallRecord = CallRecord(id: string, name: string, arguments: string)
  datatype AssistantMessage = AssistantMessage(
    content: Option<string>, reasoning: Option<string>, toolCalls: seq<CallRecord>)
  datatype Outcome = Outcome(terminal: bool, completed: bool, message: AssistantMessage)

  function CallRecords(tools: Table<ToolCall>): seq<CallRecord> {
    if tools == [] then []
    else [CallRecord(tools[0].value.id, tools[0].value.name, tools[0].value.arguments)] + CallRecords(tools[1..])
  }

  function OutcomeOf(s: Emitter): Outcome {
    Outcome(s.terminal, s.completed, AssistantMessage(
      if s.tools != [] && s.text == "" then None else Some(s.text),
      if s.reasoning != "" then Some(s.reasoning) else None,
      CallRecords(s.tools)))
  }

  /** Every event offered in turn, refused ones included. */
  function Run(s: Emitter, events: seq<StreamEvent>): Emitter
    decreases |events|
  {
    if events == [] then s else Run(Apply(s, events[0]).state, events[1..])
  }

  /** No event of the run is refused. */
  predicate Accepts(s: Emitter, events: seq<StreamEvent>)
    decreases |events|
  {
    events == [] || (Apply(s, events[0]).error.None? && Accepts(Apply(s, events[0]).state, events[1..]))
  }
}
