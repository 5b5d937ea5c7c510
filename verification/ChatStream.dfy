/** The Chat Completions decoder: what a block means to the emitter, and what a whole stream keeps. */
module ChatStream {
  import opened Wrappers
  import opened SseFraming
  import opened OutputModel
  import opened OutputLaws

  datatype ChatError = InvalidChatStream | ChatStateLimit | ChatBufferLimit

  datatype ChatCall = ChatCall(index: Option<nat>, callId: Option<string>, name: Option<string>,
      arguments: Option<string>)

  datatype ChatDelta = ChatDelta(reasoning: Option<string>, content: Option<string>, calls: seq<ChatCall>)

  /** The choice with index 0: its delta and its finish reason. */
  datatype ChatChoice = ChatChoice(delta: Option<ChatDelta>, finishReason: Option<string>)

  datatype ChatUsage = ChatUsage(promptTokens: Option<nat>, completionTokens: Option<nat>)

  /** What the data lines of one block parse to. */
  datatype ChatBlock =
    | NoData
    | EndMark
    | Malformed
    | Chunk(id: Option<string>, usage: Option<ChatUsage>, choice: Option<ChatChoice>)

  /** The semantic events of a chunk in order; `complete` is false when a call without index cuts them short. */
  datatype Script = Script(events: seq<StreamEvent>, complete: bool)

  function CallScript(calls: seq<ChatCall>): Script {
    if calls == [] then Script([], true)
    else if calls[0].index.None? then Script([], false)
    else
      var rest := CallScript(calls[1..]);
      Script([Tool(calls[0].index.value, calls[0].callId, calls[0].name, calls[0].arguments)] + rest.events,
          rest.complete)
  }

  function DeltaScript(delta: Option<ChatDelta>): Script {
    if delta.None? then Script([], true) else
    var calls := CallScript(delta.value.calls);
    Script((if delta.value.reasoning.Some? then [Reasoning(delta.value.reasoning.value)] else [])
           + (if delta.value.content.Some? then [Text(delta.value.content.value)] else [])
           + calls.events, calls.complete)
  }

  function ChunkScript(id: Option<string>, usage: Option<ChatUsage>, choice: Option<ChatChoice>): Script {
    var head := [Start(id.GetOr("chatcmpl"))]
                + (if usage.Some?
                   then [Usage(usage.value.promptTokens.GetOr(0), usage.value.completionTokens.GetOr(0))]
                   else []);
    if choice.None? then Script(head, true) else
    var body := DeltaScript(choice.value.delta);
    Script(head + body.events
           + (if body.complete && choice.value.finishReason.Some? then [Stop(choice.value.finishReason.value)] else []),
           body.complete)
  }

  function Convert(error: OutputError): ChatError {
    match error
    case InvalidStream => InvalidChatStream
    case StreamStateLimit => ChatStateLimit
  }

  /** Applies events in order and stops at the first refusal. */
  function ApplyAll(s: Emitter, events: seq<StreamEvent>): Result<Emitter, ChatError>
    decreases |events|
  {
    if events == [] then Ok(s) else
    var applied := Apply(s, events[0]);
    if applied.error.Some? then Err(Convert(applied.error.value)) else ApplyAll(applied.state, events[1..])
  }

  /** The events a state has beyond an earlier one. */
  function NewEvents(before: Emitter, after: Emitter): seq<OutEvent> {
    if |before.log| <= |after.log| then after.log[|before.log|..] else []
  }

  function ParseBlock(s: Emitter, block: ChatBlock): Result<(Emitter, seq<OutEvent>), ChatError> {
    match block
    case NoData => Ok((s, []))
    case Malformed => Err(InvalidChatStream)
    case EndMark =>
      (match ApplyAll(s, [Done])
       case Err(e) => Err(e)
       case Ok(t) => Ok((t, NewEvents(s, t))))
    case Chunk(id, usage, choice) =>
      var script := ChunkScript(id, usage, choice);
      match ApplyAll(s, script.events)
      case Err(e) => Err(e)
      case Ok(t) => if script.complete then Ok((t, NewEvents(s, t))) else Err(InvalidChatStream)
  }

  function CloseStream(s: Emitter): Result<(Emitter, seq<OutEvent>), ChatError> {
    Ok((OutputModel.Finish(s), NewEvents(s, OutputModel.Finish(s))))
  }

  /** `read` is the JSON reader of one block, which the model leaves abstract. */
  function ChatDecoder(read: Bytes -> ChatBlock, limit: nat): Decoder<Emitter, OutEvent, ChatError> {
    Decoder((s: Emitter, block: Bytes) => ParseBlock(s, read(block)),
            (s: Emitter) => CloseStream(s), limit, ChatBufferLimit)
  }

  /** The delivered events are exactly what the log grew by, and the emitter's laws are kept. */
  ghost predicate Delivers(s: Emitter, t: Emitter, events: seq<OutEvent>) {
    Lawful(s) ==> Lawful(t) && t.log == s.log + events
  }

  lemma {:induction false} StepDelivers(s: Emitter, event: StreamEvent)
    requires Lawful(s)
    ensures Delivers(s, Apply(s, event).state, NewEvents(s, Apply(s, event).state))
  {
    ApplyLawful(s, event);
    LogGrows(s, event);
  }

  lemma TwoSteps(s: Emitter, t: Emitter, u: Emitter)
    requires t.log == s.log + NewEvents(s, t) && u.log == t.log + NewEvents(t, u)
    ensures u.log == s.log + NewEvents(s, u)
  {
    assert u.log == s.log + (NewEvents(s, t) + NewEvents(t, u));
  }

  lemma {:induction false} ApplyAllDelivers(s: Emitter, events: seq<StreamEvent>)
    requires Lawful(s) && ApplyAll(s, events).Ok?
    ensures var t := ApplyAll(s, events).value; Lawful(t) && t.log == s.log + NewEvents(s, t)
    decreases |events|
  {
    if events != [] {
      var next := Apply(s, events[0]).state;
      StepDelivers(s, events[0]);
      ApplyAllDelivers(next, events[1..]);
      TwoSteps(s, next, ApplyAll(s, events).value);
    }
  }

  lemma ParseDelivers(s: Emitter, block: ChatBlock)
    requires ParseBlock(s, block).Ok?
    ensures Delivers(s, ParseBlock(s, block).value.0, ParseBlock(s, block).value.1)
  {
    if Lawful(s) {
      match block
      case NoData =>
      case EndMark => ApplyAllDelivers(s, [Done]);
      case Chunk(id, usage, choice) => ApplyAllDelivers(s, ChunkScript(id, usage, choice).events);
    }
  }

  lemma CloseDelivers(s: Emitter)
    ensures Delivers(s, CloseStream(s).value.0, CloseStream(s).value.1)
  {
    if Lawful(s) && s.finishReason.Some? {
      FinalizeLawful(s);
    }
  }

  lemma DeliversComposes()
    ensures Composes(Delivers)
  {
    forall s: Emitter, t: Emitter, u: Emitter, a: seq<OutEvent>, b: seq<OutEvent>
        | Delivers(s, t, a) && Delivers(t, u, b)
      ensures Delivers(s, u, a + b)
    {
      assert s.log + a + b == s.log + (a + b);
    }
  }

  lemma {:induction false} ChatSteps(read: Bytes -> ChatBlock, limit: nat)
    ensures Steps(ChatDecoder(read, limit), Delivers)
  {
    var d := ChatDecoder(read, limit);
    forall s: Emitter, block: Bytes | d.parse(s, block).Ok?
      ensures Delivers(s, d.parse(s, block).value.0, d.parse(s, block).value.1)
    {
      ParseDelivers(s, read(block));
    }
    forall s: Emitter | d.close(s).Ok?
      ensures Delivers(s, d.close(s).value.0, d.close(s).value.1)
    {
      CloseDelivers(s);
    }
  }

  /**
   A decoded Chat stream, however it was chunked: the client saw the emitter's whole log, the laws
   hold, at most one terminal event was sent and it was last, and the stream is terminal exactly
   when a stop reason was seen.
   */
  lemma ChatStreamIsLawful(read: Bytes -> ChatBlock, limit: nat, names: map<string, ToolIdentity>, seed: string,
                           fallbackId: string, chunks: seq<Bytes>)
    ensures match Decode(ChatDecoder(read, limit), Stream([], NewEmitter(limit, names, seed, fallbackId)), chunks)
            case Err(_) => true
            case Ok(end) =>
              && Lawful(end.0) && end.0.log == end.1
              && (end.0.terminal <==> end.0.finishReason.Some?)
              && (if end.0.terminal then end.1 != [] && end.1[|end.1| - 1].Terminal? && NoTerminal(end.1[..|end.1| - 1])
                  else NoTerminal(end.1))
  {
    var s := Stream([], NewEmitter(limit, names, seed, fallbackId));
    if Decode(ChatDecoder(read, limit), s, chunks).Ok? {
      ChatDelivers(read, limit, s, chunks);
      ClosedWhenStopped(read, limit, s, chunks);
      LogIsDelivered(s.state, Decode(ChatDecoder(read, limit), s, chunks).value.0,
          Decode(ChatDecoder(read, limit), s, chunks).value.1);
    }
  }

  lemma ChatDelivers(read: Bytes -> ChatBlock, limit: nat, s: Stream<Emitter>, chunks: seq<Bytes>)
    requires Decode(ChatDecoder(read, limit), s, chunks).Ok?
    ensures var end := Decode(ChatDecoder(read, limit), s, chunks).value; Delivers(s.state, end.0, end.1)
  {
    DeliversComposes();
    ChatSteps(read, limit);
    DecodeSteps(ChatDecoder(read, limit), Delivers, s, chunks);
  }

  lemma LogIsDelivered(s: Emitter, t: Emitter, events: seq<OutEvent>)
    requires Delivers(s, t, events) && Lawful(s) && s.log == []
    ensures Lawful(t) && t.log == events
    ensures t.terminal ==>
              && t.finishReason.Some? && events != []
              && events[|events| - 1].Terminal? && NoTerminal(events[..|events| - 1])
    ensures !t.terminal ==> NoTerminal(events)
  {
    assert [] + events == events;
  }

  lemma {:induction false} ClosedWhenStopped(read: Bytes -> ChatBlock, limit: nat, s: Stream<Emitter>,
      chunks: seq<Bytes>)
    requires Decode(ChatDecoder(read, limit), s, chunks).Ok?
    ensures var end := Decode(ChatDecoder(read, limit), s, chunks).value.0; end.finishReason.Some? ==> end.terminal
    decreases |chunks|
  {
    var d := ChatDecoder(read, limit);
    if chunks != [] {
      ClosedWhenStopped(read, limit, Push(d, s, chunks[0]).value.0, chunks[1..]);
    }
  }
}
