/** The items of an Anthropic stream, at their positions. */
module AnthropicLifecycle {
  import opened Wrappers
  import opened OrderedTable
  import opened OutputModel
  import opened OutputLaws
  import opened OutputLifecycle
  import opened AnthropicModel
  import opened AnthropicLaws

  /** The semantic events one message event feeds to the emitter. */
  function Fed(a: Messages, event: MessageEvent): seq<StreamEvent> {
    match event
    case MessageStart(id, inputTokens) =>
      [Start(id.GetOr("message")), Usage(inputTokens.GetOr(0), a.outputTokens)]
    case BlockStart(index, block, _) =>
      if block.kind == Some("text") then (if TextOfBlock(block) != "" then [Text(TextOfBlock(block))] else [])
      else if block.kind == Some("thinking") then
        (if ThinkingOfBlock(block) != "" then [Reasoning(ThinkingOfBlock(block))] else [])
      else if block.kind == Some("tool_use") then
        [Tool(if index in a.toolIndices then a.toolIndices[index] else |a.toolIndices|, block.id, block.name,
              Some(InitialArguments(block)))]
      else []
    case BlockDelta(index, part) =>
      (match part
       case TextPart(text) => [Text(text)]
       case ThinkingPart(thinking) => [Reasoning(thinking)]
       case InputPart(partial) =>
         if index in a.toolIndices then [Tool(a.toolIndices[index], None, None, Some(partial))] else []
       case _ => [])
    case MessageDelta(stopReason, usage) =>
      (if stopReason.Some? then [Stop(StopReason(stopReason.value))] else [])
      + (if usage.Some? then [Usage(a.inputTokens, usage.value.outputTokens.GetOr(a.outputTokens))] else [])
    case MessageStop => [Done]
    case _ => []
  }

  function AllFed(parse: string -> Option<Json>, a: Messages, events: seq<MessageEvent>): seq<StreamEvent>
    decreases |events|
  {
    if events == [] then []
    else
      match ApplyMessage(parse, a, events[0])
      case Err(_) => []
      case Ok(b) => Fed(a, events[0]) + AllFed(parse, b, events[1..])
  }

  lemma FedOne(a: Messages, event: StreamEvent)
    requires FeedEvent(a, event).Ok?
    ensures Run(a.emitter, [event]) == FeedEvent(a, event).value.emitter && Accepts(a.emitter, [event])
  {
    hide Apply;
    assert [event][1..] == [];
  }

  lemma {:induction false} RunSplits(s: Emitter, x: seq<StreamEvent>, y: seq<StreamEvent>)
    ensures Run(s, x + y) == Run(Run(s, x), y)
    ensures Accepts(s, x + y) <==> Accepts(s, x) && Accepts(Run(s, x), y)
    ensures Orderly(s, x + y) <==> Orderly(s, x) && Orderly(Run(s, x), y)
    decreases |x|
  {
    if x == [] {
      assert x + y == y;
    } else {
      hide Apply, InOrder;
      assert (x + y)[0] == x[0] && (x + y)[1..] == x[1..] + y;
      RunSplits(Apply(s, x[0]).state, x[1..], y);
    }
  }

  lemma FedTwo(a: Messages, first: StreamEvent, counted: Messages, second: StreamEvent)
    requires FeedEvent(a, first).Ok? && counted.emitter == FeedEvent(a, first).value.emitter
        && FeedEvent(counted, second).Ok?
    ensures Run(a.emitter, [first] + [second]) == FeedEvent(counted, second).value.emitter
    ensures Accepts(a.emitter, [first] + [second])
  {
    FedOne(a, first);
    FedOne(counted, second);
    RunSplits(a.emitter, [first], [second]);
  }

  lemma MessageEventFeeds(parse: string -> Option<Json>, a: Messages, event: MessageEvent)
    requires event.MessageStart? || event.MessageDelta?
    requires ApplyMessage(parse, a, event).Ok?
    ensures Run(a.emitter, Fed(a, event)) == ApplyMessage(parse, a, event).value.emitter
        && Accepts(a.emitter, Fed(a, event))
  {
    hide Apply;
    match event
    case MessageStart(id, inputTokens) =>
      var counted := a.(inputTokens := inputTokens.GetOr(0));
      var b := FeedEvent(counted, Start(id.GetOr("message"))).value;
      FedTwo(counted, Start(id.GetOr("message")), b, Usage(b.inputTokens, b.outputTokens));
    case MessageDelta(stopReason, usage) =>
      var b := a;
      if stopReason.Some? {
        FedOne(a, Stop(StopReason(stopReason.value)));
        b := FeedEvent(a, Stop(StopReason(stopReason.value))).value;
      }
      if usage.Some? {
        var counted := b.(outputTokens := usage.value.outputTokens.GetOr(b.outputTokens));
        var tokens := Usage(counted.inputTokens, counted.outputTokens);
        FedOne(counted, tokens);
        if stopReason.Some? {
          FedTwo(a, Stop(StopReason(stopReason.value)), counted, tokens);
        } else {
          assert [] + [tokens] == [tokens];
        }
      } else if stopReason.Some? {
        assert [Stop(StopReason(stopReason.value))] + [] == [Stop(StopReason(stopReason.value))];
      }
  }

  lemma StartBlockFeeds(parse: string -> Option<Json>, a: Messages, index: nat, block: Block, serializedBytes: nat)
    requires StartBlock(a, index, block, serializedBytes).Ok?
    ensures var event := BlockStart(index, block, serializedBytes);
            && Run(a.emitter, Fed(a, event)) == StartBlock(a, index, block, serializedBytes).value.emitter
            && Accepts(a.emitter, Fed(a, event))
  {
    hide Apply, Put;
    var b := PutBlock(ReserveBytes(a, serializedBytes).value, index, block);
    if block.kind == Some("text") && TextOfBlock(block) != "" {
      FedOne(b, Text(TextOfBlock(block)));
    } else if block.kind == Some("thinking") && ThinkingOfBlock(block) != "" {
      FedOne(b, Reasoning(ThinkingOfBlock(block)));
    } else if block.kind == Some("tool_use") {
      var k := if index in a.toolIndices then a.toolIndices[index] else |a.toolIndices|;
      FedOne(b.(toolIndices := b.toolIndices[index := k]),
          Tool(k, block.id, block.name, Some(InitialArguments(block))));
    }
  }

  /** The decoder's emitter is the emitter run on what was fed, all of it accepted. */
  lemma StepFeeds(parse: string -> Option<Json>, a: Messages, event: MessageEvent)
    requires ApplyMessage(parse, a, event).Ok?
    ensures Run(a.emitter, Fed(a, event)) == ApplyMessage(parse, a, event).value.emitter
        && Accepts(a.emitter, Fed(a, event))
  {
    hide Apply, Put;
    match event
    case MessageStart(_, _) => MessageEventFeeds(parse, a, event);
    case MessageDelta(_, _) => MessageEventFeeds(parse, a, event);
    case BlockStart(index, block, serializedBytes) => StartBlockFeeds(parse, a, index, block, serializedBytes);
    case BlockDelta(index, part) => DeltaFeeds(parse, a, index, part);
    case MessageStop => FedOne(a, Done);
    case _ =>
  }

  lemma DeltaFeeds(parse: string -> Option<Json>, a: Messages, index: nat, part: Part)
    requires ExtendBlock(a, index, part).Ok?
    ensures Run(a.emitter, Fed(a, BlockDelta(index, part))) == ExtendBlock(a, index, part).value.emitter
    ensures Accepts(a.emitter, Fed(a, BlockDelta(index, part)))
  {
    hide Apply, Put;
    match part
    case TextPart(text) => FedOne(AppendText(ReserveBytes(a, |text|).value, index, text).value, Text(text));
    case ThinkingPart(thinking) =>
      FedOne(AppendThinking(ReserveBytes(a, |thinking|).value, index, thinking).value, Reasoning(thinking));
    case InputPart(partial) =>
      FedOne(ReserveBytes(a, |partial|).value.(toolJson := ExtendInput(a, index, partial).value.toolJson),
             Tool(a.toolIndices[index], None, None, Some(partial)));
    case _ =>
  }

  /**
   A message event in order: thinking is first to start, text starts before any tool, a tool block is
   started once with an id and a name, and no content follows the stop reason.
   */
  predicate MessageInOrder(a: Messages, event: MessageEvent) {
    match event
    case BlockStart(index, block, _) =>
      if block.kind == Some("text") then InOrder(a.emitter, Text(TextOfBlock(block)))
      else if block.kind == Some("thinking") then InOrder(a.emitter, Reasoning(ThinkingOfBlock(block)))
      else block.kind == Some("tool_use") ==>
        index !in a.toolIndices && block.id.GetOr("") != "" && block.name.GetOr("") != ""
            && a.emitter.finishReason.None?
    case BlockDelta(_, TextPart(text)) => InOrder(a.emitter, Text(text))
    case BlockDelta(_, ThinkingPart(thinking)) => InOrder(a.emitter, Reasoning(thinking))
    case BlockDelta(_, InputPart(_)) => a.emitter.finishReason.None?
    case _ => true
  }

  predicate OrderlyMessages(parse: string -> Option<Json>, a: Messages, events: seq<MessageEvent>)
    decreases |events|
  {
    events == [] ||
    (MessageInOrder(a, events[0])
     && ApplyMessage(parse, a, events[0]).Ok?
     && OrderlyMessages(parse, ApplyMessage(parse, a, events[0]).value, events[1..]))
  }

  /** Events without content are in order wherever they are accepted. */
  lemma {:induction false} ContentlessIsOrderly(s: Emitter, events: seq<StreamEvent>)
    requires Accepts(s, events) && forall e :: e in events ==> !e.Text? && !e.Reasoning? && !e.Tool?
    ensures Orderly(s, events)
    decreases |events|
  {
    if events != [] {
      assert events[0] in events;
      ContentlessIsOrderly(Apply(s, events[0]).state, events[1..]);
    }
  }

  lemma OneIsOrderly(s: Emitter, event: StreamEvent)
    requires Accepts(s, [event]) && InOrder(s, event)
    ensures Orderly(s, [event])
  {
    assert [event][1..] == [];
  }

  lemma StepIsOrderly(parse: string -> Option<Json>, a: Messages, event: MessageEvent)
    requires Sound(a) && MessageInOrder(a, event) && ApplyMessage(parse, a, event).Ok?
    ensures Orderly(a.emitter, Fed(a, event))
  {
    hide ApplyMessage, InOrder, Orderly, Accepts, Sound, MessageInOrder;
    StepFeeds(parse, a, event);
    if event.BlockStart? || event.BlockDelta? {
      if Fed(a, event) != [] {
        FedIsInOrder(a, event);
        assert Fed(a, event) == [Fed(a, event)[0]];
        OneIsOrderly(a.emitter, Fed(a, event)[0]);
      } else {
        ContentlessIsOrderly(a.emitter, []);
      }
    } else {
      ContentlessIsOrderly(a.emitter, Fed(a, event));
    }
  }

  lemma FedIsInOrder(a: Messages, event: MessageEvent)
    requires Sound(a) && MessageInOrder(a, event) && |Fed(a, event)| == 1
    ensures InOrder(a.emitter, Fed(a, event)[0])
  {
    hide Lawful;
    DenseGet(a.emitter.tools, |a.toolIndices|);
    if event.BlockDelta? && event.part.InputPart? {
      DenseGet(a.emitter.tools, a.toolIndices[event.index]);
    }
  }

  lemma {:induction false} OrderlyMessagesAreOrderly(parse: string -> Option<Json>, a: Messages,
      events: seq<MessageEvent>)
    requires Sound(a) && OrderlyMessages(parse, a, events)
    ensures RunMessages(parse, a, events).Ok? && Sound(RunMessages(parse, a, events).value)
    ensures Run(a.emitter, AllFed(parse, a, events)) == RunMessages(parse, a, events).value.emitter
    ensures Orderly(a.emitter, AllFed(parse, a, events))
    decreases |events|
  {
    if events != [] {
      var b := ApplyMessage(parse, a, events[0]).value;
      ApplyMessageSound(parse, a, events[0]);
      StepFeeds(parse, a, events[0]);
      StepIsOrderly(parse, a, events[0]);
      hide ApplyMessage, Sound, Fed, MessageInOrder;
      OrderlyMessagesAreOrderly(parse, b, events[1..]);
      RunSplits(a.emitter, Fed(a, events[0]), AllFed(parse, b, events[1..]));
    }
  }

  /**
   Main law: after an orderly Anthropic stream the events with output index p are the whole life of
   the p-th item of the terminal output array. The decoder numbers the tools itself, so nothing is
   asked of the numbering.
   */
  lemma {:induction false} MessageItemsLiveAtTheirPosition(
      parse: string -> Option<Json>, limit: nat, names: map<string, ToolIdentity>, seed: string, fallbackId: string,
      events: seq<MessageEvent>, p: nat)
    ensures var start := NewMessages(limit, names, seed, fallbackId);
            OrderlyMessages(parse, start, events) ==>
              && RunMessages(parse, start, events).Ok?
              && var s := RunMessages(parse, start, events).value.emitter;
                 s.terminal ==>
                   && s.log != [] && s.log[|s.log| - 1].Terminal?
                   && var output := s.log[|s.log| - 1].output;
                      if p < |output| then Lived(At(s.log, p), output[p], p) else At(s.log, p) == []
  {
    hide OrderlyMessages, RunMessages, AllFed, Run, Orderly, Lived, At, Lawful, Sound, Finish;
    var start := NewMessages(limit, names, seed, fallbackId);
    if OrderlyMessages(parse, start, events) {
      StartIsSound(limit, names, seed, fallbackId);
      OrderlyMessagesAreOrderly(parse, start, events);
      var b := RunMessages(parse, start, events).value;
      SoundIsDense(b);
      FinishedStays(b.emitter);
      ItemsLiveAtTheirPosition(limit, names, seed, fallbackId, AllFed(parse, start, events), p);
    }
  }

  lemma StartIsSound(limit: nat, names: map<string, ToolIdentity>, seed: string, fallbackId: string)
    ensures Sound(NewMessages(limit, names, seed, fallbackId))
  {
  }

  lemma SoundIsDense(a: Messages)
    requires Sound(a)
    ensures Dense(a.emitter.tools)
  {
    hide Lawful;
  }

  lemma FinishedStays(s: Emitter)
    ensures s.terminal ==> Finish(s) == s
  {
  }
}
