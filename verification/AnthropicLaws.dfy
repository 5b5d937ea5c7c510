/** What every accepted run of the Anthropic decoder keeps, and when its two accumulators agree. */
module AnthropicLaws {
  import opened Wrappers
  import opened OrderedTable
  import opened OutputModel
  import opened OutputLaws
  import opened AnthropicModel

  /** One to one, and onto 0, ..., n - 1. */
  ghost predicate Bijective(indices: map<nat, nat>) {
    && (forall c :: c in indices ==> indices[c] < |indices|)
    && (forall c, d :: c in indices && d in indices && c != d ==> indices[c] != indices[d])
    && (forall k: nat :: k < |indices| ==> k in indices.Values)
  }

  /** Content indices are numbered bijectively, and the emitter has exactly the numbered tools. */
  ghost predicate Numbered(a: Messages) {
    Bijective(a.toolIndices) && Dense(a.emitter.tools) && |a.emitter.tools| == |a.toolIndices|
  }

  ghost predicate Sound(a: Messages) {
    && Lawful(a.emitter) && Numbered(a)
    && Sorted(a.content) && |a.content| <= MAX_CONTENT_BLOCKS
    && a.aggregate <= a.limit
    && a.toolJson.Keys <= a.toolIndices.Keys
  }

  /** Only tool events touch the emitter's tools. */
  lemma ToolsKept(s: Emitter, event: StreamEvent)
    requires !event.Tool?
    ensures Apply(s, event).state.tools == s.tools
  {
  }

  /** A tool event for a known number, or the next new one, keeps the numbering dense. */
  lemma {:induction false} PutDense<V>(t: Table<V>, key: nat, value: V, offset: nat)
    requires forall i :: 0 <= i < |t| ==> t[i].key == i + offset
    requires offset <= key <= |t| + offset
    ensures |Put(t, key, value)| == if key == |t| + offset then |t| + 1 else |t|
    ensures forall i :: 0 <= i < |Put(t, key, value)| ==> Put(t, key, value)[i].key == i + offset
  {
    if t != [] && t[0].key < key {
      PutDense(t[1..], key, value, offset + 1);
    }
  }

  lemma NumberingNext(indices: map<nat, nat>, index: nat)
    requires Bijective(indices) && index !in indices
    ensures Bijective(indices[index := |indices|])
  {
    var more := indices[index := |indices|];
    forall k: nat | k < |more| ensures k in more.Values {
      if k < |indices| {
        assert k in indices.Values;
        var c :| c in indices && indices[c] == k;
        assert more[c] == k;
      } else {
        assert more[index] == k;
      }
    }
  }

  /** Offering a tool event under a known number, or the next new one, keeps the numbering. */
  lemma FeedToolNumbers(a: Messages, index: nat, event: StreamEvent)
    requires Bijective(a.toolIndices) && Dense(a.emitter.tools) && event.Tool? && index in a.toolIndices
    requires event.index == a.toolIndices[index] <= |a.emitter.tools|
    requires |a.toolIndices| == if event.index == |a.emitter.tools| then |a.emitter.tools| + 1 else |a.emitter.tools|
    requires FeedEvent(a, event).Ok?
    ensures Numbered(FeedEvent(a, event).value)
  {
    var merged := Merged(Get(a.emitter.tools, event.index).GetOr(NO_CALL), event.callId, event.name, event.arguments);
    PutDense(a.emitter.tools, event.index, Announced(merged), 0);
  }

  /** A fed event keeps the emitter lawful; content and counters are not its business. */
  lemma {:induction false} FeedSound(a: Messages, event: StreamEvent)
    requires Sound(a) && !event.Tool? && FeedEvent(a, event).Ok?
    ensures Sound(FeedEvent(a, event).value)
    ensures a.emitter.log <= FeedEvent(a, event).value.emitter.log
  {
    ApplyLawful(a.emitter, event);
    LogGrows(a.emitter, event);
    ToolsKept(a.emitter, event);
  }

  lemma PutBlockSound(a: Messages, index: nat, block: Block)
    requires Sound(a) && (Get(a.content, index).Some? || |a.content| < MAX_CONTENT_BLOCKS)
    ensures Sound(PutBlock(a, index, block))
  {
    PutSorted(a.content, index, block);
    GetPut(a.content, index, block, index);
  }

  lemma {:induction false} StartToolSound(a: Messages, index: nat, block: Block)
    requires Sound(a) && StartTool(a, index, block).Ok?
    ensures Sound(StartTool(a, index, block).value)
    ensures a.emitter.log <= StartTool(a, index, block).value.emitter.log
  {
    hide Apply, Lawful;
    var toolIndex := if index in a.toolIndices then a.toolIndices[index] else |a.toolIndices|;
    var numbered := a.(toolIndices := a.toolIndices[index := toolIndex]);
    var arguments := if block.input.Some? && block.input.value.isNonEmptyObject then block.input.value.text else "";
    var event := Tool(toolIndex, block.id, block.name, Some(arguments));
    if index in a.toolIndices {
      assert numbered.toolIndices == a.toolIndices;
    } else {
      NumberingNext(a.toolIndices, index);
    }
    ApplyLawful(a.emitter, event);
    LogGrows(a.emitter, event);
    FeedToolNumbers(numbered, index, event);
  }

  lemma StartBlockSound(a: Messages, index: nat, block: Block, serializedBytes: nat)
    requires Sound(a) && StartBlock(a, index, block, serializedBytes).Ok?
    ensures Sound(StartBlock(a, index, block, serializedBytes).value)
    ensures a.emitter.log <= StartBlock(a, index, block, serializedBytes).value.emitter.log
  {
    hide Apply;
    var r := ReserveBytes(a, serializedBytes).value;
    PutBlockSound(r, index, block);
    var b := PutBlock(r, index, block);
    if block.kind == Some("text") {
      if block.text.Str? && block.text.text != "" { FeedSound(b, Text(block.text.text)); }
    } else if block.kind == Some("thinking") {
      if block.thinking.Str? && block.thinking.text != "" { FeedSound(b, Reasoning(block.thinking.text)); }
    } else if block.kind == Some("tool_use") {
      StartToolSound(b, index, block);
    }
  }

  lemma ExtendInputSound(a: Messages, index: nat, partial: string)
    requires Sound(a) && ExtendInput(a, index, partial).Ok?
    ensures Sound(ExtendInput(a, index, partial).value)
    ensures a.emitter.log <= ExtendInput(a, index, partial).value.emitter.log
  {
    hide Apply;
    var r := ReserveBytes(a, |partial|).value;
    var b := r.(toolJson := r.toolJson[index := (if index in r.toolJson then r.toolJson[index] else "") + partial]);
    var event := Tool(r.toolIndices[index], None, None, Some(partial));
    ApplyLawful(a.emitter, event);
    LogGrows(a.emitter, event);
    FeedToolNumbers(b, index, event);
  }

  lemma ExtendBlockSound(a: Messages, index: nat, part: Part)
    requires Sound(a) && ExtendBlock(a, index, part).Ok?
    ensures Sound(ExtendBlock(a, index, part).value)
    ensures a.emitter.log <= ExtendBlock(a, index, part).value.emitter.log
  {
    hide Apply;
    match part
    case TextPart(text) =>
      var r := ReserveBytes(a, |text|).value;
      PutBlockSound(r, index, Get(r.content, index).value.(text := Str(Get(r.content, index).value.text.text + text)));
      FeedSound(AppendText(r, index, text).value, Text(text));
    case ThinkingPart(thinking) =>
      var r := ReserveBytes(a, |thinking|).value;
      var block := Get(r.content, index).value;
      PutBlockSound(r, index, block.(thinking := Str(block.thinking.text + thinking)));
      FeedSound(AppendThinking(r, index, thinking).value, Reasoning(thinking));
    case SignaturePart(signature) =>
      var r := ReserveBytes(a, |signature.value|).value;
      var block := Get(r.content, index).value;
      var current := if block.signature.Str? then block.signature.text else "";
      PutBlockSound(r, index, block.(signature := Str(current + signature.value)));
      assert "" + signature.value == signature.value;
    case InputPart(partial) => ExtendInputSound(a, index, partial);
    case OtherPart =>
  }

  /** Every accepted event keeps numbering, emitter laws and bounds. */
  lemma {:induction false} ApplyMessageSound(parse: string -> Option<Json>, a: Messages, event: MessageEvent)
    requires Sound(a) && ApplyMessage(parse, a, event).Ok?
    ensures Sound(ApplyMessage(parse, a, event).value)
    ensures a.emitter.log <= ApplyMessage(parse, a, event).value.emitter.log
  {
    hide Apply;
    match event
    case BlockStart(index, block, serializedBytes) => StartBlockSound(a, index, block, serializedBytes);
    case BlockDelta(index, part) => ExtendBlockSound(a, index, part);
    case BlockStop(index) =>
      if index in a.toolJson {
        var block := Get(a.content, index).value;
        PutBlockSound(a.(toolJson := a.toolJson - {index}), index, block.(input := parse(a.toolJson[index])));
      }
    case MessageStart(id, inputTokens) => StartMessageSound(a, id, inputTokens);
    case MessageDelta(stopReason, usage) => UpdateMessageSound(a, stopReason, usage);
    case MessageStop => FeedSound(a, Done);
    case _ =>
  }

  lemma StartMessageSound(a: Messages, id: Option<string>, inputTokens: Option<nat>)
    requires Sound(a) && StartMessage(a, id, inputTokens).Ok?
    ensures Sound(StartMessage(a, id, inputTokens).value)
    ensures a.emitter.log <= StartMessage(a, id, inputTokens).value.emitter.log
  {
    hide Apply;
    var counted := a.(inputTokens := inputTokens.GetOr(0));
    FeedSound(counted, Start(id.GetOr("message")));
    var b := FeedEvent(counted, Start(id.GetOr("message"))).value;
    FeedSound(b, Usage(b.inputTokens, b.outputTokens));
  }

  lemma {:induction false} UpdateMessageSound(a: Messages, stopReason: Option<string>, usage: Option<UsagePart>)
    requires Sound(a) && UpdateMessage(a, stopReason, usage).Ok?
    ensures Sound(UpdateMessage(a, stopReason, usage).value)
    ensures a.emitter.log <= UpdateMessage(a, stopReason, usage).value.emitter.log
  {
    hide Apply;
    var b := a;
    if stopReason.Some? {
      FeedSound(a, Stop(StopReason(stopReason.value)));
      b := FeedEvent(a, Stop(StopReason(stopReason.value))).value;
    }
    if usage.Some? {
      var counted := b.(outputTokens := usage.value.outputTokens.GetOr(b.outputTokens));
      FeedSound(counted, Usage(counted.inputTokens, counted.outputTokens));
    }
  }

  lemma {:induction false} RunSound(parse: string -> Option<Json>, a: Messages, events: seq<MessageEvent>)
    requires Sound(a) && RunMessages(parse, a, events).Ok?
    ensures Sound(RunMessages(parse, a, events).value)
    decreases |events|
  {
    hide Apply;
    if events != [] {
      ApplyMessageSound(parse, a, events[0]);
      RunSound(parse, ApplyMessage(parse, a, events[0]).value, events[1..]);
    }
  }

  /** Main law: in every accepted run the content-to-tool numbering is a bijection onto 0, ..., n - 1. */
  lemma {:induction false} EveryRunIsNumbered(parse: string -> Option<Json>, limit: nat,
      names: map<string, ToolIdentity>, seed: string, fallbackId: string, events: seq<MessageEvent>)
    ensures match RunMessages(parse, NewMessages(limit, names, seed, fallbackId), events)
            case Ok(a) => Sound(a)
            case Err(_) => true
  {
    if RunMessages(parse, NewMessages(limit, names, seed, fallbackId), events).Ok? {
      RunSound(parse, NewMessages(limit, names, seed, fallbackId), events);
    }
  }

  // Numbers are given in order of first appearance and never change.

  /** `later` extends `earlier`, and whatever is new in it has a higher number. */
  ghost predicate NumbersAfter(earlier: map<nat, nat>, later: map<nat, nat>) {
    && (forall c :: c in earlier ==> c in later && later[c] == earlier[c])
    && (forall c :: c in later && c !in earlier ==> later[c] >= |earlier|)
    && |earlier| <= |later|
  }

  lemma StepNumbersAfter(parse: string -> Option<Json>, a: Messages, event: MessageEvent)
    requires ApplyMessage(parse, a, event).Ok?
    ensures NumbersAfter(a.toolIndices, ApplyMessage(parse, a, event).value.toolIndices)
  {
    hide Apply;
    if event.BlockStart? && event.index !in a.toolIndices {
      assert |a.toolIndices[event.index := |a.toolIndices|]| == |a.toolIndices| + 1;
    }
    if event.BlockStart? && event.index in a.toolIndices {
      assert a.toolIndices[event.index := a.toolIndices[event.index]] == a.toolIndices;
    }
  }

  lemma {:induction false} RunNumbersAfter(parse: string -> Option<Json>, a: Messages, events: seq<MessageEvent>)
    requires RunMessages(parse, a, events).Ok?
    ensures NumbersAfter(a.toolIndices, RunMessages(parse, a, events).value.toolIndices)
    decreases |events|
  {
    hide Apply;
    if events != [] {
      StepNumbersAfter(parse, a, events[0]);
      RunNumbersAfter(parse, ApplyMessage(parse, a, events[0]).value, events[1..]);
    }
  }

  // The two accumulators.

  function TextOfBlock(block: Block): string { if block.text.Str? then block.text.text else "" }

  function ThinkingOfBlock(block: Block): string { if block.thinking.Str? then block.thinking.text else "" }

  /** The text fields of all raw blocks, joined in content order. */
  function RawText(content: Table<Block>): string {
    if content == [] then "" else RawText(content[..|content| - 1]) + TextOfBlock(content[|content| - 1].value)
  }

  function RawThinking(content: Table<Block>): string {
    if content == [] then "" else RawThinking(content[..|content| - 1]) + ThinkingOfBlock(content[|content| - 1].value)
  }

  /** Text only in text blocks, thinking only in thinking blocks. */
  predicate WellTyped(block: Block) {
    && (block.text.Str? ==> block.kind == Some("text"))
    && (block.thinking.Str? ==> block.kind == Some("thinking"))
  }

  predicate IsLatest(content: Table<Block>, index: nat) { content != [] && content[|content| - 1].key == index }

  /** Blocks are well typed, start once in increasing order, and text deltas target the latest block. */
  predicate InSequence(a: Messages, event: MessageEvent) {
    match event
    case BlockStart(index, block, _) => WellTyped(block) && (a.content == [] || a.content[|a.content| - 1].key < index)
    case BlockDelta(index, TextPart(_)) => IsLatest(a.content, index)
    case BlockDelta(index, ThinkingPart(_)) => IsLatest(a.content, index)
    case _ => true
  }

  predicate Sequential(parse: string -> Option<Json>, a: Messages, events: seq<MessageEvent>)
    decreases |events|
  {
    events == [] ||
    (InSequence(a, events[0])
     && match ApplyMessage(parse, a, events[0])
        case Err(_) => true
        case Ok(b) => Sequential(parse, b, events[1..]))
  }

  ghost predicate Agree(a: Messages) {
    && RawText(a.content) == a.emitter.text
    && RawThinking(a.content) == a.emitter.reasoning
  }

  lemma {:induction false} PutLatest<V>(t: Table<V>, key: nat, value: V)
    requires Sorted(t) && (t == [] || t[|t| - 1].key <= key)
    ensures Put(t, key, value) == (if t != [] && t[|t| - 1].key == key then t[..|t| - 1] else t) + [Entry(key, value)]
    ensures Get(t, key) == if t != [] && t[|t| - 1].key == key then Some(t[|t| - 1].value) else None
  {
    if |t| > 1 {
      assert t[0].key < t[|t| - 1].key;
      PutLatest(t[1..], key, value);
      assert t[1..][..|t| - 2] == t[..|t| - 1][1..];
    }
  }

  /** Replacing a block by one with the same text and thinking changes neither join. */
  lemma {:induction false} PutSameText(content: Table<Block>, index: nat, block: Block)
    requires Get(content, index).Some?
    requires TextOfBlock(block) == TextOfBlock(Get(content, index).value)
    requires ThinkingOfBlock(block) == ThinkingOfBlock(Get(content, index).value)
    ensures RawText(Put(content, index, block)) == RawText(content)
    ensures RawThinking(Put(content, index, block)) == RawThinking(content)
  {
    var i := PutPosition(content, index, block);
    ReplaceSameText(content, i, block);
  }

  lemma {:induction false} PutPosition(content: Table<Block>, index: nat, block: Block) returns (i: nat)
    requires Get(content, index).Some?
    ensures i < |content| && content[i] == Entry(index, Get(content, index).value)
    ensures Put(content, index, block) == content[i := Entry(index, block)]
  {
    if content[0].key == index {
      i := 0;
    } else {
      i := PutPosition(content[1..], index, block);
      i := i + 1;
    }
  }

  lemma {:induction false} ReplaceSameText(content: Table<Block>, i: nat, block: Block)
    requires i < |content|
    requires TextOfBlock(block) == TextOfBlock(content[i].value)
    requires ThinkingOfBlock(block) == ThinkingOfBlock(content[i].value)
    ensures RawText(content[i := Entry(content[i].key, block)]) == RawText(content)
    ensures RawThinking(content[i := Entry(content[i].key, block)]) == RawThinking(content)
  {
    var changed := content[i := Entry(content[i].key, block)];
    var last := |content| - 1;
    if i == last {
      assert changed[..last] == content[..last];
    } else {
      assert changed[..last] == content[..last][i := Entry(content[i].key, block)];
      ReplaceSameText(content[..last], i, block);
    }
  }

  /** What one fed event adds to the emitter's text and reasoning. */
  lemma FedText(a: Messages, event: StreamEvent)
    requires FeedEvent(a, event).Ok?
    ensures var b := FeedEvent(a, event).value;
            && b == a.(emitter := b.emitter)
            && b.emitter.text == a.emitter.text + (if event.Text? then event.text else "")
            && b.emitter.reasoning == a.emitter.reasoning + (if event.Reasoning? then event.text else "")
  {
  }

  lemma RawAppend(content: Table<Block>, entry: Entry<Block>)
    ensures RawText(content + [entry]) == RawText(content) + TextOfBlock(entry.value)
    ensures RawThinking(content + [entry]) == RawThinking(content) + ThinkingOfBlock(entry.value)
  {
    assert (content + [entry])[..|content|] == content;
  }

  lemma StartBlockAgrees(a: Messages, index: nat, block: Block, serializedBytes: nat)
    requires Sorted(a.content) && Agree(a) && InSequence(a, BlockStart(index, block, serializedBytes))
    requires StartBlock(a, index, block, serializedBytes).Ok?
    ensures Agree(StartBlock(a, index, block, serializedBytes).value)
  {
    hide Apply, Put, Get, RawText, RawThinking;
    var r := ReserveBytes(a, serializedBytes).value;
    PutLatest(a.content, index, block);
    var b := PutBlock(r, index, block);
    assert b.content == a.content + [Entry(index, block)];
    RawAppend(a.content, Entry(index, block));
    if block.kind == Some("tool_use") {
      var toolIndex := if index in b.toolIndices then b.toolIndices[index] else |b.toolIndices|;
      var arguments := if block.input.Some? && block.input.value.isNonEmptyObject then block.input.value.text else "";
      FedText(b.(toolIndices := b.toolIndices[index := toolIndex]),
          Tool(toolIndex, block.id, block.name, Some(arguments)));
    } else if TextOfBlock(block) != "" {
      FedText(b, Text(block.text.text));
    } else if ThinkingOfBlock(block) != "" {
      FedText(b, Reasoning(block.thinking.text));
    }
  }

  /** Extending the latest block extends the join. */
  lemma {:induction false} ExtendLatest(content: Table<Block>, index: nat, block: Block, more: Block)
    requires Sorted(content) && IsLatest(content, index) && Get(content, index) == Some(block)
    ensures RawThinking(Put(content, index, more)) == RawThinking(content[..|content| - 1]) + ThinkingOfBlock(more)
    ensures RawText(Put(content, index, more)) == RawText(content[..|content| - 1]) + TextOfBlock(more)
    ensures RawText(content) == RawText(content[..|content| - 1]) + TextOfBlock(block)
    ensures RawThinking(content) == RawThinking(content[..|content| - 1]) + ThinkingOfBlock(block)
  {
    PutLatest(content, index, more);
    RawAppend(content[..|content| - 1], Entry(index, more));
  }

  lemma ExtendTextAgrees(a: Messages, index: nat, text: string)
    requires Sorted(a.content) && Agree(a) && IsLatest(a.content, index) && ExtendText(a, index, text).Ok?
    ensures Agree(ExtendText(a, index, text).value)
  {
    hide Apply, Put, Get, RawText, RawThinking;
    var block := Get(a.content, index).value;
    ExtendLatest(a.content, index, block, block.(text := Str(block.text.text + text)));
    FedText(AppendText(ReserveBytes(a, |text|).value, index, text).value, Text(text));
  }

  lemma ExtendThinkingAgrees(a: Messages, index: nat, thinking: string)
    requires Sorted(a.content) && Agree(a) && IsLatest(a.content, index) && ExtendThinking(a, index, thinking).Ok?
    ensures Agree(ExtendThinking(a, index, thinking).value)
  {
    hide Apply, Put, Get, RawText, RawThinking;
    var block := Get(a.content, index).value;
    ExtendLatest(a.content, index, block, block.(thinking := Str(block.thinking.text + thinking)));
    FedText(AppendThinking(ReserveBytes(a, |thinking|).value, index, thinking).value, Reasoning(thinking));
  }

  lemma ExtendBlockAgrees(a: Messages, index: nat, part: Part)
    requires Sorted(a.content) && Agree(a) && InSequence(a, BlockDelta(index, part)) && ExtendBlock(a, index, part).Ok?
    ensures Agree(ExtendBlock(a, index, part).value)
  {
    hide Apply;
    match part
    case TextPart(text) => ExtendTextAgrees(a, index, text);
    case ThinkingPart(thinking) => ExtendThinkingAgrees(a, index, thinking);
    case SignaturePart(signature) =>
      var block := Get(a.content, index).value;
      var current := if block.signature.Str? then block.signature.text else "";
      var signed := block.(signature := Str(current + signature.value));
      assert "" + signature.value == signature.value;
      PutSameText(a.content, index, signed);
    case InputPart(partial) =>
      FedText(ReserveBytes(a, |partial|).value.(toolJson := ExtendInput(a, index, partial).value.toolJson),
              Tool(a.toolIndices[index], None, None, Some(partial)));
    case OtherPart =>
  }

  lemma {:induction false} MessageEventsAgree(parse: string -> Option<Json>, a: Messages, event: MessageEvent)
    requires Agree(a) && (event.MessageStart? || event.MessageDelta? || event.MessageStop?)
    requires ApplyMessage(parse, a, event).Ok?
    ensures Agree(ApplyMessage(parse, a, event).value)
  {
    hide Apply;
    match event
    case MessageStart(id, inputTokens) =>
      var counted := a.(inputTokens := inputTokens.GetOr(0));
      FedText(counted, Start(id.GetOr("message")));
      var b := FeedEvent(counted, Start(id.GetOr("message"))).value;
      FedText(b, Usage(b.inputTokens, b.outputTokens));
    case MessageDelta(stopReason, usage) =>
      var b := a;
      if stopReason.Some? {
        FedText(a, Stop(StopReason(stopReason.value)));
        b := FeedEvent(a, Stop(StopReason(stopReason.value))).value;
      }
      if usage.Some? {
        var counted := b.(outputTokens := usage.value.outputTokens.GetOr(b.outputTokens));
        FedText(counted, Usage(counted.inputTokens, counted.outputTokens));
      }
    case MessageStop => FedText(a, Done);
  }

  lemma ApplyAgrees(parse: string -> Option<Json>, a: Messages, event: MessageEvent)
    requires Sorted(a.content) && Agree(a) && InSequence(a, event) && ApplyMessage(parse, a, event).Ok?
    ensures Agree(ApplyMessage(parse, a, event).value)
  {
    hide Apply;
    match event
    case BlockStart(index, block, serializedBytes) => StartBlockAgrees(a, index, block, serializedBytes);
    case BlockDelta(index, part) => ExtendBlockAgrees(a, index, part);
    case BlockStop(index) =>
      if index in a.toolJson {
        PutSameText(a.content, index, Get(a.content, index).value.(input := parse(a.toolJson[index])));
      }
    case Ignored =>
    case _ => MessageEventsAgree(parse, a, event);
  }

  lemma {:induction false} RunAgrees(parse: string -> Option<Json>, a: Messages, events: seq<MessageEvent>)
    requires Sound(a) && Agree(a) && Sequential(parse, a, events) && RunMessages(parse, a, events).Ok?
    ensures Agree(RunMessages(parse, a, events).value)
    decreases |events|
  {
    hide Apply;
    if events != [] {
      ApplyMessageSound(parse, a, events[0]);
      ApplyAgrees(parse, a, events[0]);
      RunAgrees(parse, ApplyMessage(parse, a, events[0]).value, events[1..]);
    }
  }

  /**
   Main law: when blocks start once in increasing order and deltas target the latest block, the raw
   blocks' text and thinking, joined, are the emitter's text and reasoning.
   */
  lemma {:induction false} AccumulatorsAgree(parse: string -> Option<Json>, limit: nat,
      names: map<string, ToolIdentity>, seed: string, fallbackId: string, events: seq<MessageEvent>)
    ensures var start := NewMessages(limit, names, seed, fallbackId);
            Sequential(parse, start, events) && RunMessages(parse, start, events).Ok? ==>
              Agree(RunMessages(parse, start, events).value)
  {
    var start := NewMessages(limit, names, seed, fallbackId);
    if Sequential(parse, start, events) && RunMessages(parse, start, events).Ok? {
      RunAgrees(parse, start, events);
    }
  }

  // Tool arguments.

  /** The partial JSON sent to content index `c`, joined. */
  function Partials(events: seq<MessageEvent>, c: nat): string {
    if events == [] then ""
    else
      var e := events[0];
      (if e.BlockDelta? && e.index == c && e.part.InputPart? then e.part.partial else "") + Partials(events[1..], c)
  }

  predicate NotStarted(events: seq<MessageEvent>, c: nat) {
    forall e :: e in events ==> !(e.BlockStart? && e.index == c)
  }

  /** The raw JSON being collected for content index `c`. */
  function Collected(a: Messages, c: nat): string { if c in a.toolJson then a.toolJson[c] else "" }

  /** Arguments at tool `k` after one fed event. */
  lemma FedArguments(a: Messages, event: StreamEvent, k: nat)
    requires FeedEvent(a, event).Ok?
    ensures ArgumentsAt(FeedEvent(a, event).value.emitter, k)
         == ArgumentsAt(a.emitter, k) + if event.Tool? && event.index == k then event.arguments.GetOr("") else ""
  {
    ToolDeltaIsConserved(a.emitter, event, k);
    if event.Tool? {
      ToolStepArguments(a.emitter, event);
    }
  }

  lemma {:induction false} MessageEventsKeepArguments(parse: string -> Option<Json>, a: Messages, event: MessageEvent,
      k: nat)
    requires event.MessageStart? || event.MessageDelta? || event.MessageStop?
    requires ApplyMessage(parse, a, event).Ok?
    ensures ArgumentsAt(ApplyMessage(parse, a, event).value.emitter, k) == ArgumentsAt(a.emitter, k)
    ensures ApplyMessage(parse, a, event).value.toolJson == a.toolJson
  {
    hide Apply;
    match event
    case MessageStart(id, inputTokens) =>
      var counted := a.(inputTokens := inputTokens.GetOr(0));
      FedArguments(counted, Start(id.GetOr("message")), k);
      var b := FeedEvent(counted, Start(id.GetOr("message"))).value;
      FedArguments(b, Usage(b.inputTokens, b.outputTokens), k);
    case MessageDelta(stopReason, usage) =>
      var b := a;
      if stopReason.Some? {
        FedArguments(a, Stop(StopReason(stopReason.value)), k);
        b := FeedEvent(a, Stop(StopReason(stopReason.value))).value;
      }
      if usage.Some? {
        var counted := b.(outputTokens := usage.value.outputTokens.GetOr(b.outputTokens));
        FedArguments(counted, Usage(counted.inputTokens, counted.outputTokens), k);
      }
    case MessageStop => FedArguments(a, Done, k);
  }

  lemma StartKeepsArguments(a: Messages, index: nat, block: Block, serializedBytes: nat, c: nat)
    requires Bijective(a.toolIndices) && c in a.toolIndices && index != c
    requires StartBlock(a, index, block, serializedBytes).Ok?
    ensures var b := StartBlock(a, index, block, serializedBytes).value;
            && ArgumentsAt(b.emitter, a.toolIndices[c]) == ArgumentsAt(a.emitter, a.toolIndices[c])
            && b.toolJson == a.toolJson
  {
    hide Apply;
    var k := a.toolIndices[c];
    var b := PutBlock(ReserveBytes(a, serializedBytes).value, index, block);
    if block.kind == Some("tool_use") {
      var toolIndex := if index in b.toolIndices then b.toolIndices[index] else |b.toolIndices|;
      var arguments := if block.input.Some? && block.input.value.isNonEmptyObject then block.input.value.text else "";
      FedArguments(b.(toolIndices := b.toolIndices[index := toolIndex]),
          Tool(toolIndex, block.id, block.name, Some(arguments)), k);
    } else if block.kind == Some("text") && TextOfBlock(block) != "" {
      FedArguments(b, Text(block.text.text), k);
    } else if block.kind == Some("thinking") && ThinkingOfBlock(block) != "" {
      FedArguments(b, Reasoning(block.thinking.text), k);
    }
  }

  lemma InputKeepsArguments(a: Messages, index: nat, partial: string, c: nat)
    requires Bijective(a.toolIndices) && c in a.toolIndices && ExtendInput(a, index, partial).Ok?
    ensures var b := ExtendInput(a, index, partial).value; var more := if index == c then partial else "";
            && ArgumentsAt(b.emitter, a.toolIndices[c]) == ArgumentsAt(a.emitter, a.toolIndices[c]) + more
            && Collected(b, c) == Collected(a, c) + more
  {
    hide Apply;
    FedArguments(ReserveBytes(a, |partial|).value.(toolJson := ExtendInput(a, index, partial).value.toolJson),
                 Tool(a.toolIndices[index], None, None, Some(partial)), a.toolIndices[c]);
  }

  lemma DeltaKeepsArguments(a: Messages, index: nat, part: Part, c: nat)
    requires Bijective(a.toolIndices) && c in a.toolIndices && ExtendBlock(a, index, part).Ok?
    ensures var b := ExtendBlock(a, index, part).value;
            var more := if index == c && part.InputPart? then part.partial else "";
            && ArgumentsAt(b.emitter, a.toolIndices[c]) == ArgumentsAt(a.emitter, a.toolIndices[c]) + more
            && Collected(b, c) == Collected(a, c) + more
  {
    hide Apply;
    var k := a.toolIndices[c];
    match part
    case TextPart(text) => FedArguments(AppendText(ReserveBytes(a, |text|).value, index, text).value, Text(text), k);
    case ThinkingPart(thinking) =>
      FedArguments(AppendThinking(ReserveBytes(a, |thinking|).value, index, thinking).value, Reasoning(thinking), k);
    case InputPart(partial) => InputKeepsArguments(a, index, partial, c);
    case _ =>
  }

  /** One accepted event, other than a restart of `c`: the emitter's arguments and the collected JSON grow alike. */
  lemma {:induction false} StepArgumentsAgree(parse: string -> Option<Json>, a: Messages, event: MessageEvent, c: nat)
    requires Bijective(a.toolIndices) && c in a.toolIndices && !(event.BlockStart? && event.index == c)
    requires ApplyMessage(parse, a, event).Ok?
    ensures var b := ApplyMessage(parse, a, event).value;
            && ArgumentsAt(b.emitter, a.toolIndices[c])
                == ArgumentsAt(a.emitter, a.toolIndices[c]) + Partials([event], c)
            && (event != BlockStop(c) ==> Collected(b, c) == Collected(a, c) + Partials([event], c))
  {
    hide Apply;
    assert [event][1..] == [];
    match event
    case BlockStart(index, block, serializedBytes) => StartKeepsArguments(a, index, block, serializedBytes, c);
    case BlockDelta(index, part) => DeltaKeepsArguments(a, index, part, c);
    case BlockStop(_) =>
    case MessageStart(_, _) => MessageEventsKeepArguments(parse, a, event, a.toolIndices[c]);
    case MessageDelta(_, _) => MessageEventsKeepArguments(parse, a, event, a.toolIndices[c]);
    case MessageStop => MessageEventsKeepArguments(parse, a, event, a.toolIndices[c]);
    case Ignored =>
  }

  lemma {:induction false} RunArgumentsAgree(parse: string -> Option<Json>, a: Messages, events: seq<MessageEvent>,
      c: nat)
    requires Sound(a) && c in a.toolIndices && NotStarted(events, c) && RunMessages(parse, a, events).Ok?
    ensures var b := RunMessages(parse, a, events).value;
            && c in b.toolIndices && b.toolIndices[c] == a.toolIndices[c]
            && ArgumentsAt(b.emitter, b.toolIndices[c])
                == ArgumentsAt(a.emitter, a.toolIndices[c]) + Partials(events, c)
            && (BlockStop(c) !in events ==> Collected(b, c) == Collected(a, c) + Partials(events, c))
    decreases |events|
  {
    hide Apply;
    if events != [] {
      var b := ApplyMessage(parse, a, events[0]).value;
      ApplyMessageSound(parse, a, events[0]);
      StepNumbersAfter(parse, a, events[0]);
      StepArgumentsAgree(parse, a, events[0], c);
      RunArgumentsAgree(parse, b, events[1..], c);
      PartialsSplit(events, c);
    }
  }

  lemma PartialsSplit(events: seq<MessageEvent>, c: nat)
    requires events != []
    ensures forall s: string :: s + Partials(events, c) == s + Partials([events[0]], c) + Partials(events[1..], c)
  {
    assert [events[0]][1..] == [];
  }

  /** The arguments a tool block starts with: the text of an input object that is not empty. */
  function InitialArguments(block: Block): string {
    if block.input.Some? && block.input.value.isNonEmptyObject then block.input.value.text else ""
  }

  /**
   A tool block started once, with any input: its arguments at the emitter are what it started with
   and then the partial JSON sent to its content index, joined; and when the block stops, its raw
   input is the parse of the joined partials. A block started with an empty input, `{}` or none, so
   has the same arguments on both sides.
   */
  lemma ToolArgumentsAreThePartials(parse: string -> Option<Json>, a: Messages, c: nat, block: Block,
                                    serializedBytes: nat, events: seq<MessageEvent>)
    requires Sound(a) && c !in a.toolIndices && block.kind == Some("tool_use")
    requires NotStarted(events, c) && RunMessages(parse, a, [BlockStart(c, block, serializedBytes)] + events).Ok?
    ensures var b := RunMessages(parse, a, [BlockStart(c, block, serializedBytes)] + events).value;
            && c in b.toolIndices && b.toolIndices[c] == |a.toolIndices|
            && ArgumentsAt(b.emitter, b.toolIndices[c]) == InitialArguments(block) + Partials(events, c)
            && (BlockStop(c) !in events && ApplyMessage(parse, b, BlockStop(c)).Ok? && Partials(events, c) != "" ==>
                  && Get(ApplyMessage(parse, b, BlockStop(c)).value.content, c).Some?
                  && Get(ApplyMessage(parse, b, BlockStop(c)).value.content, c).value.input
                      == parse(Partials(events, c)))
  {
    hide Apply, Put, Get, Partials, Lawful, ApplyMessage, InitialArguments;
    var start := BlockStart(c, block, serializedBytes);
    assert ([start] + events)[0] == start && ([start] + events)[1..] == events;
    ApplyMessageSound(parse, a, start);
    var s := ApplyMessage(parse, a, start).value;
    ToolStartGivesArguments(parse, a, c, block, serializedBytes);
    RunArgumentsAgree(parse, s, events, c);
    var b := RunMessages(parse, s, events).value;
    assert BlockStop(c) !in events ==> Collected(b, c) == Partials(events, c);
    if Collected(b, c) != "" && ApplyMessage(parse, b, BlockStop(c)).Ok? {
      StopParsesCollected(parse, b, c);
    }
  }

  /** The start of a tool block numbers it next and gives it its initial arguments; nothing is collected yet. */
  lemma ToolStartGivesArguments(parse: string -> Option<Json>, a: Messages, c: nat, block: Block, serializedBytes: nat)
    requires Sound(a) && c !in a.toolIndices && block.kind == Some("tool_use")
    requires ApplyMessage(parse, a, BlockStart(c, block, serializedBytes)).Ok?
    ensures var s := ApplyMessage(parse, a, BlockStart(c, block, serializedBytes)).value;
            && c in s.toolIndices && s.toolIndices[c] == |a.toolIndices|
            && ArgumentsAt(s.emitter, |a.toolIndices|) == InitialArguments(block)
            && Collected(s, c) == ""
  {
    hide Apply, Put, Get, Lawful;
    var begun := PutBlock(ReserveBytes(a, serializedBytes).value, c, block);
    FedArguments(begun.(toolIndices := begun.toolIndices[c := |a.toolIndices|]),
                 Tool(|a.toolIndices|, block.id, block.name, Some(InitialArguments(block))), |a.toolIndices|);
    DenseGet(a.emitter.tools, |a.toolIndices|);
  }

  /** When a block stops with something collected, its raw input becomes the parse of that. */
  lemma StopParsesCollected(parse: string -> Option<Json>, b: Messages, c: nat)
    requires ApplyMessage(parse, b, BlockStop(c)).Ok? && Collected(b, c) != ""
    ensures var stopped := ApplyMessage(parse, b, BlockStop(c)).value;
            Get(stopped.content, c).Some? && Get(stopped.content, c).value.input == parse(Collected(b, c))
  {
    hide Apply;
    if Get(b.content, c).Some? && parse(b.toolJson[c]).Some? {
      GetPut(b.content, c, Get(b.content, c).value.(input := parse(b.toolJson[c])), c);
    }
  }
}
