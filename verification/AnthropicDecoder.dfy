/** The Anthropic event handler as it runs: its tables updated in place beside an owned emitter. */
module AnthropicDecoding {
  import opened Wrappers
  import opened OrderedTable
  import opened OutputModel
  import opened OutputStream
  import opened AnthropicModel

  class AnthropicDecoder {
    const inner: OutputEmitter
    const maxBufferBytes: nat
    const parse: string -> Option<Json>
    var content: Table<Block>
    var toolJson: map<nat, string>
    var toolIndices: map<nat, nat>
    var pending: seq<OutEvent>
    var inputTokens: nat
    var outputTokens: nat
    var aggregateBytes: nat

    ghost function View(): Messages
      reads this, inner
    {
      Messages(inner.View(), maxBufferBytes, content, toolJson, toolIndices, inputTokens, outputTokens, aggregateBytes)
    }

    /** Everything the emitter has handed out and the client has not yet been sent is pending here. */
    ghost predicate Pending(sent: seq<OutEvent>)
      reads this, inner
    {
      inner.pending == [] && sent + pending == inner.View().log
    }

    constructor (maxBufferBytes: nat, toolNames: map<string, ToolIdentity>, seed: string, fallbackId: string,
                 parse: string -> Option<Json>)
      ensures View() == NewMessages(maxBufferBytes, toolNames, seed, fallbackId) && Pending([])
      ensures this.parse == parse && fresh(inner)
    {
      inner := new OutputEmitter(maxBufferBytes, toolNames, seed, fallbackId);
      this.maxBufferBytes, this.parse := maxBufferBytes, parse;
      content, toolJson, toolIndices, pending := [], map[], map[], [];
      inputTokens, outputTokens, aggregateBytes := 0, 0, 0;
    }

    /** What a handler promises: the model's step, or the model's error. */
    ghost predicate Did(step: Step, error: Option<AnthropicError>)
      reads this, inner
    {
      match step
      case Err(e) => error == Some(e)
      case Ok(next) => error == None && View() == next
    }

    method Feed(event: StreamEvent, ghost sent: seq<OutEvent>) returns (error: Option<AnthropicError>)
      requires Pending(sent)
      modifies inner, this`pending
      ensures Did(FeedEvent(old(View()), event), error)
      ensures error == None ==> Pending(sent)
    {
      var refused := inner.Apply(event);
      if refused.Some? {
        return Some(if refused.value == InvalidStream then InvalidMessages else MessagesStateLimit);
      }
      var events := inner.Drain();
      pending := pending + events;
      assert sent + pending == old(sent + pending) + events;
      return None;
    }

    method Reserve(additional: nat) returns (error: Option<AnthropicError>)
      modifies this`aggregateBytes
      ensures Did(ReserveBytes(old(View()), additional), error)
    {
      var next := aggregateBytes + additional;
      if next > maxBufferBytes {
        return Some(MessagesStateLimit);
      }
      aggregateBytes := next;
      return None;
    }

    method OpenTool(index: nat, block: Block, ghost sent: seq<OutEvent>) returns (error: Option<AnthropicError>)
      requires Pending(sent)
      modifies inner, this`pending, this`toolIndices
      ensures Did(StartTool(old(View()), index, block), error)
      ensures error == None ==> Pending(sent)
    {
      hide Apply;
      var toolIndex := if index in toolIndices then toolIndices[index] else |toolIndices|;
      toolIndices := toolIndices[index := toolIndex];
      if block.id.None? || block.name.None? {
        return Some(InvalidMessages);
      }
      var arguments := if block.input.Some? && block.input.value.isNonEmptyObject then block.input.value.text else "";
      error := Feed(Tool(toolIndex, block.id, block.name, Some(arguments)), sent);
    }

    method OpenBlock(index: nat, block: Block, serializedBytes: nat, ghost sent: seq<OutEvent>)
        returns (error: Option<AnthropicError>)
      requires Pending(sent)
      modifies inner, this
      ensures Did(StartBlock(old(View()), index, block, serializedBytes), error)
      ensures error == None ==> Pending(sent)
    {
      hide Apply;
      if Get(content, index).None? && |content| >= MAX_CONTENT_BLOCKS {
        return Some(MessagesStateLimit);
      }
      error := Reserve(serializedBytes);
      if error.Some? {
        return;
      }
      content := Put(content, index, block);
      if block.kind == Some("text") {
        if block.text.Str? && block.text.text != "" {
          error := Feed(Text(block.text.text), sent);
        }
      } else if block.kind == Some("thinking") {
        if block.thinking.Str? && block.thinking.text != "" {
          error := Feed(Reasoning(block.thinking.text), sent);
        }
      } else if block.kind == Some("tool_use") {
        error := OpenTool(index, block, sent);
      } else if block.kind != Some("redacted_thinking") {
        error := Some(InvalidMessages);
      }
    }

    method GrowText(index: nat, text: string, ghost sent: seq<OutEvent>) returns (error: Option<AnthropicError>)
      requires Pending(sent)
      modifies inner, this
      ensures Did(ExtendText(old(View()), index, text), error)
      ensures error == None ==> Pending(sent)
    {
      hide Apply;
      error := Reserve(|text|);
      if error.Some? {
        return;
      }
      var block := Get(content, index);
      if block.None? || !block.value.text.Str? {
        return Some(InvalidMessages);
      }
      content := Put(content, index, block.value.(text := Str(block.value.text.text + text)));
      error := Feed(Text(text), sent);
    }

    method GrowThinking(index: nat, thinking: string, ghost sent: seq<OutEvent>) returns (error: Option<AnthropicError>)
      requires Pending(sent)
      modifies inner, this
      ensures Did(ExtendThinking(old(View()), index, thinking), error)
      ensures error == None ==> Pending(sent)
    {
      hide Apply;
      error := Reserve(|thinking|);
      if error.Some? {
        return;
      }
      var block := Get(content, index);
      if block.None? || !block.value.thinking.Str? {
        return Some(InvalidMessages);
      }
      content := Put(content, index, block.value.(thinking := Str(block.value.thinking.text + thinking)));
      error := Feed(Reasoning(thinking), sent);
    }

    method GrowSignature(index: nat, signature: Option<string>) returns (error: Option<AnthropicError>)
      modifies this`aggregateBytes, this`content
      ensures Did(ExtendBlock(old(View()), index, SignaturePart(signature)), error)
    {
      hide Apply;
      if signature.None? {
        return Some(InvalidMessages);
      }
      error := Reserve(|signature.value|);
      if error.Some? {
        return;
      }
      var block := Get(content, index);
      if block.None? || block.value.signature.NotString? {
        return Some(InvalidMessages);
      }
      var current := if block.value.signature.Str? then block.value.signature.text else "";
      assert "" + signature.value == signature.value;
      content := Put(content, index, block.value.(signature := Str(current + signature.value)));
    }

    method GrowInput(index: nat, partial: string, ghost sent: seq<OutEvent>) returns (error: Option<AnthropicError>)
      requires Pending(sent)
      modifies inner, this
      ensures Did(ExtendInput(old(View()), index, partial), error)
      ensures error == None ==> Pending(sent)
    {
      hide Apply;
      if index !in toolIndices {
        return Some(InvalidMessages);
      }
      error := Reserve(|partial|);
      if error.Some? {
        return;
      }
      toolJson := toolJson[index := (if index in toolJson then toolJson[index] else "") + partial];
      error := Feed(Tool(toolIndices[index], None, None, Some(partial)), sent);
    }

    method CloseBlock(index: nat) returns (error: Option<AnthropicError>)
      modifies this`toolJson, this`content
      ensures Did(StopBlock(parse, old(View()), index), error)
    {
      if index !in toolJson {
        return None;
      }
      var input := parse(toolJson[index]);
      toolJson := toolJson - {index};
      if input.None? {
        return Some(InvalidMessages);
      }
      var block := Get(content, index);
      if block.None? {
        return Some(InvalidMessages);
      }
      content := Put(content, index, block.value.(input := input));
      return None;
    }

    method OpenMessage(id: Option<string>, tokens: Option<nat>, ghost sent: seq<OutEvent>)
        returns (error: Option<AnthropicError>)
      requires Pending(sent)
      modifies inner, this
      ensures Did(StartMessage(old(View()), id, tokens), error)
      ensures error == None ==> Pending(sent)
    {
      hide Apply;
      inputTokens := tokens.GetOr(0);
      error := Feed(Start(id.GetOr("message")), sent);
      if error.None? {
        error := Feed(Usage(inputTokens, outputTokens), sent);
      }
    }

    method ChangeMessage(stopReason: Option<string>, usage: Option<UsagePart>, ghost sent: seq<OutEvent>)
        returns (error: Option<AnthropicError>)
      requires Pending(sent)
      modifies inner, this
      ensures Did(UpdateMessage(old(View()), stopReason, usage), error)
      ensures error == None ==> Pending(sent)
    {
      hide Apply;
      error := None;
      if stopReason.Some? {
        error := Feed(Stop(StopReason(stopReason.value)), sent);
      }
      if error.None? && usage.Some? {
        outputTokens := usage.value.outputTokens.GetOr(outputTokens);
        error := Feed(Usage(inputTokens, outputTokens), sent);
      }
    }

    /** One event; on success the state is the model's and every emitted event is pending or sent. */
    method ApplyEvent(event: MessageEvent, ghost sent: seq<OutEvent>) returns (error: Option<AnthropicError>)
      requires Pending(sent)
      modifies inner, this
      ensures Did(ApplyMessage(parse, old(View()), event), error)
      ensures error == None ==> Pending(sent)
    {
      hide Apply;
      match event
      case MessageStart(id, tokens) => error := OpenMessage(id, tokens, sent);
      case BlockStart(index, block, serializedBytes) => error := OpenBlock(index, block, serializedBytes, sent);
      case BlockDelta(index, part) =>
        match part {
          case TextPart(text) => error := GrowText(index, text, sent);
          case ThinkingPart(thinking) => error := GrowThinking(index, thinking, sent);
          case SignaturePart(signature) => error := GrowSignature(index, signature);
          case InputPart(partial) => error := GrowInput(index, partial, sent);
          case OtherPart => error := None;
        }
      case BlockStop(index) => error := CloseBlock(index);
      case MessageDelta(stopReason, usage) => error := ChangeMessage(stopReason, usage, sent);
      case MessageStop => error := Feed(Done, sent);
      case Faulty => error := Some(InvalidMessages);
      case Ignored => error := None;
    }

    /** Hands the pending events to the client. */
    method TakePending(ghost sent: seq<OutEvent>) returns (events: seq<OutEvent>)
      requires Pending(sent)
      modifies this`pending
      ensures sent + events == View().emitter.log && Pending(sent + events) && View() == old(View())
    {
      events := pending;
      pending := [];
      assert sent + events + [] == sent + events;
    }
  }
}
