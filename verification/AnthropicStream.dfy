/** The Anthropic decoder over framed bytes. */
module AnthropicStream {
  import opened Wrappers
  import opened SseFraming
  import opened OrderedTable
  import opened OutputModel
  import opened OutputLaws
  import opened ChatStream
  import opened AnthropicModel
  import opened AnthropicLaws

  function ParseMessage(parse: string -> Option<Json>, a: Messages,
      event: MessageEvent): Result<(Messages, seq<OutEvent>), AnthropicError> {
    match ApplyMessage(parse, a, event)
    case Err(e) => Err(e)
    case Ok(b) => Ok((b, NewEvents(a.emitter, b.emitter)))
  }

  /** A stream that ends without its terminal event is invalid. */
  function CloseMessages(a: Messages): Result<(Messages, seq<OutEvent>), AnthropicError> {
    if a.emitter.terminal then Ok((a, [])) else Err(InvalidMessages)
  }

  /** `read` turns the data lines of a block into an event, `parse` reads collected tool input. */
  function MessagesDecoder(read: Bytes -> MessageEvent, parse: string -> Option<Json>,
      limit: nat): Decoder<Messages, OutEvent, AnthropicError> {
    Decoder((a: Messages, block: Bytes) => ParseMessage(parse, a, read(block)),
            (a: Messages) => CloseMessages(a), limit, MessagesBufferLimit)
  }

  ghost predicate MessagesDeliver(a: Messages, b: Messages, events: seq<OutEvent>) {
    Sound(a) ==> Sound(b) && b.emitter.log == a.emitter.log + events
  }

  lemma {:induction false} MessagesDeliverComposes()
    ensures Composes(MessagesDeliver)
  {
    hide Sound;
    forall a: Messages, b: Messages, c: Messages, x: seq<OutEvent>, y: seq<OutEvent>
      | MessagesDeliver(a, b, x) && MessagesDeliver(b, c, y)
      ensures MessagesDeliver(a, c, x + y)
    {
      assert a.emitter.log + x + y == a.emitter.log + (x + y);
    }
  }

  lemma {:induction false} MessagesSteps(read: Bytes -> MessageEvent, parse: string -> Option<Json>, limit: nat)
    ensures Steps(MessagesDecoder(read, parse, limit), MessagesDeliver)
  {
    hide Sound, ApplyMessage;
    var d := MessagesDecoder(read, parse, limit);
    forall a: Messages, block: Bytes | d.parse(a, block).Ok?
      ensures MessagesDeliver(a, d.parse(a, block).value.0, d.parse(a, block).value.1)
    {
      if Sound(a) {
        ApplyMessageSound(parse, a, read(block));
      }
    }
    forall a: Messages | d.close(a).Ok?
      ensures MessagesDeliver(a, d.close(a).value.0, d.close(a).value.1)
    {
      assert a.emitter.log + [] == a.emitter.log;
    }
  }

  lemma {:induction false} SuccessIsTerminal(read: Bytes -> MessageEvent, parse: string -> Option<Json>, limit: nat,
                                             s: Stream<Messages>, chunks: seq<Bytes>)
    requires Decode(MessagesDecoder(read, parse, limit), s, chunks).Ok?
    ensures Decode(MessagesDecoder(read, parse, limit), s, chunks).value.0.emitter.terminal
    decreases |chunks|
  {
    var d := MessagesDecoder(read, parse, limit);
    if chunks != [] {
      SuccessIsTerminal(read, parse, limit, Push(d, s, chunks[0]).value.0, chunks[1..]);
    }
  }

  lemma {:induction false} MessagesDelivered(read: Bytes -> MessageEvent, parse: string -> Option<Json>, limit: nat,
                          s: Stream<Messages>, chunks: seq<Bytes>)
    requires Decode(MessagesDecoder(read, parse, limit), s, chunks).Ok?
    ensures var end := Decode(MessagesDecoder(read, parse, limit), s, chunks).value;
            MessagesDeliver(s.state, end.0, end.1)
  {
    MessagesDeliverComposes();
    MessagesSteps(read, parse, limit);
    DecodeSteps(MessagesDecoder(read, parse, limit), MessagesDeliver, s, chunks);
  }

  /**
   A successfully decoded Anthropic stream, however it was chunked: the client saw the emitter's
   whole log, which holds exactly one terminal event, in last place; and the tools are numbered
   0, ..., n - 1, so that the item positions of an orderly stream are right.
   */
  lemma {:induction false} MessagesStreamIsSound(read: Bytes -> MessageEvent, parse: string -> Option<Json>, limit: nat,
                              names: map<string, ToolIdentity>, seed: string, fallbackId: string, chunks: seq<Bytes>)
    ensures var start := Stream([], NewMessages(limit, names, seed, fallbackId));
            match Decode(MessagesDecoder(read, parse, limit), start, chunks)
            case Err(_) => true
            case Ok(end) =>
              && Sound(end.0) && end.0.emitter.log == end.1
              && end.1 != [] && end.1[|end.1| - 1].Terminal? && NoTerminal(end.1[..|end.1| - 1])
              && Dense(end.0.emitter.tools)
  {
    var d := MessagesDecoder(read, parse, limit);
    var s := Stream([], NewMessages(limit, names, seed, fallbackId));
    assert Sound(s.state);
    if Decode(d, s, chunks).Ok? {
      MessagesDelivered(read, parse, limit, s, chunks);
      SuccessIsTerminal(read, parse, limit, s, chunks);
      hide Decode;
      var end := Decode(d, s, chunks).value;
      assert [] + end.1 == end.1;
      TerminalLogEnds(end.0);
    }
  }

  lemma TerminalLogEnds(a: Messages)
    requires Sound(a) && a.emitter.terminal
    ensures var log := a.emitter.log;
            log != [] && log[|log| - 1].Terminal? && NoTerminal(log[..|log| - 1]) && Dense(a.emitter.tools)
  {
  }
}
