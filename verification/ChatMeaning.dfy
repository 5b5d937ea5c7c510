/** What the chunks of a Chat stream mean for the client, field by field. */
module ChatMeaning {
  import opened Wrappers
  import opened OrderedTable
  import opened SseFraming
  import opened OutputModel
  import opened OutputLaws
  import opened OutputStop
  import opened OutputMeaning
  import opened ChatStream

  // What the blocks say.

  function DeltaOf(block: ChatBlock): Option<ChatDelta> {
    if block.Chunk? && block.choice.Some? then block.choice.value.delta else None
  }

  /** The `content` fields of the choices, joined. */
  function Contents(blocks: seq<ChatBlock>): string {
    if blocks == [] then ""
    else (match DeltaOf(blocks[0]) case Some(d) => d.content.GetOr("") case None => "") + Contents(blocks[1..])
  }

  /** The `reasoning_content` fields of the choices, joined. */
  function ReasoningFields(blocks: seq<ChatBlock>): string {
    if blocks == [] then ""
    else (match DeltaOf(blocks[0]) case Some(d) => d.reasoning.GetOr("") case None => "") + ReasoningFields(blocks[1..])
  }

  function CallArguments(calls: seq<ChatCall>, k: nat): string {
    if calls == [] then ""
    else (if calls[0].index == Some(k) then calls[0].arguments.GetOr("") else "") + CallArguments(calls[1..], k)
  }

  function CallNames(calls: seq<ChatCall>, k: nat): string {
    if calls == [] then ""
    else (if calls[0].index == Some(k) then calls[0].name.GetOr("") else "") + CallNames(calls[1..], k)
  }

  function CallId(calls: seq<ChatCall>, k: nat): Option<string> {
    if calls == [] then None
    else
      var later := CallId(calls[1..], k);
      if later.None? && calls[0].index == Some(k) then calls[0].callId else later
  }

  function CallsOf(block: ChatBlock): seq<ChatCall> {
    match DeltaOf(block)
    case Some(d) => d.calls
    case None => []
  }

  /** The `arguments` fields of the calls with index `k`, joined. */
  function ArgumentFields(blocks: seq<ChatBlock>, k: nat): string {
    if blocks == [] then "" else CallArguments(CallsOf(blocks[0]), k) + ArgumentFields(blocks[1..], k)
  }

  /** The `name` fields of the calls with index `k`, joined. */
  function NameFields(blocks: seq<ChatBlock>, k: nat): string {
    if blocks == [] then "" else CallNames(CallsOf(blocks[0]), k) + NameFields(blocks[1..], k)
  }

  /** The last `id` field of a call with index `k`. */
  function CallIdField(blocks: seq<ChatBlock>, k: nat): Option<string> {
    if blocks == [] then None
    else
      var later := CallIdField(blocks[1..], k);
      if later.None? then CallId(CallsOf(blocks[0]), k) else later
  }

  function ReasonOf(block: ChatBlock): Option<string> {
    if block.Chunk? && block.choice.Some? then block.choice.value.finishReason else None
  }

  /** The first `finish_reason` a choice carries. */
  function FinishField(blocks: seq<ChatBlock>): Option<string> {
    if blocks == [] then None
    else if ReasonOf(blocks[0]).Some? then ReasonOf(blocks[0])
    else FinishField(blocks[1..])
  }

  /** The last `usage` given: prompt tokens as input, completion tokens as output, zero where missing. */
  function UsageField(blocks: seq<ChatBlock>): Option<(nat, nat)> {
    if blocks == [] then None
    else
      var later := UsageField(blocks[1..]);
      if later.None? && blocks[0].Chunk? && blocks[0].usage.Some?
      then Some((blocks[0].usage.value.promptTokens.GetOr(0), blocks[0].usage.value.completionTokens.GetOr(0)))
      else later
  }

  /** The id of the first chunk, if it has one. */
  function IdField(blocks: seq<ChatBlock>): Option<string> {
    if blocks == [] then None
    else if blocks[0].Chunk? then Some(blocks[0].id.GetOr("chatcmpl"))
    else IdField(blocks[1..])
  }

  // The events a block feeds.

  function FedBy(block: ChatBlock): seq<StreamEvent> {
    match block
    case Chunk(id, usage, choice) => ChunkScript(id, usage, choice).events
    case EndMark => [Done]
    case _ => []
  }

  function AllFed(blocks: seq<ChatBlock>): seq<StreamEvent> {
    if blocks == [] then [] else FedBy(blocks[0]) + AllFed(blocks[1..])
  }

  lemma {:induction false} ApplyAllRuns(s: Emitter, events: seq<StreamEvent>)
    ensures ApplyAll(s, events).Ok? <==> Accepts(s, events)
    ensures ApplyAll(s, events).Ok? ==> Run(s, events) == ApplyAll(s, events).value
    decreases |events|
  {
    if events != [] {
      hide Apply;
      ApplyAllRuns(Apply(s, events[0]).state, events[1..]);
    }
  }

  /** A block that parses: every call has its index, and its events are all accepted. */
  predicate Complete(block: ChatBlock) {
    !block.Malformed? && (DeltaOf(block).Some? ==> forall c :: c in DeltaOf(block).value.calls ==> c.index.Some?)
  }

  lemma {:induction false} CallsComplete(calls: seq<ChatCall>)
    ensures CallScript(calls).complete <==> forall c :: c in calls ==> c.index.Some?
  {
    if calls != [] {
      CallsComplete(calls[1..]);
    }
  }

  /** A block is parsed exactly when it is complete and all its events are accepted. */
  lemma BlockParsesIff(s: Emitter, block: ChatBlock)
    ensures ParseBlock(s, block).Ok? <==> Complete(block) && Accepts(s, FedBy(block))
    ensures ParseBlock(s, block).Ok? ==> Run(s, FedBy(block)) == ParseBlock(s, block).value.0
  {
    hide Apply;
    match block
    case Chunk(id, usage, choice) =>
      ApplyAllRuns(s, ChunkScript(id, usage, choice).events);
      if DeltaOf(block).Some? {
        CallsComplete(DeltaOf(block).value.calls);
      }
    case EndMark => ApplyAllRuns(s, [Done]);
    case NoData => assert Accepts(s, []);
    case Malformed =>
  }

  lemma {:induction false} AllFailAsRefused(s: Emitter, events: seq<StreamEvent>)
    ensures ApplyAll(s, events).Ok? <==> FirstRefusal(s, events).None?
    ensures ApplyAll(s, events) == Err(ChatStateLimit) <==> FirstRefusal(s, events) == Some(StreamStateLimit)
    ensures ApplyAll(s, events) != Err(ChatBufferLimit)
    decreases |events|
  {
    if events != [] {
      hide Apply;
      AllFailAsRefused(Apply(s, events[0]).state, events[1..]);
    }
  }

  /** A block fails with the state limit exactly when the first event refused was; any other failure is invalid. */
  lemma BlockFailsAsRefused(s: Emitter, block: ChatBlock)
    ensures var failed := ParseBlock(s, block);
            && (failed == Err(ChatStateLimit) <==> FirstRefusal(s, FedBy(block)) == Some(StreamStateLimit))
            && (failed.Err? && failed.error != ChatStateLimit ==> failed.error == InvalidChatStream)
  {
    AllFailAsRefused(s, FedBy(block));
    assert FirstRefusal(s, []).None?;
    hide ApplyAll, FirstRefusal, ChunkScript;
  }

  lemma {:induction false} AcceptsBoth(s: Emitter, x: seq<StreamEvent>, y: seq<StreamEvent>)
    ensures Accepts(s, x + y) <==> Accepts(s, x) && Accepts(Run(s, x), y)
    ensures Run(s, x + y) == Run(Run(s, x), y)
    decreases |x|
  {
    if x == [] {
      assert x + y == y;
    } else {
      hide Apply;
      assert (x + y)[0] == x[0] && (x + y)[1..] == x[1..] + y;
      AcceptsBoth(Apply(s, x[0]).state, x[1..], y);
    }
  }

  predicate AllComplete(blocks: seq<ChatBlock>) { forall b :: b in blocks ==> Complete(b) }

  /** The blocks are all accepted exactly when they are complete and everything they feed is. */
  lemma {:induction false} FedBlocksRun(read: Bytes -> ChatBlock, limit: nat, s: Emitter, blocks: seq<Bytes>)
    ensures var fed := AllFed(ReadAll(read, blocks)); var result := Feed(ChatDecoder(read, limit), s, blocks);
            && (result.Ok? <==> AllComplete(ReadAll(read, blocks)) && Accepts(s, fed))
            && (result.Ok? ==> Run(s, fed) == result.value.0)
    decreases |blocks|
  {
    if blocks != [] {
      hide ParseBlock, Accepts, Run, FedBy, Complete;
      var d := ChatDecoder(read, limit);
      var first := read(blocks[0]);
      assert d.parse(s, blocks[0]) == ParseBlock(s, first);
      BlockParsesIff(s, first);
      assert ReadAll(read, blocks) == [first] + ReadAll(read, blocks[1..]);
      AcceptsBoth(s, FedBy(first), AllFed(ReadAll(read, blocks[1..])));
      if ParseBlock(s, first).Ok? {
        FedBlocksRun(read, limit, ParseBlock(s, first).value.0, blocks[1..]);
      }
    } else {
      assert Accepts(s, []);
    }
  }

  // What the fed events say.

  function SaidByCalls(calls: seq<ChatCall>, k: nat): Saying {
    SILENCE.(arguments := CallArguments(calls, k), name := CallNames(calls, k), callId := CallId(calls, k))
  }

  lemma {:induction false} CallsSay(calls: seq<ChatCall>, k: nat)
    requires forall c :: c in calls ==> c.index.Some?
    ensures SaidBy(CallScript(calls).events, k) == SaidByCalls(calls, k)
  {
    if calls != [] {
      CallsSay(calls[1..], k);
      var e := Tool(calls[0].index.value, calls[0].callId, calls[0].name, calls[0].arguments);
      var events := CallScript(calls).events;
      assert events[0] == e && events[1..] == CallScript(calls[1..]).events;
      FirstSays(events, k);
      hide SaidBy, CallScript;
    }
  }

  /** What a delta's fields say. */
  function SaidByDelta(delta: Option<ChatDelta>, k: nat): Saying {
    match delta
    case None => SILENCE
    case Some(d) => SaidByCalls(d.calls, k).(text := d.content.GetOr(""), reasoning := d.reasoning.GetOr(""))
  }

  lemma DeltaSays(delta: Option<ChatDelta>, k: nat)
    requires delta.Some? ==> forall c :: c in delta.value.calls ==> c.index.Some?
    ensures DeltaScript(delta).complete
    ensures SaidBy(DeltaScript(delta).events, k) == SaidByDelta(delta, k)
  {
    if delta.Some? {
      var d := delta.value;
      var r: seq<StreamEvent> := if d.reasoning.Some? then [Reasoning(d.reasoning.value)] else [];
      var t: seq<StreamEvent> := if d.content.Some? then [Text(d.content.value)] else [];
      CallsComplete(d.calls);
      CallsSay(d.calls, k);
      if d.reasoning.Some? {
        OneSays(r[0], k);
      }
      if d.content.Some? {
        OneSays(t[0], k);
      }
      BothSay(r, t, k);
      BothSay(r + t, CallScript(d.calls).events, k);
      Gathered(SILENCE.(reasoning := d.reasoning.GetOr("")), SILENCE.(text := d.content.GetOr("")),
               SaidByCalls(d.calls, k));
      hide SaidBy, CallScript, SaidByCalls;
    }
  }

  lemma Gathered(r: Saying, t: Saying, c: Saying)
    requires r == SILENCE.(reasoning := r.reasoning) && t == SILENCE.(text := t.text)
    requires c == c.(text := "", reasoning := "")
    ensures Combine(Combine(r, t), c) == c.(text := t.text, reasoning := r.reasoning, id := c.id)
  {
    EmptyStarts(t.text);
    EmptyEnds(t.text);
    EmptyEnds(r.reasoning);
    EmptyStarts(c.arguments);
    EmptyStarts(c.name);
  }

  /** What a block's fields say. */
  function SaidByBlock(block: ChatBlock, k: nat): Saying {
    SaidByDelta(DeltaOf(block), k).(
      id := if block.Chunk? then Some(block.id.GetOr("chatcmpl")) else None,
      reason := ReasonOf(block),
      usage := if block.Chunk? && block.usage.Some?
               then Some((block.usage.value.promptTokens.GetOr(0), block.usage.value.completionTokens.GetOr(0)))
               else None)
  }

  lemma HeadSays(id: Option<string>, usage: Option<ChatUsage>, k: nat)
    ensures var head := [Start(id.GetOr("chatcmpl"))]
                        + (if usage.Some?
                           then [Usage(usage.value.promptTokens.GetOr(0), usage.value.completionTokens.GetOr(0))]
                           else []);
            SaidBy(head, k) == SILENCE.(
              id := Some(id.GetOr("chatcmpl")),
              usage := if usage.Some?
                       then Some((usage.value.promptTokens.GetOr(0), usage.value.completionTokens.GetOr(0))) else None)
  {
    var start: seq<StreamEvent> := [Start(id.GetOr("chatcmpl"))];
    var tokens: seq<StreamEvent> :=
      if usage.Some? then [Usage(usage.value.promptTokens.GetOr(0), usage.value.completionTokens.GetOr(0))] else [];
    OneSays(start[0], k);
    if usage.Some? {
      OneSays(tokens[0], k);
    }
    BothSay(start, tokens, k);
  }

  lemma ChunkSays(block: ChatBlock, k: nat)
    requires Complete(block)
    ensures SaidBy(FedBy(block), k) == SaidByBlock(block, k)
  {
    match block
    case Chunk(id, usage, choice) =>
      HeadSays(id, usage, k);
      if choice.Some? {
        var delta := choice.value.delta;
        DeltaSays(delta, k);
        var head := [Start(id.GetOr("chatcmpl"))]
                    + (if usage.Some?
                       then [Usage(usage.value.promptTokens.GetOr(0), usage.value.completionTokens.GetOr(0))]
                       else []);
        var stop: seq<StreamEvent> :=
          if choice.value.finishReason.Some? then [Stop(choice.value.finishReason.value)] else [];
        assert FedBy(block) == head + DeltaScript(delta).events + stop;
        if choice.value.finishReason.Some? {
          OneSays(stop[0], k);
        }
        BothSay(head, DeltaScript(delta).events, k);
        BothSay(head + DeltaScript(delta).events, stop, k);
        hide SaidBy, DeltaScript, FedBy;
        Framed(SaidBy(head, k), SaidByDelta(delta, k), SaidBy(stop, k));
      }
    case EndMark => OneSays(Done, k);
    case NoData =>
  }

  lemma Framed(head: Saying, body: Saying, stop: Saying)
    requires head == SILENCE.(id := head.id, usage := head.usage) && stop == SILENCE.(reason := stop.reason)
    requires body.id.None? && body.reason.None? && body.usage.None?
    ensures Combine(Combine(head, body), stop) == body.(id := head.id, usage := head.usage, reason := stop.reason)
  {
    CombineSilence(body);
    var both := Combine(head, body);
    assert both == body.(id := head.id, usage := head.usage);
    CombineSilence(both);
  }

  /** What all the fields say. */
  function SaidByBlocks(blocks: seq<ChatBlock>, k: nat): Saying {
    Saying(Contents(blocks), ReasoningFields(blocks), ArgumentFields(blocks, k), NameFields(blocks, k),
           CallIdField(blocks, k), IdField(blocks), FinishField(blocks), UsageField(blocks))
  }

  lemma FirstBlockSays(blocks: seq<ChatBlock>, k: nat)
    requires blocks != []
    ensures SaidByBlocks(blocks, k) == Combine(SaidByBlock(blocks[0], k), SaidByBlocks(blocks[1..], k))
  {
  }

  lemma {:induction false} BlocksSay(blocks: seq<ChatBlock>, k: nat)
    requires AllComplete(blocks)
    ensures SaidBy(AllFed(blocks), k) == SaidByBlocks(blocks, k)
  {
    if blocks != [] {
      assert blocks[0] in blocks;
      ChunkSays(blocks[0], k);
      BlocksSay(blocks[1..], k);
      BothSay(FedBy(blocks[0]), AllFed(blocks[1..]), k);
      FirstBlockSays(blocks, k);
      hide SaidBy, SaidByBlocks, SaidByBlock, FedBy, Combine;
    }
  }

  // The whole stream.

  /**
   A chunking decodes exactly when it stays within the bound, its blocks are complete and the emitter accepts
   all they feed; the final emitter is the one that ran that, and finished.
   */
  lemma ChatDecodesIff(read: Bytes -> ChatBlock, limit: nat, start: Emitter, chunks: seq<Bytes>)
    ensures var blocks := BlocksOf(read, chunks); var fed := AllFed(blocks);
            var decoded := Decode(ChatDecoder(read, limit), Stream([], start), chunks);
            && (decoded.Ok? <==> Fits(limit, [], chunks) && AllComplete(blocks) && Accepts(start, fed))
            && (decoded.Ok? ==> decoded.value.0 == OutputModel.Finish(Run(start, fed)))
  {
    DecodesIff(ChatDecoder(read, limit), start, chunks);
    FedBlocksRun(read, limit, start, RawBlocks(chunks));
    hide Feed, Decode, Accepts, Run, RawBlocks, ParseBlock, Complete, Fits, OutputModel.Finish;
  }

  /**
   Main law, for every chunking that decodes: the client is sent the `content` fields of the chunks as
   message text and the `reasoning_content` fields as reasoning, each joined; every call has the `arguments`
   and `name` fields of its index joined, and the last `id`; the stream is terminal exactly when a choice
   carried a finish reason, with the status that reason means, under the first chunk's id, and with the
   last usage given.
   */
  lemma {:induction false} ChatStreamSaysItsFields(read: Bytes -> ChatBlock, limit: nat,
      names: map<string, ToolIdentity>, seed: string, fallbackId: string, chunks: seq<Bytes>, k: nat)
    ensures var blocks := BlocksOf(read, chunks);
            match Decode(ChatDecoder(read, limit), Stream([], NewEmitter(limit, names, seed, fallbackId)), chunks)
            case Err(_) => true
            case Ok(end) =>
              && TextOf(end.1) == Contents(blocks) && ReasoningOf(end.1) == ReasoningFields(blocks)
              && ArgumentsAt(end.0, k) == ArgumentFields(blocks, k)
              && NamingOf(Get(end.0.tools, k).GetOr(NO_CALL))
                 == Naming(CallIdField(blocks, k).GetOr(""), NameFields(blocks, k))
              && end.0.finishReason == FinishField(blocks)
              && (end.0.terminal <==> FinishField(blocks).Some?)
              && (end.0.completed <==> FinishField(blocks) in {Some("stop"), Some("tool_calls")})
              && (end.0.terminal ==>
                    && end.1 != [] && end.1[|end.1| - 1].Terminal?
                    && var last := end.1[|end.1| - 1];
                       && (last.status == Completed <==> FinishField(blocks) in {Some("stop"), Some("tool_calls")})
                       && (last.status == Incomplete <==> FinishField(blocks) == Some("length"))
                       && last.responseId == IdField(blocks).GetOr(fallbackId)
                       && last.usage == match UsageField(blocks)
                                        case Some(u) => TokenUsage(u.0, u.1, CappedSum(u.0, u.1))
                                        case None => TokenUsage(0, 0, 0))
  {
    hide Decode, Accepts, Run, AllFed, Lawful, OutputModel.Finish, BlocksOf, AcceptedOf;
    hide TextOf, ReasoningOf, NoTerminal;
    var start := NewEmitter(limit, names, seed, fallbackId);
    if Decode(ChatDecoder(read, limit), Stream([], start), chunks).Ok? {
      var fed := AllFed(BlocksOf(read, chunks));
      ChatStreamIsLawful(read, limit, names, seed, fallbackId, chunks);
      ChatDecodesIff(read, limit, start, chunks);
      AcceptedIsAll(start, fed);
      BlocksSay(BlocksOf(read, chunks), k);
      TerminalEventSaysWhatWasAccepted(limit, names, seed, fallbackId, fed);
      FinishedSays(limit, names, seed, fallbackId, fed, k);
    }
  }

  lemma FinishedSays(limit: nat, names: map<string, ToolIdentity>, seed: string, fallbackId: string,
                     fed: seq<StreamEvent>, k: nat)
    requires Accepts(NewEmitter(limit, names, seed, fallbackId), fed)
    ensures var end := OutputModel.Finish(Run(NewEmitter(limit, names, seed, fallbackId), fed));
            && ArgumentsAt(end, k) == ArgumentsIn(fed, k) && end.finishReason == FirstStop(fed)
            && NamingOf(Get(end.tools, k).GetOr(NO_CALL)) == Naming(LastCallId(fed, k).GetOr(""), NamesIn(fed, k))
  {
    hide Accepts, Run, AcceptedOf, Apply;
    var start := NewEmitter(limit, names, seed, fallbackId);
    AcceptedIsAll(start, fed);
    RunSaysArguments(start, fed, k);
    RunNames(start, fed, k);
    NamingSays(start, fed, k, Naming("", ""));
    assert "" + NamesIn(fed, k) == NamesIn(fed, k);
    RunSays(start, fed);
    FinishSays(Run(start, fed));
    FinishKeepsTools(Run(start, fed));
    assert "" + ArgumentsIn(fed, k) == ArgumentsIn(fed, k);
    hide OutputModel.Finish;
  }
}
