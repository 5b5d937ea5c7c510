/** What the events of a Messages stream mean: for the client, field by field, and for the replayed blocks. */
module AnthropicMeaning {
  import opened Wrappers
  import opened OrderedTable
  import opened SseFraming
  import opened OutputModel
  import opened OutputLaws
  import opened OutputLifecycle
  import opened OutputStop
  import opened OutputMeaning
  import opened AnthropicModel
  import opened AnthropicLaws
  import opened AnthropicLifecycle
  import opened AnthropicStream

  // What the raw blocks keep.

  /** The fields of a block that deltas extend. */
  datatype Growing = TextField | ThinkingField | SignatureField

  function FieldOf(block: Block, which: Growing): Field {
    match which
    case TextField => block.text
    case ThinkingField => block.thinking
    case SignatureField => block.signature
  }

  /** What one event sends to a field of block `c`. */
  function SentBy(e: MessageEvent, c: nat, which: Growing): seq<string> {
    if !e.BlockDelta? || e.index != c then [] else
    match e.part
    case TextPart(text) => if which.TextField? then [text] else []
    case ThinkingPart(thinking) => if which.ThinkingField? then [thinking] else []
    case SignaturePart(signature) => if which.SignatureField? then [signature.GetOr("")] else []
    case _ => []
  }

  function Sent(events: seq<MessageEvent>, c: nat, which: Growing): seq<string> {
    if events == [] then [] else SentBy(events[0], c, which) + Sent(events[1..], c, which)
  }

  function Joint(parts: seq<string>): string { if parts == [] then "" else parts[0] + Joint(parts[1..]) }

  /** A field as the deltas leave it: untouched by none, else its text, if any, and theirs. */
  function Grown(field: Field, parts: seq<string>): Field {
    if parts == [] then field else Str((if field.Str? then field.text else "") + Joint(parts))
  }

  predicate MayGrow(field: Field, which: Growing) { field.Str? || (which.SignatureField? && field.Absent?) }

  lemma GrownTwice(field: Field, first: seq<string>, rest: seq<string>)
    requires |first| <= 1
    ensures Grown(Grown(field, first), rest) == Grown(field, first + rest)
  {
    if first == [] {
      assert first + rest == rest;
    } else if rest == [] {
      assert first + rest == first;
    } else {
      assert (first + rest)[0] == first[0] && (first + rest)[1..] == rest && first == [first[0]];
      var had := if field.Str? then field.text else "";
      JointOne(first[0]);
      Associative(had, first[0], Joint(rest));
    }
  }

  lemma JointOne(part: string)
    ensures Joint([part]) == part
  {
    assert [part][1..] == [];
    EmptyEnds(part);
  }

  /** What one event does to a block it does not start. */
  ghost predicate Grew(was: Block, now: Block, e: MessageEvent, c: nat, which: Growing) {
    && now.kind == was.kind && now.id == was.id && now.name == was.name
    && FieldOf(now, which) == Grown(FieldOf(was, which), SentBy(e, c, which))
    && (SentBy(e, c, which) != [] ==> MayGrow(FieldOf(was, which), which))
  }

  lemma FedContent(a: Messages, event: StreamEvent)
    requires FeedEvent(a, event).Ok?
    ensures FeedEvent(a, event).value == a.(emitter := FeedEvent(a, event).value.emitter)
  {
    hide Apply;
  }

  lemma StartKeepsOthers(a: Messages, index: nat, block: Block, serializedBytes: nat, c: nat)
    requires index != c && StartBlock(a, index, block, serializedBytes).Ok?
    ensures Get(StartBlock(a, index, block, serializedBytes).value.content, c) == Get(a.content, c)
    ensures StartBlock(a, index, block, serializedBytes).value.toolJson == a.toolJson
  {
    hide Apply, Get, Put;
    GetPut(a.content, index, block, c);
  }

  lemma StartPutsBlock(a: Messages, c: nat, block: Block, serializedBytes: nat)
    requires StartBlock(a, c, block, serializedBytes).Ok?
    ensures Get(StartBlock(a, c, block, serializedBytes).value.content, c) == Some(block)
    ensures StartBlock(a, c, block, serializedBytes).value.toolJson == a.toolJson
  {
    hide Apply, Get, Put;
    GetPut(a.content, c, block, c);
  }

  lemma DeltaGrows(a: Messages, index: nat, part: Part, c: nat, which: Growing)
    requires Get(a.content, c).Some? && ExtendBlock(a, index, part).Ok?
    ensures var next := Get(ExtendBlock(a, index, part).value.content, c);
            && next.Some? && next.value.input == Get(a.content, c).value.input
            && Grew(Get(a.content, c).value, next.value, BlockDelta(index, part), c, which)
  {
    hide Apply, Get, Put;
    var later := ExtendBlock(a, index, part).value;
    if part.TextPart? {
      var block := Get(a.content, index).value;
      GetPut(a.content, index, block.(text := Str(block.text.text + part.text)), c);
      JointOne(part.text);
    } else if part.ThinkingPart? {
      var block := Get(a.content, index).value;
      GetPut(a.content, index, block.(thinking := Str(block.thinking.text + part.thinking)), c);
      JointOne(part.thinking);
    } else if part.SignaturePart? {
      var block := Get(a.content, index).value;
      var current := if block.signature.Str? then block.signature.text else "";
      EmptyStarts(part.signature.value);
      JointOne(part.signature.value);
      GetPut(a.content, index, block.(signature := Str(current + part.signature.value)), c);
    }
  }

  lemma StepGrows(parse: string -> Option<Json>, a: Messages, e: MessageEvent, c: nat, which: Growing)
    requires Get(a.content, c).Some? && !(e.BlockStart? && e.index == c) && ApplyMessage(parse, a, e).Ok?
    ensures var next := Get(ApplyMessage(parse, a, e).value.content, c);
            && next.Some? && Grew(Get(a.content, c).value, next.value, e, c, which)
            && (e != BlockStop(c) || c !in a.toolJson ==> next.value.input == Get(a.content, c).value.input)
  {
    hide Apply, Get, Put;
    match e
    case BlockStart(index, block, serializedBytes) => StartKeepsOthers(a, index, block, serializedBytes, c);
    case BlockDelta(index, part) => DeltaGrows(a, index, part, c, which);
    case BlockStop(index) =>
      if index in a.toolJson {
        var block := Get(a.content, index).value;
        GetPut(a.content, index, block.(input := parse(a.toolJson[index])), c);
      }
    case _ =>
  }

  lemma {:induction false} RunGrows(parse: string -> Option<Json>, a: Messages, events: seq<MessageEvent>, c: nat,
                                    which: Growing)
    requires Get(a.content, c).Some? && NotStarted(events, c) && RunMessages(parse, a, events).Ok?
    ensures var was := Get(a.content, c).value; var next := Get(RunMessages(parse, a, events).value.content, c);
            && next.Some?
            && next.value.kind == was.kind && next.value.id == was.id && next.value.name == was.name
            && FieldOf(next.value, which) == Grown(FieldOf(was, which), Sent(events, c, which))
            && (Sent(events, c, which) != [] ==> MayGrow(FieldOf(was, which), which))
    decreases |events|
  {
    if events != [] {
      assert events[0] in events;
      var b := ApplyMessage(parse, a, events[0]).value;
      StepGrows(parse, a, events[0], c, which);
      hide ApplyMessage, Get, Sent;
      RunGrows(parse, b, events[1..], c, which);
      var first, rest := SentBy(events[0], c, which), Sent(events[1..], c, which);
      GrownTwice(FieldOf(Get(a.content, c).value, which), first, rest);
      SentSplits(events, c, which);
    }
  }

  lemma SentSplits(events: seq<MessageEvent>, c: nat, which: Growing)
    requires events != []
    ensures Sent(events, c, which) == SentBy(events[0], c, which) + Sent(events[1..], c, which)
    ensures Sent(events, c, which) != [] ==> SentBy(events[0], c, which) != [] || Sent(events[1..], c, which) != []
  {
  }

  /**
   Main law of replay: a block started once keeps its type, id and name, and each of its text, thinking and
   signature is what it started with and then every delta sent to it, joined; a field no delta was sent to
   stays as it was, even missing. Only a signature may start missing and still be sent one.
   */
  lemma BlockKeepsWhatItWasSent(parse: string -> Option<Json>, a: Messages, c: nat, block: Block,
                                serializedBytes: nat, events: seq<MessageEvent>, which: Growing)
    requires NotStarted(events, c) && RunMessages(parse, a, [BlockStart(c, block, serializedBytes)] + events).Ok?
    ensures var b := RunMessages(parse, a, [BlockStart(c, block, serializedBytes)] + events).value;
            && Get(b.content, c).Some?
            && var raw := Get(b.content, c).value;
               && raw.kind == block.kind && raw.id == block.id && raw.name == block.name
               && FieldOf(raw, which) == Grown(FieldOf(block, which), Sent(events, c, which))
               && (Sent(events, c, which) != [] ==> MayGrow(FieldOf(block, which), which))
  {
    var start := BlockStart(c, block, serializedBytes);
    assert ([start] + events)[0] == start && ([start] + events)[1..] == events;
    var s := ApplyMessage(parse, a, start).value;
    StartPutsBlock(a, c, block, serializedBytes);
    RunGrows(parse, s, events, c, which);
    hide Get, Sent, StartBlock;
  }

  // What tools keep.

  /** Some partial JSON, even empty, was sent to block `c`. */
  predicate IsPartial(e: MessageEvent, c: nat) { e.BlockDelta? && e.index == c && e.part.InputPart? }

  predicate HasPartial(events: seq<MessageEvent>, c: nat) { exists e :: e in events && IsPartial(e, c) }

  lemma StepCollects(parse: string -> Option<Json>, a: Messages, e: MessageEvent, c: nat)
    requires ApplyMessage(parse, a, e).Ok?
    ensures var b := ApplyMessage(parse, a, e).value;
            if e == BlockStop(c) then c !in b.toolJson
            else c in b.toolJson <==> c in a.toolJson || IsPartial(e, c)
  {
    hide Apply, Get, Put;
    if e.BlockDelta? {
      DeltaCollects(a, e.index, e.part, c);
      hide ExtendBlock;
    } else if e.BlockStart? {
      StartCollectsNothing(a, e.index, e.block, e.serializedBytes);
      hide StartBlock;
    }
  }

  lemma DeltaCollects(a: Messages, index: nat, part: Part, c: nat)
    requires ExtendBlock(a, index, part).Ok?
    ensures c in ExtendBlock(a, index, part).value.toolJson
       <==> c in a.toolJson || IsPartial(BlockDelta(index, part), c)
  {
    hide Apply, Get, Put;
  }

  lemma StartCollectsNothing(a: Messages, index: nat, block: Block, serializedBytes: nat)
    requires StartBlock(a, index, block, serializedBytes).Ok?
    ensures StartBlock(a, index, block, serializedBytes).value.toolJson == a.toolJson
  {
    hide Apply, Get, Put;
  }

  /** As long as block `c` is not stopped, or nothing is collected for it, its raw input stays. */
  lemma {:induction false} RunKeepsInput(parse: string -> Option<Json>, a: Messages, events: seq<MessageEvent>, c: nat)
    requires Get(a.content, c).Some? && NotStarted(events, c) && RunMessages(parse, a, events).Ok?
    requires BlockStop(c) !in events || (c !in a.toolJson && !HasPartial(events, c))
    ensures var b := RunMessages(parse, a, events).value;
            && Get(b.content, c).Some? && Get(b.content, c).value.input == Get(a.content, c).value.input
            && (c in b.toolJson <==> c in a.toolJson || HasPartial(events, c))
    decreases |events|
  {
    if events != [] {
      assert events[0] in events;
      StepGrows(parse, a, events[0], c, TextField);
      StepCollects(parse, a, events[0], c);
      hide ApplyMessage, Get;
      RunKeepsInput(parse, ApplyMessage(parse, a, events[0]).value, events[1..], c);
      assert HasPartial(events, c) <==> IsPartial(events[0], c) || HasPartial(events[1..], c);
    }
  }

  lemma {:induction false} RunsBoth(parse: string -> Option<Json>, a: Messages, x: seq<MessageEvent>,
                                    y: seq<MessageEvent>)
    ensures RunMessages(parse, a, x + y) == match RunMessages(parse, a, x)
                                            case Err(e) => Err(e)
                                            case Ok(b) => RunMessages(parse, b, y)
    decreases |x|
  {
    if x == [] {
      assert x + y == y;
    } else {
      hide ApplyMessage;
      assert (x + y)[0] == x[0] && (x + y)[1..] == x[1..] + y;
      if ApplyMessage(parse, a, x[0]).Ok? {
        RunsBoth(parse, ApplyMessage(parse, a, x[0]).value, x[1..], y);
      }
    }
  }

  lemma StopParses(parse: string -> Option<Json>, a: Messages, c: nat)
    requires Get(a.content, c).Some? && ApplyMessage(parse, a, BlockStop(c)).Ok?
    ensures var b := ApplyMessage(parse, a, BlockStop(c)).value;
            && Get(b.content, c).Some? && c !in b.toolJson
            && Get(b.content, c).value.input
               == if c in a.toolJson then parse(a.toolJson[c]) else Get(a.content, c).value.input
  {
    hide Get, Put, Apply, StartBlock, ExtendBlock, StartMessage, UpdateMessage;
    assert ApplyMessage(parse, a, BlockStop(c)) == StopBlock(parse, a, c);
    hide ApplyMessage;
    if c in a.toolJson {
      GetPut(a.content, c, Get(a.content, c).value.(input := parse(a.toolJson[c])), c);
    }
  }

  /**
   A tool block started and stopped once, with no partial JSON after the stop: its raw input is the parse
   of the partials joined, or what it started with when none was sent.
   */
  lemma InputIsTheParsedPartials(parse: string -> Option<Json>, a: Messages, c: nat, block: Block,
      serializedBytes: nat, before: seq<MessageEvent>, after: seq<MessageEvent>)
    requires Sound(a) && c !in a.toolIndices && block.kind == Some("tool_use")
    requires NotStarted(before, c) && NotStarted(after, c) && BlockStop(c) !in before && !HasPartial(after, c)
    requires RunMessages(parse, a, [BlockStart(c, block, serializedBytes)] + before + [BlockStop(c)] + after).Ok?
    ensures var b := RunMessages(parse, a,
                                 [BlockStart(c, block, serializedBytes)] + before + [BlockStop(c)] + after).value;
            && Get(b.content, c).Some?
            && Get(b.content, c).value.input
               == if HasPartial(before, c) then parse(Partials(before, c)) else block.input
  {
    hide Get, Partials, ApplyMessage, RunMessages;
    var start := BlockStart(c, block, serializedBytes);
    RunsBoth(parse, a, [start] + before + [BlockStop(c)], after);
    RunsBoth(parse, a, [start] + before, [BlockStop(c)]);
    RunsBoth(parse, a, [start], before);
    OneRuns(parse, a, start);
    var s := ApplyMessage(parse, a, start).value;
    ToolBlockStarts(parse, a, c, block, serializedBytes);
    RunKeepsInput(parse, s, before, c);
    RunArgumentsAgree(parse, s, before, c);
    var m := RunMessages(parse, s, before).value;
    OneRuns(parse, m, BlockStop(c));
    StopParses(parse, m, c);
    EmptyStarts(Partials(before, c));
    RunKeepsInput(parse, ApplyMessage(parse, m, BlockStop(c)).value, after, c);
  }

  lemma OneRuns(parse: string -> Option<Json>, a: Messages, e: MessageEvent)
    ensures RunMessages(parse, a, [e]) == ApplyMessage(parse, a, e)
  {
    hide ApplyMessage;
    assert [e][1..] == [];
  }

  lemma ToolBlockStarts(parse: string -> Option<Json>, a: Messages, c: nat, block: Block, serializedBytes: nat)
    requires Sound(a) && c !in a.toolIndices && block.kind == Some("tool_use")
    requires ApplyMessage(parse, a, BlockStart(c, block, serializedBytes)).Ok?
    ensures var s := ApplyMessage(parse, a, BlockStart(c, block, serializedBytes)).value;
            && Sound(s) && c in s.toolIndices && s.toolIndices[c] == |a.toolIndices| && c !in s.toolJson
            && Get(s.content, c) == Some(block)
  {
    hide Get, StartBlock, Lawful;
    ApplyMessageSound(parse, a, BlockStart(c, block, serializedBytes));
    ToolStartGivesArguments(parse, a, c, block, serializedBytes);
    StartPutsBlock(a, c, block, serializedBytes);
  }

  /** No event gives tool `k` an id or a name part. */
  ghost predicate NamesNothing(events: seq<StreamEvent>, k: nat) {
    forall e :: e in events && e.Tool? && e.index == k ==> e.callId.None? && e.name.None?
  }

  lemma {:induction false} NothingNamed(events: seq<StreamEvent>, k: nat)
    requires NamesNothing(events, k)
    ensures LastCallId(events, k).None? && NamesIn(events, k) == ""
  {
    if events != [] {
      assert events[0] in events;
      NothingNamed(events[1..], k);
    }
  }

  lemma StepNamesNothing(a: Messages, e: MessageEvent, c: nat)
    requires Bijective(a.toolIndices) && c in a.toolIndices && !(e.BlockStart? && e.index == c)
    ensures NamesNothing(Fed(a, e), a.toolIndices[c])
  {
  }

  lemma {:induction false} RunNamesNothing(parse: string -> Option<Json>, a: Messages, events: seq<MessageEvent>,
                                           c: nat)
    requires Sound(a) && c in a.toolIndices && NotStarted(events, c)
    ensures NamesNothing(AllFed(parse, a, events), a.toolIndices[c])
    decreases |events|
  {
    if events != [] && ApplyMessage(parse, a, events[0]).Ok? {
      assert events[0] in events;
      StepNamesNothing(a, events[0], c);
      ApplyMessageSound(parse, a, events[0]);
      StepNumbersAfter(parse, a, events[0]);
      hide Fed, ApplyMessage, Lawful, Bijective;
      RunNamesNothing(parse, ApplyMessage(parse, a, events[0]).value, events[1..], c);
    }
  }

  /** A tool block started once: the call the client is told of has the block's id and name. */
  lemma CallKeepsIdAndName(parse: string -> Option<Json>, a: Messages, c: nat, block: Block, serializedBytes: nat,
                           events: seq<MessageEvent>)
    requires Sound(a) && c !in a.toolIndices && block.kind == Some("tool_use")
    requires NotStarted(events, c) && RunMessages(parse, a, [BlockStart(c, block, serializedBytes)] + events).Ok?
    ensures var b := RunMessages(parse, a, [BlockStart(c, block, serializedBytes)] + events).value;
            && block.id.Some? && block.name.Some?
            && NamingOf(Get(b.emitter.tools, |a.toolIndices|).GetOr(NO_CALL))
               == Naming(block.id.value, block.name.value)
  {
    hide Get, ApplyMessage, Accepts, Run, AllFed, Lawful;
    var start := BlockStart(c, block, serializedBytes);
    var all := [start] + events;
    assert all[0] == start && all[1..] == events;
    var k := |a.toolIndices|;
    var s := ApplyMessage(parse, a, start).value;
    ToolBlockStarts(parse, a, c, block, serializedBytes);
    RunFeeds(parse, a, all);
    RunNamesNothing(parse, s, events, c);
    var rest := AllFed(parse, s, events);
    NothingNamed(rest, k);
    StartIsFed(parse, a, c, block, serializedBytes, events);
    var fed := AllFed(parse, a, all);
    DenseGet(a.emitter.tools, k);
    RunNames(a.emitter, fed, k);
    NamingSays(a.emitter, fed, k, Naming("", ""));
    AcceptedIsAll(a.emitter, fed);
    EmptyEnds(block.name.value);
    EmptyStarts(block.name.value);
  }

  lemma StartIsFed(parse: string -> Option<Json>, a: Messages, c: nat, block: Block, serializedBytes: nat,
                   events: seq<MessageEvent>)
    requires c !in a.toolIndices && block.kind == Some("tool_use")
    requires ApplyMessage(parse, a, BlockStart(c, block, serializedBytes)).Ok?
    ensures var s := ApplyMessage(parse, a, BlockStart(c, block, serializedBytes)).value;
            var fed := AllFed(parse, a, [BlockStart(c, block, serializedBytes)] + events);
            && block.id.Some? && block.name.Some?
            && fed != [] && fed[1..] == AllFed(parse, s, events)
            && fed[0] == Tool(|a.toolIndices|, block.id, block.name, Some(InitialArguments(block)))
  {
    hide Apply, Put, Get;
    var start := BlockStart(c, block, serializedBytes);
    assert ([start] + events)[0] == start && ([start] + events)[1..] == events;
  }

  // What the client is told.

  /** Every event of an accepted run is fed and accepted. */
  lemma {:induction false} RunFeeds(parse: string -> Option<Json>, a: Messages, events: seq<MessageEvent>)
    requires RunMessages(parse, a, events).Ok?
    ensures Run(a.emitter, AllFed(parse, a, events)) == RunMessages(parse, a, events).value.emitter
    ensures Accepts(a.emitter, AllFed(parse, a, events))
    decreases |events|
  {
    if events != [] {
      var b := ApplyMessage(parse, a, events[0]).value;
      StepFeeds(parse, a, events[0]);
      hide ApplyMessage, Fed;
      RunFeeds(parse, b, events[1..]);
      RunSplits(a.emitter, Fed(a, events[0]), AllFed(parse, b, events[1..]));
    }
  }

  /** Text: of text blocks as they start, and of text deltas. */
  function TextBy(e: MessageEvent): string {
    if e.BlockStart? && e.block.kind == Some("text") && e.block.text.Str? then e.block.text.text
    else if e.BlockDelta? && e.part.TextPart? then e.part.text
    else ""
  }

  function ThinkingBy(e: MessageEvent): string {
    if e.BlockStart? && e.block.kind == Some("thinking") && e.block.thinking.Str? then e.block.thinking.text
    else if e.BlockDelta? && e.part.ThinkingPart? then e.part.thinking
    else ""
  }

  function Texts(events: seq<MessageEvent>): string {
    if events == [] then "" else TextBy(events[0]) + Texts(events[1..])
  }

  function Thinkings(events: seq<MessageEvent>): string {
    if events == [] then "" else ThinkingBy(events[0]) + Thinkings(events[1..])
  }

  /** The id of the first message start, "message" if it has none. */
  function MessageId(events: seq<MessageEvent>): Option<string> {
    if events == [] then None
    else if events[0].MessageStart? then Some(events[0].id.GetOr("message"))
    else MessageId(events[1..])
  }

  /** The first stop reason given. */
  function StopField(events: seq<MessageEvent>): Option<string> {
    if events == [] then None
    else if events[0].MessageDelta? && events[0].stopReason.Some? then events[0].stopReason
    else StopField(events[1..])
  }

  predicate GivesUsage(e: MessageEvent) { e.MessageStart? || (e.MessageDelta? && e.usage.Some?) }

  predicate ReportsUsage(events: seq<MessageEvent>) {
    events != [] && (GivesUsage(events[0]) || ReportsUsage(events[1..]))
  }

  /** The input tokens of the last message start, zero if it has none. */
  function InputField(events: seq<MessageEvent>): Option<nat> {
    if events == [] then None
    else
      var later := InputField(events[1..]);
      if later.None? && events[0].MessageStart? then Some(events[0].inputTokens.GetOr(0)) else later
  }

  /** The last output tokens a message delta gives. */
  function OutputField(events: seq<MessageEvent>): Option<nat> {
    if events == [] then None
    else
      var later := OutputField(events[1..]);
      if later.None? && events[0].MessageDelta? && events[0].usage.Some? then events[0].usage.value.outputTokens
      else later
  }

  /** What a stop reason of this protocol is called in the other. */
  ghost predicate Means(given: Option<string>, told: Option<string>) {
    && (given.None? <==> told.None?)
    && (given in {Some("end_turn"), Some("stop_sequence")} <==> told == Some("stop"))
    && (given == Some("tool_use") <==> told == Some("tool_calls"))
    && (given == Some("max_tokens") <==> told == Some("length"))
    && (given.Some? && given.value !in {"end_turn", "stop_sequence", "tool_use", "max_tokens"}
        <==> told == Some("error"))
  }

  /** What is fed says what the events' fields say. */
  ghost predicate Tells(a: Messages, events: seq<MessageEvent>, said: Saying) {
    && said.text == Texts(events) && said.reasoning == Thinkings(events)
    && said.id == MessageId(events)
    && Means(StopField(events), said.reason)
    && said.usage == if ReportsUsage(events)
                     then Some((InputField(events).GetOr(a.inputTokens), OutputField(events).GetOr(a.outputTokens)))
                     else None
  }

  lemma OneField(e: MessageEvent)
    ensures Texts([e]) == TextBy(e) && Thinkings([e]) == ThinkingBy(e) && ReportsUsage([e]) == GivesUsage(e)
    ensures MessageId([e]) == if e.MessageStart? then Some(e.id.GetOr("message")) else None
    ensures StopField([e]) == if e.MessageDelta? then e.stopReason else None
    ensures InputField([e]) == if e.MessageStart? then Some(e.inputTokens.GetOr(0)) else None
    ensures OutputField([e]) == if e.MessageDelta? && e.usage.Some? then e.usage.value.outputTokens else None
  {
    assert [e][1..] == [];
    EmptyEnds(TextBy(e));
    EmptyEnds(ThinkingBy(e));
  }

  lemma ContentTells(a: Messages, e: MessageEvent, k: nat)
    requires e.BlockStart? || e.BlockDelta?
    ensures Tells(a, [e], SaidBy(Fed(a, e), k))
  {
    OneField(e);
    if Fed(a, e) != [] {
      assert Fed(a, e) == [Fed(a, e)[0]];
      OneSays(Fed(a, e)[0], k);
      hide SaidBy;
    }
  }

  lemma StepTells(a: Messages, e: MessageEvent, k: nat)
    ensures Tells(a, [e], SaidBy(Fed(a, e), k))
  {
    OneField(e);
    match e
    case MessageStart(id, inputTokens) =>
      var start: StreamEvent := Start(id.GetOr("message"));
      var tokens: StreamEvent := OutputModel.Usage(inputTokens.GetOr(0), a.outputTokens);
      assert Fed(a, e) == [start] + [tokens];
      OneSays(start, k);
      OneSays(tokens, k);
      BothSay([start], [tokens], k);
      hide SaidBy;
    case BlockStart(_, _, _) => ContentTells(a, e, k);
    case BlockDelta(_, _) => ContentTells(a, e, k);
    case MessageDelta(stopReason, usage) => DeltaTells(a, stopReason, usage, k);
    case MessageStop => OneSays(Done, k);
    case _ =>
  }

  lemma DeltaTells(a: Messages, stopReason: Option<string>, usage: Option<UsagePart>, k: nat)
    ensures Tells(a, [MessageDelta(stopReason, usage)], SaidBy(Fed(a, MessageDelta(stopReason, usage)), k))
  {
    var e := MessageDelta(stopReason, usage);
    OneField(e);
    var stop: seq<StreamEvent> := if stopReason.Some? then [Stop(StopReason(stopReason.value))] else [];
    var tokens: seq<StreamEvent> :=
      if usage.Some? then [OutputModel.Usage(a.inputTokens, usage.value.outputTokens.GetOr(a.outputTokens))] else [];
    assert Fed(a, e) == stop + tokens;
    if stopReason.Some? {
      OneSays(stop[0], k);
    }
    if usage.Some? {
      OneSays(tokens[0], k);
    }
    BothSay(stop, tokens, k);
    hide SaidBy;
  }

  /** The counters after one event. */
  lemma StepCounts(parse: string -> Option<Json>, a: Messages, e: MessageEvent)
    requires ApplyMessage(parse, a, e).Ok?
    ensures var b := ApplyMessage(parse, a, e).value;
            && b.inputTokens == InputField([e]).GetOr(a.inputTokens)
            && b.outputTokens == OutputField([e]).GetOr(a.outputTokens)
  {
    hide Apply, Get, Put;
    OneField(e);
  }

  lemma TellsBoth(a: Messages, b: Messages, events: seq<MessageEvent>, first: Saying, rest: Saying)
    requires events != [] && Tells(a, [events[0]], first) && Tells(b, events[1..], rest)
    requires b.inputTokens == InputField([events[0]]).GetOr(a.inputTokens)
    requires b.outputTokens == OutputField([events[0]]).GetOr(a.outputTokens)
    ensures Tells(a, events, Combine(first, rest))
  {
    OneField(events[0]);
    NoUsageNoCounts(events[1..]);
  }

  lemma {:induction false} NoUsageNoCounts(events: seq<MessageEvent>)
    ensures !ReportsUsage(events) ==> InputField(events).None? && OutputField(events).None?
  {
    if events != [] {
      NoUsageNoCounts(events[1..]);
    }
  }

  lemma {:induction false} RunTells(parse: string -> Option<Json>, a: Messages, events: seq<MessageEvent>, k: nat)
    requires RunMessages(parse, a, events).Ok?
    ensures Tells(a, events, SaidBy(AllFed(parse, a, events), k))
    decreases |events|
  {
    if events != [] {
      var b := ApplyMessage(parse, a, events[0]).value;
      StepTells(a, events[0], k);
      StepCounts(parse, a, events[0]);
      hide ApplyMessage, Fed, Tells, SaidBy;
      RunTells(parse, b, events[1..], k);
      BothSay(Fed(a, events[0]), AllFed(parse, b, events[1..]), k);
      TellsBoth(a, b, events, SaidBy(Fed(a, events[0]), k), SaidBy(AllFed(parse, b, events[1..]), k));
    }
  }

  /** What the client of a message stream is told, in terms of the message events only. */
  ghost predicate ToldFields(fallbackId: string, events: seq<MessageEvent>, s: Emitter) {
    && TextOf(s.log) == Texts(events) && ReasoningOf(s.log) == Thinkings(events)
    && Means(StopField(events), s.finishReason)
    && (s.terminal ==>
          && (s.completed <==> StopField(events) in {Some("end_turn"), Some("stop_sequence"), Some("tool_use")})
          && s.log != [] && s.log[|s.log| - 1].Terminal?
          && var last := s.log[|s.log| - 1];
             && (last.status == Completed
                 <==> StopField(events) in {Some("end_turn"), Some("stop_sequence"), Some("tool_use")})
             && (last.status == Incomplete <==> StopField(events) == Some("max_tokens"))
             && last.responseId == MessageId(events).GetOr(fallbackId)
             && last.usage == var i, o := InputField(events).GetOr(0), OutputField(events).GetOr(0);
                              if ReportsUsage(events) then TokenUsage(i, o, CappedSum(i, o)) else TokenUsage(0, 0, 0))
  }

  /** Every accepted run tells the client what its events say. */
  lemma {:induction false} RunToldFields(parse: string -> Option<Json>, limit: nat, names: map<string, ToolIdentity>,
      seed: string, fallbackId: string, events: seq<MessageEvent>)
    ensures match RunMessages(parse, NewMessages(limit, names, seed, fallbackId), events)
            case Err(_) => true
            case Ok(a) => ToldFields(fallbackId, events, a.emitter)
  {
    hide RunMessages, AllFed, Run, Accepts, AcceptedOf, Lawful, OutputModel.Finish, TextOf, ReasoningOf;
    var start := NewMessages(limit, names, seed, fallbackId);
    if RunMessages(parse, start, events).Ok? {
      var s := RunMessages(parse, start, events).value.emitter;
      var fed := AllFed(parse, start, events);
      RunFeeds(parse, start, events);
      RunTells(parse, start, events, 0);
      AcceptedIsAll(start.emitter, fed);
      FinishedStays(s);
      RunSays(start.emitter, fed);
      EmptyStarts(Texts(events));
      EmptyStarts(Thinkings(events));
      EveryRunIsNumbered(parse, limit, names, seed, fallbackId, events);
      LawfulLog(s);
      TerminalEventSaysWhatWasAccepted(limit, names, seed, fallbackId, fed);
    }
  }

  // The whole stream.

  lemma {:induction false} FedMessagesRun(read: Bytes -> MessageEvent, parse: string -> Option<Json>, limit: nat,
                                          a: Messages, blocks: seq<Bytes>)
    ensures var fed := Feed(MessagesDecoder(read, parse, limit), a, blocks);
            var ran := RunMessages(parse, a, ReadAll(read, blocks));
            (fed.Ok? <==> ran.Ok?) && (fed.Ok? ==> fed.value.0 == ran.value)
    decreases |blocks|
  {
    if blocks != [] {
      hide ApplyMessage;
      var d := MessagesDecoder(read, parse, limit);
      assert d.parse(a, blocks[0]) == ParseMessage(parse, a, read(blocks[0]));
      assert ReadAll(read, blocks)[1..] == ReadAll(read, blocks[1..]);
      if d.parse(a, blocks[0]).Ok? {
        FedMessagesRun(read, parse, limit, d.parse(a, blocks[0]).value.0, blocks[1..]);
      }
    }
  }

  /** A chunking decodes exactly when it stays within the bound, and its events are accepted and end the stream. */
  lemma MessagesDecodeIff(read: Bytes -> MessageEvent, parse: string -> Option<Json>, limit: nat, start: Messages,
                          chunks: seq<Bytes>)
    ensures var ran := RunMessages(parse, start, BlocksOf(read, chunks));
            var decoded := Decode(MessagesDecoder(read, parse, limit), Stream([], start), chunks);
            && (decoded.Ok? <==> Fits(limit, [], chunks) && ran.Ok? && ran.value.emitter.terminal)
            && (decoded.Ok? ==> decoded.value.0 == ran.value)
  {
    DecodesIff(MessagesDecoder(read, parse, limit), start, chunks);
    FedMessagesRun(read, parse, limit, start, RawBlocks(chunks));
    hide Feed, Decode, RawBlocks, ParseMessage, Fits, RunMessages;
  }

  /**
   Main law, for every chunking that decodes: the decoder has run the events of the framed blocks, and the
   client was sent their text and thinking, and last a terminal event: completed for "end_turn",
   "stop_sequence" and "tool_use", incomplete for "max_tokens", failed otherwise; under the message's id, with
   the input tokens of its start and the last output tokens given.
   */
  lemma {:induction false} MessagesStreamSaysItsFields(read: Bytes -> MessageEvent, parse: string -> Option<Json>,
      limit: nat, names: map<string, ToolIdentity>, seed: string, fallbackId: string, chunks: seq<Bytes>)
    ensures var start := NewMessages(limit, names, seed, fallbackId); var events := BlocksOf(read, chunks);
            match Decode(MessagesDecoder(read, parse, limit), Stream([], start), chunks)
            case Err(_) => true
            case Ok(end) =>
              && RunMessages(parse, start, events) == Ok(end.0)
              && end.0.emitter.log == end.1 && end.0.emitter.terminal
              && ToldFields(fallbackId, events, end.0.emitter)
  {
    hide Decode, Feed, RawBlocks, RunMessages, ToldFields, Sound;
    var start := NewMessages(limit, names, seed, fallbackId);
    var d := MessagesDecoder(read, parse, limit);
    if Decode(d, Stream([], start), chunks).Ok? {
      MessagesDecodeIff(read, parse, limit, start, chunks);
      MessagesStreamIsSound(read, parse, limit, names, seed, fallbackId, chunks);
      RunToldFields(parse, limit, names, seed, fallbackId, BlocksOf(read, chunks));
    }
  }

  // What is counted.

  /** The bytes an event is charged: of a block as it starts, and of every part sent to one. */
  function BytesOf(e: MessageEvent): nat {
    match e
    case BlockStart(_, _, bytes) => bytes
    case BlockDelta(_, TextPart(text)) => |text|
    case BlockDelta(_, ThinkingPart(thinking)) => |thinking|
    case BlockDelta(_, SignaturePart(signature)) => |signature.GetOr("")|
    case BlockDelta(_, InputPart(partial)) => |partial|
    case _ => 0
  }

  function Bytes(events: seq<MessageEvent>): nat {
    if events == [] then 0 else BytesOf(events[0]) + Bytes(events[1..])
  }

  lemma StepIsCounted(parse: string -> Option<Json>, a: Messages, e: MessageEvent)
    requires ApplyMessage(parse, a, e).Ok?
    ensures ApplyMessage(parse, a, e).value.aggregate == a.aggregate + BytesOf(e)
    ensures ApplyMessage(parse, a, e).value.limit == a.limit
  {
    hide Apply, Get, Put;
    if e.BlockStart? {
      StartIsCounted(a, e.index, e.block, e.serializedBytes);
      hide StartBlock;
    }
  }

  lemma StartIsCounted(a: Messages, index: nat, block: Block, serializedBytes: nat)
    requires StartBlock(a, index, block, serializedBytes).Ok?
    ensures StartBlock(a, index, block, serializedBytes).value.aggregate == a.aggregate + serializedBytes
    ensures StartBlock(a, index, block, serializedBytes).value.limit == a.limit
  {
    hide Apply, Get, Put;
  }

  /** In an accepted run every block and part is counted, once, and the count stays within the limit. */
  lemma {:induction false} RunIsCounted(parse: string -> Option<Json>, limit: nat, names: map<string, ToolIdentity>,
      seed: string, fallbackId: string, events: seq<MessageEvent>)
    ensures match RunMessages(parse, NewMessages(limit, names, seed, fallbackId), events)
            case Err(_) => true
            case Ok(a) => a.aggregate == Bytes(events) <= limit && |a.content| <= 256
  {
    var start := NewMessages(limit, names, seed, fallbackId);
    EveryRunIsNumbered(parse, limit, names, seed, fallbackId, events);
    if RunMessages(parse, start, events).Ok? {
      CountsFrom(parse, start, events);
    }
    hide RunMessages, Lawful, Numbered;
  }

  lemma {:induction false} CountsFrom(parse: string -> Option<Json>, a: Messages, events: seq<MessageEvent>)
    requires RunMessages(parse, a, events).Ok?
    ensures RunMessages(parse, a, events).value.aggregate == a.aggregate + Bytes(events)
    ensures RunMessages(parse, a, events).value.limit == a.limit
    decreases |events|
  {
    if events != [] {
      StepIsCounted(parse, a, events[0]);
      hide ApplyMessage;
      CountsFrom(parse, ApplyMessage(parse, a, events[0]).value, events[1..]);
    }
  }

  // When an event is refused.

  lemma FeedsIff(a: Messages, event: StreamEvent)
    ensures FeedEvent(a, event).Ok? <==> Accepts(a.emitter, [event])
  {
    hide Apply;
    assert [event][1..] == [];
  }

  /** Exactly the events with a known place and shape, within 256 blocks and the byte limit, are accepted. */
  lemma MessageIsAcceptedIff(parse: string -> Option<Json>, a: Messages, e: MessageEvent)
    ensures ApplyMessage(parse, a, e).Ok? <==>
              && Accepts(a.emitter, Fed(a, e))
              && match e
                 case BlockStart(i, b, bytes) =>
                   && (Get(a.content, i).Some? || |a.content| < 256) && a.aggregate + bytes <= a.limit
                   && b.kind in {Some("text"), Some("thinking"), Some("tool_use"), Some("redacted_thinking")}
                   && (b.kind == Some("tool_use") ==> b.id.Some? && b.name.Some?)
                 case BlockDelta(i, TextPart(text)) =>
                   a.aggregate + |text| <= a.limit && Get(a.content, i).Some? && Get(a.content, i).value.text.Str?
                 case BlockDelta(i, ThinkingPart(t)) =>
                   a.aggregate + |t| <= a.limit && Get(a.content, i).Some? && Get(a.content, i).value.thinking.Str?
                 case BlockDelta(i, SignaturePart(signature)) =>
                   && signature.Some? && a.aggregate + |signature.value| <= a.limit
                   && Get(a.content, i).Some? && Get(a.content, i).value.signature != NotString
                 case BlockDelta(i, InputPart(partial)) =>
                   i in a.toolIndices && a.aggregate + |partial| <= a.limit
                 case BlockStop(i) =>
                   i in a.toolJson ==> parse(a.toolJson[i]).Some? && Get(a.content, i).Some?
                 case Faulty => false
                 case _ => true
  {
    hide Apply, Get, Put;
    assert Accepts(a.emitter, []);
    match e
    case MessageStart(id, inputTokens) =>
      TwoAreFedIff(a.(inputTokens := inputTokens.GetOr(0)), Start(id.GetOr("message")),
                   OutputModel.Usage(inputTokens.GetOr(0), a.outputTokens));
    case MessageDelta(stopReason, usage) => DeltaIsAcceptedIff(a, stopReason, usage);
    case BlockStart(_, _, _) =>
    case BlockDelta(_, _) =>
    case MessageStop => FeedsIff(a, Done);
    case _ =>
  }

  lemma TwoAreFedIff(a: Messages, first: StreamEvent, second: StreamEvent)
    ensures FeedEvent(a, first).Ok? && FeedEvent(FeedEvent(a, first).value, second).Ok?
       <==> Accepts(a.emitter, [first, second])
  {
    assert [first, second] == [first] + [second];
    RunSplits(a.emitter, [first], [second]);
    FeedsIff(a, first);
    if FeedEvent(a, first).Ok? {
      FedOne(a, first);
      FeedsIff(FeedEvent(a, first).value, second);
    }
    hide Run, Accepts, Apply, Orderly;
  }

  lemma DeltaIsAcceptedIff(a: Messages, stopReason: Option<string>, usage: Option<UsagePart>)
    ensures UpdateMessage(a, stopReason, usage).Ok?
       <==> Accepts(a.emitter, Fed(a, MessageDelta(stopReason, usage)))
  {
    hide Apply;
    if stopReason.Some? {
      FeedsIff(a, Stop(StopReason(stopReason.value)));
    }
    if usage.Some? {
      var counted := a.(outputTokens := usage.value.outputTokens.GetOr(a.outputTokens));
      var tokens := OutputModel.Usage(counted.inputTokens, counted.outputTokens);
      FeedsIff(counted, tokens);
      if stopReason.Some? {
        var stop := Stop(StopReason(stopReason.value));
        TwoAreFedIff(a, stop, tokens);
        assert [stop, tokens] == [stop] + [tokens];
      }
    }
  }

  /** An event goes over a limit of the decoder itself. */
  predicate OverLimit(a: Messages, e: MessageEvent) {
    match e
    case BlockStart(i, _, bytes) =>
      (Get(a.content, i).None? && |a.content| >= 256) || a.aggregate + bytes > a.limit
    case BlockDelta(_, TextPart(text)) => a.aggregate + |text| > a.limit
    case BlockDelta(_, ThinkingPart(thinking)) => a.aggregate + |thinking| > a.limit
    case BlockDelta(_, SignaturePart(signature)) =>
      signature.Some? && a.aggregate + |signature.value| > a.limit
    case BlockDelta(i, InputPart(partial)) => i in a.toolIndices && a.aggregate + |partial| > a.limit
    case _ => false
  }

  /** A refused event is over a limit of the decoder, or of the emitter, or invalid: each with its own error. */
  lemma MessageFailsAsRefused(parse: string -> Option<Json>, a: Messages, e: MessageEvent)
    ensures var failed := ApplyMessage(parse, a, e);
            && (OverLimit(a, e) ==> failed == Err(MessagesStateLimit))
            && (failed == Err(MessagesStateLimit) && !OverLimit(a, e) ==>
                  FirstRefusal(a.emitter, Fed(a, e)) == Some(StreamStateLimit))
            && (failed == Err(InvalidMessages) && (e.MessageStart? || e.MessageDelta? || e.MessageStop?) ==>
                  FirstRefusal(a.emitter, Fed(a, e)) == Some(InvalidStream))
            && failed != Err(MessagesBufferLimit)
  {
    hide Apply, Get, Put;
    match e
    case MessageStart(id, inputTokens) =>
      TwoFailAsRefused(a.(inputTokens := inputTokens.GetOr(0)), Start(id.GetOr("message")),
                       OutputModel.Usage(inputTokens.GetOr(0), a.outputTokens));
    case MessageDelta(stopReason, usage) =>
      if stopReason.Some? && usage.Some? {
        var stop := Stop(StopReason(stopReason.value));
        var tokens := OutputModel.Usage(a.inputTokens, usage.value.outputTokens.GetOr(a.outputTokens));
        assert Fed(a, e) == [stop, tokens];
        TwoFailAsRefused(a, stop, tokens);
      }
    case _ =>
  }

  lemma TwoFailAsRefused(a: Messages, first: StreamEvent, second: StreamEvent)
    ensures FirstRefusal(a.emitter, [first, second])
         == if Apply(a.emitter, first).error.Some? then Apply(a.emitter, first).error
            else Apply(Apply(a.emitter, first).state, second).error
  {
    OneFailsAsRefused(Apply(a.emitter, first).state, second);
    hide Apply;
    assert [first, second][1..] == [second];
  }

  lemma OneFailsAsRefused(s: Emitter, e: StreamEvent)
    ensures FirstRefusal(s, [e]) == Apply(s, e).error
  {
    hide Apply;
    assert [e][1..] == [];
  }
}
