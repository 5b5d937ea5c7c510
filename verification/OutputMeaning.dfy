/** What a run of the emitter means for its client, in terms of the events it accepted. */
module OutputMeaning {
  import opened Wrappers
  import opened OrderedTable
  import opened OutputModel
  import opened OutputLaws
  import opened OutputLifecycle
  import opened OutputStop

  // What events say.

  function TextsIn(events: seq<StreamEvent>): string {
    if events == [] then "" else (if events[0].Text? then events[0].text else "") + TextsIn(events[1..])
  }

  function ReasoningIn(events: seq<StreamEvent>): string {
    if events == [] then "" else (if events[0].Reasoning? then events[0].text else "") + ReasoningIn(events[1..])
  }

  /** The argument parts for tool `k`, joined. */
  function ArgumentsIn(events: seq<StreamEvent>, k: nat): string {
    if events == [] then ""
    else
      (if events[0].Tool? && events[0].index == k then events[0].arguments.GetOr("") else "")
      + ArgumentsIn(events[1..], k)
  }

  /** The name parts for tool `k`, joined. */
  function NamesIn(events: seq<StreamEvent>, k: nat): string {
    if events == [] then ""
    else (if events[0].Tool? && events[0].index == k then events[0].name.GetOr("") else "") + NamesIn(events[1..], k)
  }

  /** The last id given for tool `k`. */
  function LastCallId(events: seq<StreamEvent>, k: nat): Option<string> {
    if events == [] then None
    else
      var later := LastCallId(events[1..], k);
      if later.None? && events[0].Tool? && events[0].index == k then events[0].callId else later
  }

  function FirstStart(events: seq<StreamEvent>): Option<string> {
    if events == [] then None else if events[0].Start? then Some(events[0].id) else FirstStart(events[1..])
  }

  function FirstStop(events: seq<StreamEvent>): Option<string> {
    if events == [] then None else if events[0].Stop? then Some(events[0].reason) else FirstStop(events[1..])
  }

  /** The last usage given, as input and output tokens. */
  function LastUsage(events: seq<StreamEvent>): Option<(nat, nat)> {
    if events == [] then None
    else
      var later := LastUsage(events[1..]);
      if later.None? && events[0].Usage? then Some((events[0].input, events[0].output)) else later
  }

  /** The events of a run that are not refused. */
  function AcceptedOf(s: Emitter, events: seq<StreamEvent>): seq<StreamEvent>
    decreases |events|
  {
    if events == [] then []
    else
      var applied := Apply(s, events[0]);
      (if applied.error.None? then [events[0]] else []) + AcceptedOf(applied.state, events[1..])
  }

  /** The first refusal of a run that stops there. */
  function FirstRefusal(s: Emitter, events: seq<StreamEvent>): Option<OutputError>
    decreases |events|
  {
    if events == [] then None
    else
      var applied := Apply(s, events[0]);
      if applied.error.Some? then applied.error else FirstRefusal(applied.state, events[1..])
  }

  lemma {:induction false} AcceptedIsAll(s: Emitter, events: seq<StreamEvent>)
    requires Accepts(s, events)
    ensures AcceptedOf(s, events) == events
    decreases |events|
  {
    if events != [] {
      hide Apply;
      AcceptedIsAll(Apply(s, events[0]).state, events[1..]);
    }
  }

  // All of it at once.

  /** What a list of events says, as far as tool `k` is concerned. */
  datatype Saying = Saying(
    text: string,
    reasoning: string,
    arguments: string,
    name: string,
    callId: Option<string>,
    id: Option<string>,
    reason: Option<string>,
    usage: Option<(nat, nat)>)

  const SILENCE := Saying("", "", "", "", None, None, None, None)

  function Later<T>(first: Option<T>, second: Option<T>): Option<T> { if second.Some? then second else first }

  function Combine(a: Saying, b: Saying): Saying {
    Saying(a.text + b.text, a.reasoning + b.reasoning, a.arguments + b.arguments, a.name + b.name,
           Later(a.callId, b.callId), Later(b.id, a.id), Later(b.reason, a.reason), Later(a.usage, b.usage))
  }

  function SaidBy(events: seq<StreamEvent>, k: nat): Saying {
    Saying(TextsIn(events), ReasoningIn(events), ArgumentsIn(events, k), NamesIn(events, k), LastCallId(events, k),
           FirstStart(events), FirstStop(events), LastUsage(events))
  }

  function SaidByOne(e: StreamEvent, k: nat): Saying {
    match e
    case Start(id) => SILENCE.(id := Some(id))
    case Usage(input, output) => SILENCE.(usage := Some((input, output)))
    case Text(text) => SILENCE.(text := text)
    case Reasoning(text) => SILENCE.(reasoning := text)
    case Tool(index, callId, name, arguments) =>
      if index == k then SILENCE.(callId := callId, name := name.GetOr(""), arguments := arguments.GetOr(""))
      else SILENCE
    case Stop(reason) => SILENCE.(reason := Some(reason))
    case Done => SILENCE
  }

  lemma CombineTwice(a: Saying, b: Saying, c: Saying)
    ensures Combine(Combine(a, b), c) == Combine(a, Combine(b, c))
  {
    Associative(a.text, b.text, c.text);
    Associative(a.reasoning, b.reasoning, c.reasoning);
    Associative(a.arguments, b.arguments, c.arguments);
    Associative(a.name, b.name, c.name);
  }

  lemma CombineSilence(a: Saying)
    ensures Combine(a, SILENCE) == a && Combine(SILENCE, a) == a
  {
    EmptyEnds(a.text);
    EmptyEnds(a.reasoning);
    EmptyEnds(a.arguments);
    EmptyEnds(a.name);
    EmptyStarts(a.text);
    EmptyStarts(a.reasoning);
    EmptyStarts(a.arguments);
    EmptyStarts(a.name);
  }

  lemma EmptyStarts(s: string)
    ensures "" + s == s
  {
  }

  lemma FirstSays(events: seq<StreamEvent>, k: nat)
    requires events != []
    ensures SaidBy(events, k) == Combine(SaidByOne(events[0], k), SaidBy(events[1..], k))
  {
  }

  lemma OneSays(e: StreamEvent, k: nat)
    ensures SaidBy([e], k) == SaidByOne(e, k)
  {
    FirstSays([e], k);
    assert [e][1..] == [];
    CombineSilence(SaidByOne(e, k));
  }

  lemma {:induction false} BothSay(x: seq<StreamEvent>, y: seq<StreamEvent>, k: nat)
    ensures SaidBy(x + y, k) == Combine(SaidBy(x, k), SaidBy(y, k))
  {
    if x == [] {
      assert x + y == y;
      CombineSilence(SaidBy(y, k));
    } else {
      assert (x + y)[0] == x[0] && (x + y)[1..] == x[1..] + y;
      BothSay(x[1..], y, k);
      FirstSays(x, k);
      FirstSays(x + y, k);
      CombineTwice(SaidByOne(x[0], k), SaidBy(x[1..], k), SaidBy(y, k));
    }
  }

  // One event.

  /** What an accepted event sets, field by field, and that a refused one sets nothing. */
  ghost predicate SetsFields(s: Emitter, e: StreamEvent, accepted: bool, next: Emitter) {
    && next.text == s.text + (if accepted && e.Text? then e.text else "")
    && next.reasoning == s.reasoning + (if accepted && e.Reasoning? then e.text else "")
    && next.responseId == (if accepted && e.Start? && s.responseId.None? then Some(e.id) else s.responseId)
    && next.finishReason == (if accepted && e.Stop? then Some(e.reason) else s.finishReason)
    && next.usage == (if accepted && e.Usage? then Some(TokenUsage(e.input, e.output, CappedSum(e.input, e.output)))
                      else s.usage)
    && next.fallbackId == s.fallbackId && next.reasoningId == s.reasoningId && next.messageId == s.messageId
  }

  /** The sum of two token counts, at most the largest 64-bit number. */
  function CappedSum(a: nat, b: nat): nat {
    if a + b < 0x1_0000_0000_0000_0000 then a + b else 0xFFFF_FFFF_FFFF_FFFF
  }

  lemma EmptyEnds(s: string)
    ensures s + "" == s
  {
  }

  lemma TextSetsFields(s: Emitter, text: string)
    ensures SetsFields(s, Text(text), Apply(s, Text(text)).error.None?, Apply(s, Text(text)).state)
  {
    EmptyEnds(s.text);
    EmptyEnds(s.reasoning);
  }

  lemma ReasoningSetsFields(s: Emitter, text: string)
    ensures SetsFields(s, Reasoning(text), Apply(s, Reasoning(text)).error.None?, Apply(s, Reasoning(text)).state)
  {
    EmptyEnds(s.text);
    EmptyEnds(s.reasoning);
  }

  lemma ClosingSetsNothing(s: Emitter)
    requires s.finishReason.Some?
    ensures var t := Finalize(s);
            && t.text == s.text && t.reasoning == s.reasoning && t.responseId == s.responseId
            && t.finishReason == s.finishReason && t.usage == s.usage && t.fallbackId == s.fallbackId
            && t.reasoningId == s.reasoningId && t.messageId == s.messageId
  {
    hide ResponseOutput, StatusOf;
  }

  lemma StepSetsFields(s: Emitter, e: StreamEvent)
    ensures SetsFields(s, e, Apply(s, e).error.None?, Apply(s, e).state)
  {
    EmptyEnds(s.text);
    EmptyEnds(s.reasoning);
    hide Finalize, CallClosings, ReasoningClosings, MessageClosings, ToolEvents, Put, Get, Merged, UsageLength;
    if e.Text? {
      TextSetsFields(s, e.text);
      hide ApplyText, ApplyReasoning;
    } else if e.Reasoning? {
      ReasoningSetsFields(s, e.text);
      hide ApplyText, ApplyReasoning;
    } else if e.Done? && s.finishReason.Some? {
      ClosingSetsNothing(s);
    }
  }

  /** Over any run, every field is what the accepted events say. */
  ghost predicate Says(s: Emitter, a: seq<StreamEvent>, t: Emitter) {
    && t.text == s.text + TextsIn(a)
    && t.reasoning == s.reasoning + ReasoningIn(a)
    && t.responseId == (if s.responseId.Some? then s.responseId else FirstStart(a))
    && t.finishReason == (if s.finishReason.Some? then s.finishReason else FirstStop(a))
    && t.usage == (match LastUsage(a)
                   case Some(u) => Some(TokenUsage(u.0, u.1, CappedSum(u.0, u.1)))
                   case None => s.usage)
    && t.fallbackId == s.fallbackId && t.reasoningId == s.reasoningId && t.messageId == s.messageId
  }

  lemma SaysStep(s: Emitter, e: StreamEvent, accepted: bool, next: Emitter, rest: seq<StreamEvent>, t: Emitter)
    requires SetsFields(s, e, accepted, next) && Says(next, rest, t)
    requires accepted && e.Stop? ==> s.finishReason.None?
    ensures Says(s, (if accepted then [e] else []) + rest, t)
  {
    var a := (if accepted then [e] else []) + rest;
    if accepted {
      assert a[0] == e && a[1..] == rest;
      Associative(s.text, if e.Text? then e.text else "", TextsIn(rest));
      Associative(s.reasoning, if e.Reasoning? then e.text else "", ReasoningIn(rest));
    } else {
      assert a == rest;
      EmptyEnds(s.text);
      EmptyEnds(s.reasoning);
    }
  }

  lemma {:induction false} RunSays(s: Emitter, events: seq<StreamEvent>)
    ensures Says(s, AcceptedOf(s, events), Run(s, events))
    decreases |events|
  {
    if events == [] {
      EmptyEnds(s.text);
      EmptyEnds(s.reasoning);
    } else {
      var e, applied := events[0], Apply(s, events[0]);
      StepSetsFields(s, e);
      StopSetsReason(s, e);
      hide Apply, Says, SetsFields;
      RunSays(applied.state, events[1..]);
      SaysStep(s, e, applied.error.None?, applied.state, AcceptedOf(applied.state, events[1..]), Run(s, events));
    }
  }

  lemma StepArguments(s: Emitter, e: StreamEvent, k: nat)
    ensures ArgumentsAt(Apply(s, e).state, k)
         == ArgumentsAt(s, k) + if Apply(s, e).error.None? && e.Tool? && e.index == k then e.arguments.GetOr("") else ""
  {
    EmptyEnds(ArgumentsAt(s, k));
    if e.Tool? && Apply(s, e).error.None? {
      AcceptedTool(s, e.index, e.callId, e.name, e.arguments);
      var call := Merged(Get(s.tools, e.index).GetOr(NO_CALL), e.callId, e.name, e.arguments);
      GetPut(s.tools, e.index, Announced(call), k);
    }
    hide ApplyTool, ToolEvents, CallClosings, ReasoningClosings, MessageClosings, ResponseOutput, UsageLength, Put, Get;
  }

  /** A tool's arguments are the accepted parts for it, joined. */
  lemma {:induction false} RunSaysArguments(s: Emitter, events: seq<StreamEvent>, k: nat)
    ensures ArgumentsAt(Run(s, events), k) == ArgumentsAt(s, k) + ArgumentsIn(AcceptedOf(s, events), k)
    decreases |events|
  {
    EmptyEnds(ArgumentsAt(s, k));
    if events != [] {
      var e, applied := events[0], Apply(s, events[0]);
      StepArguments(s, e, k);
      hide Apply, ArgumentsAt;
      RunSaysArguments(applied.state, events[1..], k);
      var rest := AcceptedOf(applied.state, events[1..]);
      var part := if applied.error.None? && e.Tool? && e.index == k then e.arguments.GetOr("") else "";
      Associative(ArgumentsAt(s, k), part, ArgumentsIn(rest, k));
      if applied.error.None? {
        assert ([e] + rest)[0] == e && ([e] + rest)[1..] == rest;
      } else {
        assert [] + rest == rest;
      }
    }
  }

  /** A tool's id is the last one accepted, and its name the accepted parts, joined. */
  lemma {:induction false} NamingSays(s: Emitter, events: seq<StreamEvent>, k: nat, n: Naming)
    ensures var a := AcceptedOf(s, events);
            NamingAfter(s, events, k, n) == Naming(LastCallId(a, k).GetOr(n.id), n.name + NamesIn(a, k))
    decreases |events|
  {
    EmptyEnds(n.name);
    if events != [] {
      hide Apply;
      var e, applied := events[0], Apply(s, events[0]);
      var mine := e.Tool? && e.index == k && applied.error.None?;
      var part := if mine then e.name.GetOr("") else "";
      var rest := AcceptedOf(applied.state, events[1..]);
      NamingSays(applied.state, events[1..], k, if mine then Naming(e.callId.GetOr(n.id), n.name + part) else n);
      Associative(n.name, part, NamesIn(rest, k));
      if applied.error.None? {
        assert ([e] + rest)[0] == e && ([e] + rest)[1..] == rest;
      } else {
        assert [] + rest == rest;
      }
    }
  }

  // The terminal event.

  lemma TerminalIsReport(s: Emitter)
    requires Lawful(s) && s.terminal
    ensures s.log != []
    ensures s.log[|s.log| - 1] == Terminal(StatusOf(s.finishReason.value), s.responseId.GetOr(s.fallbackId),
                                           ResponseOutput(s), s.usage.GetOr(TokenUsage(0, 0, 0)))
    ensures s.completed == (StatusOf(s.finishReason.value) == Completed) && s.finishReason.Some?
  {
    hide ResponseOutput, TextOf, ReasoningOf, ToolBytes, StatusOf;
  }

  lemma FinishSays(s: Emitter)
    ensures var t := Finish(s);
            && t.text == s.text && t.reasoning == s.reasoning && t.responseId == s.responseId
            && t.finishReason == s.finishReason && t.usage == s.usage && t.fallbackId == s.fallbackId
            && (s.finishReason.Some? ==> t.terminal)
  {
    if s.finishReason.Some? {
      ClosingSetsNothing(s);
    }
    hide ResponseOutput, StatusOf;
  }

  /**
   Main law, over every run: a closed stream is terminal exactly when a stop reason was accepted. The
   client has then been sent exactly the accepted text and reasoning, and last a terminal event:
   completed for the reasons "stop" and "tool_calls", incomplete for "length", failed for any other; under
   the first accepted id, or the fallback; with the last accepted usage, or none. The session is told of a
   completed response in the first case only.
   */
  lemma {:induction false} TerminalEventSaysWhatWasAccepted(limit: nat, names: map<string, ToolIdentity>, seed: string,
      fallbackId: string, events: seq<StreamEvent>)
    ensures var start := NewEmitter(limit, names, seed, fallbackId);
            var a := AcceptedOf(start, events); var s := Finish(Run(start, events));
            && (s.terminal <==> FirstStop(a).Some?)
            && TextOf(s.log) == TextsIn(a) && ReasoningOf(s.log) == ReasoningIn(a)
            && OutcomeOf(s).terminal == s.terminal && OutcomeOf(s).completed == s.completed
            && (s.completed <==> FirstStop(a) in {Some("stop"), Some("tool_calls")})
            && (s.terminal ==>
                  && s.log != [] && s.log[|s.log| - 1].Terminal?
                  && var last := s.log[|s.log| - 1]; var reason := FirstStop(a).value;
                     && (last.status == Completed <==> reason in {"stop", "tool_calls"})
                     && (last.status == Incomplete <==> reason == "length")
                     && (last.status == Failed <==> reason !in {"stop", "tool_calls", "length"})
                     && last.responseId == FirstStart(a).GetOr(fallbackId)
                     && last.usage == match LastUsage(a)
                                      case Some(u) => TokenUsage(u.0, u.1, CappedSum(u.0, u.1))
                                      case None => TokenUsage(0, 0, 0))
  {
    hide Run, AcceptedOf, Lawful, Finish;
    var start := NewEmitter(limit, names, seed, fallbackId);
    var ran := Run(start, events);
    var s := Finish(ran);
    RunSays(start, events);
    FinishSays(ran);
    EveryRunIsLawful(limit, names, seed, fallbackId, events);
    LawfulLog(s);
    assert "" + TextsIn(AcceptedOf(start, events)) == TextsIn(AcceptedOf(start, events));
    assert "" + ReasoningIn(AcceptedOf(start, events)) == ReasoningIn(AcceptedOf(start, events));
    if s.terminal {
      TerminalIsReport(s);
    }
  }

  lemma LawfulLog(s: Emitter)
    requires Lawful(s)
    ensures TextOf(s.log) == s.text && ReasoningOf(s.log) == s.reasoning
    ensures s.terminal ==> s.finishReason.Some?
    ensures !s.terminal ==> !s.completed
  {
    hide TextOf, ReasoningOf, ToolBytes, ResponseOutput, StatusOf;
  }

  /** What the session is handed: text unless there are only calls, reasoning if any, and each call as it is. */
  lemma OutcomeIsExact(s: Emitter, i: nat)
    ensures var o := OutcomeOf(s);
            && o.terminal == s.terminal && o.completed == s.completed
            && o.message.content == (if s.text == "" && |s.tools| > 0 then None else Some(s.text))
            && o.message.reasoning == (if s.reasoning == "" then None else Some(s.reasoning))
            && |o.message.toolCalls| == |s.tools|
            && (i < |s.tools| ==>
                  o.message.toolCalls[i]
                  == CallRecord(s.tools[i].value.id, s.tools[i].value.name, s.tools[i].value.arguments))
  {
    if i < |s.tools| {
      CallItemAt(s.names, s.tools, i);
    } else if s.tools != [] {
      CallItemAt(s.names, s.tools, 0);
    }
    hide CallRecords;
  }

  /** Each call of the output array: its id, the declared identity of its name or the name itself, its arguments. */
  lemma CallItemsAreLiteral(s: Emitter, i: nat)
    requires i < |s.tools|
    ensures var call := s.tools[i].value;
            && |ResponseOutput(s)| == s.ToolBase() + |s.tools|
            && ResponseOutput(s)[s.ToolBase() + i]
               == FunctionCallItem(call.id,
                                   if call.name in s.names then s.names[call.name] else ToolIdentity(call.name, None),
                                   call.arguments, true)
  {
    CallsAreReported(s, i);
    hide ResponseOutput;
  }

  /** The output array, item by item: the reasoning, the message, and then the calls, under their ids. */
  lemma OutputIsLiteral(limit: nat, names: map<string, ToolIdentity>, seed: string, fallbackId: string,
                        events: seq<StreamEvent>)
    ensures var s := Run(NewEmitter(limit, names, seed, fallbackId), events); var output := ResponseOutput(s);
            var r := if s.reasoningStarted then 1 else 0; var m := if s.textStarted then 1 else 0;
            && |output| == r + m + |s.tools|
            && (s.reasoningStarted ==> output[0] == ReasoningItem("rs_" + seed, Some(s.reasoning)))
            && (s.textStarted ==> output[r] == MessageItem("msg_" + seed, Some(s.text)))
  {
    var s := Run(NewEmitter(limit, names, seed, fallbackId), events);
    RunSays(NewEmitter(limit, names, seed, fallbackId), events);
    hide Run, AcceptedOf;
    if s.tools != [] {
      CallItemAt(s.names, s.tools, 0);
    }
  }

  // When an event is refused.

  function Decimal(n: nat): string { (if n < 10 then "" else Decimal(n / 10)) + ["0123456789"[n % 10]] }

  /** The usage as it is written into the terminal event. */
  function Printed(u: TokenUsage): string {
    "{\"input_tokens\":" + Decimal(u.input) + ",\"output_tokens\":" + Decimal(u.output)
    + ",\"total_tokens\":" + Decimal(u.total) + "}"
  }

  lemma {:induction false} DecimalIsCounted(n: nat)
    ensures |Decimal(n)| == Digits(n)
  {
    if n >= 10 {
      DecimalIsCounted(n / 10);
    }
  }

  /** What is counted for a usage is the length of its text. */
  lemma PrintedIsCounted(u: TokenUsage)
    ensures |Printed(u)| == UsageLength(u)
  {
    DecimalIsCounted(u.input);
    DecimalIsCounted(u.output);
    DecimalIsCounted(u.total);
    hide Decimal, Digits;
  }

  lemma UsageIsRefusedIff(s: Emitter, input: nat, output: nat)
    requires Lawful(s) && !s.terminal
    ensures var had := if s.usage.Some? then |Printed(s.usage.value)| else 0;
            var more := |Printed(TokenUsage(input, output, CappedSum(input, output)))|;
            Apply(s, OutputModel.Usage(input, output)).error
            == if s.aggregate - had + more > s.limit then Some(StreamStateLimit) else None
  {
    hide Printed, UsageLength, Lawful, Apply;
    PrintedIsCounted(TokenUsage(input, output, CappedSum(input, output)));
    if s.usage.Some? {
      PrintedIsCounted(s.usage.value);
    }
    UsageIsCounted(s);
    UsageIsResized(s, input, output);
  }

  lemma UsageIsResized(s: Emitter, input: nat, output: nat)
    requires !s.terminal
    ensures var more := UsageLength(TokenUsage(input, output, CappedSum(input, output)));
            Apply(s, OutputModel.Usage(input, output)).error
            == if SaturatingSub(s.aggregate, s.usageBytes) + more > s.limit then Some(StreamStateLimit) else None
  {
    hide UsageLength, ApplyText, ApplyReasoning, ApplyTool, FinishItems, Finalize;
  }

  lemma UsageIsCounted(s: Emitter)
    requires Lawful(s)
    ensures s.usageBytes == (if s.usage.Some? then UsageLength(s.usage.value) else 0) <= s.aggregate
  {
    hide UsageLength, ToolBytes, TextOf, ReasoningOf, ResponseOutput, StatusOf;
  }

  /** Every refusal: a closed or unfinished stream, a second reason, the 257th tool, or the byte limit. */
  lemma RefusalsAreExact(s: Emitter, e: StreamEvent)
    requires Lawful(s)
    ensures var error := Apply(s, e).error;
            if s.terminal then error == Some(InvalidStream)
            else match e
              case Start(id) =>
                error == if s.responseId.None? && s.aggregate + |id| > s.limit then Some(StreamStateLimit) else None
              case Usage(input, output) =>
                var had := if s.usage.Some? then |Printed(s.usage.value)| else 0;
                var more := |Printed(TokenUsage(input, output, CappedSum(input, output)))|;
                error == if s.aggregate - had + more > s.limit then Some(StreamStateLimit) else None
              case Text(text) =>
                error == if s.aggregate + |text| > s.limit && text != "" then Some(StreamStateLimit) else None
              case Reasoning(text) =>
                error == if s.aggregate + |text| > s.limit && text != "" then Some(StreamStateLimit) else None
              case Stop(reason) =>
                error == if s.finishReason.Some? then Some(InvalidStream)
                         else if s.aggregate + |reason| > s.limit then Some(StreamStateLimit) else None
              case Done => error == if s.finishReason.None? then Some(InvalidStream) else None
              case Tool(k, callId, name, arguments) =>
                var had := Get(s.tools, k).GetOr(NO_CALL).id;
                error == if (Get(s.tools, k).None? && |s.tools| >= 256)
                            || s.aggregate - |had| + |callId.GetOr(had)| + |name.GetOr("")|
                               + |arguments.GetOr("")| > s.limit
                         then Some(StreamStateLimit) else None
  {
    if e.Tool? {
      NothingSaturates(s, e.index);
    } else if e.Usage? && !s.terminal {
      UsageIsRefusedIff(s, e.input, e.output);
      hide Apply;
    }
    hide Printed;
    hide ToolEvents, CallClosings, ReasoningClosings, MessageClosings, ResponseOutput, UsageLength, StatusOf;
    hide ToolBytes, TextOf, ReasoningOf, Put, Get;
  }
}
