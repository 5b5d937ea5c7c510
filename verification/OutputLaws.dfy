/**
 What every run of the emitter keeps, whatever events it is offered and whether or not it accepts
 them: exact byte accounting, delta conservation, and a single terminal event in last place.
 */
module OutputLaws {
  import opened Wrappers
  import opened OrderedTable
  import opened OutputModel

  function CallBytes(call: ToolCall): nat { |call.id| + |call.name| + |call.arguments| }

  function ToolBytes(tools: Table<ToolCall>): nat {
    if tools == [] then 0 else CallBytes(tools[0].value) + ToolBytes(tools[1..])
  }

  /** The byte counter is exactly the bytes retained, and is within the limit. */
  ghost predicate Accounted(s: Emitter) {
    && s.aggregate
         == Len(s.responseId) + |s.text| + |s.reasoning| + Len(s.finishReason) + s.usageBytes + ToolBytes(s.tools)
    && s.aggregate <= s.limit
    && s.usageBytes == (if s.usage.Some? then UsageLength(s.usage.value) else 0)
    && |s.tools| <= MAX_STREAM_TOOL_CALLS
    && Sorted(s.tools)
  }

  /** The text deltas of a log, joined. */
  function TextOf(log: seq<OutEvent>): string {
    if log == [] then "" else (if log[0].TextDelta? then log[0].delta else "") + TextOf(log[1..])
  }

  /** The reasoning deltas of a log, joined. */
  function ReasoningOf(log: seq<OutEvent>): string {
    if log == [] then "" else (if log[0].SummaryDelta? then log[0].delta else "") + ReasoningOf(log[1..])
  }

  ghost predicate NoTerminal(log: seq<OutEvent>) {
    forall e :: e in log ==> !e.Terminal?
  }

  /** Text and reasoning are their emitted deltas joined, and both items exist once they have content. */
  ghost predicate Conserved(s: Emitter) {
    && TextOf(s.log) == s.text
    && ReasoningOf(s.log) == s.reasoning
    && (s.text != "" ==> s.textStarted)
    && (s.reasoning != "" ==> s.reasoningStarted)
  }

  /** A terminal event is emitted once, last, and reports the accumulated state. */
  ghost predicate SingleTerminal(s: Emitter) {
    if s.terminal then
      && s.finishReason.Some?
      && s.log != []
      && NoTerminal(s.log[..|s.log| - 1])
      && s.log[|s.log| - 1] == Terminal(StatusOf(s.finishReason.value), s.responseId.GetOr(s.fallbackId),
                                        ResponseOutput(s), s.usage.GetOr(TokenUsage(0, 0, 0)))
      && s.completed == (StatusOf(s.finishReason.value) == Completed)
    else
      NoTerminal(s.log) && !s.completed
  }

  ghost predicate Lawful(s: Emitter) { Accounted(s) && Conserved(s) && SingleTerminal(s) }

  /** Neither a delta nor the terminal event. */
  predicate Quiet(e: OutEvent) { !e.TextDelta? && !e.SummaryDelta? && !e.Terminal? }

  lemma AppendOne(log: seq<OutEvent>, e: OutEvent)
    ensures TextOf(log + [e]) == TextOf(log) + if e.TextDelta? then e.delta else ""
    ensures ReasoningOf(log + [e]) == ReasoningOf(log) + if e.SummaryDelta? then e.delta else ""
  {
    AppendOneText(log, e);
    AppendOneReasoning(log, e);
  }

  lemma Associative(a: string, b: string, c: string)
    ensures a + b + c == a + (b + c)
  {
  }

  lemma {:induction false} AppendOneText(log: seq<OutEvent>, e: OutEvent)
    ensures TextOf(log + [e]) == TextOf(log) + if e.TextDelta? then e.delta else ""
  {
    if log == [] {
      assert log + [e] == [e];
    } else {
      AppendOneText(log[1..], e);
      assert (log + [e])[0] == log[0] && (log + [e])[1..] == log[1..] + [e];
      Associative(if log[0].TextDelta? then log[0].delta else "", TextOf(log[1..]),
                  if e.TextDelta? then e.delta else "");
    }
  }

  lemma {:induction false} AppendOneReasoning(log: seq<OutEvent>, e: OutEvent)
    ensures ReasoningOf(log + [e]) == ReasoningOf(log) + if e.SummaryDelta? then e.delta else ""
  {
    if log == [] {
      assert log + [e] == [e];
    } else {
      AppendOneReasoning(log[1..], e);
      assert (log + [e])[0] == log[0] && (log + [e])[1..] == log[1..] + [e];
      Associative(if log[0].SummaryDelta? then log[0].delta else "", ReasoningOf(log[1..]),
                  if e.SummaryDelta? then e.delta else "");
    }
  }

  lemma {:induction false} AppendQuiet(log: seq<OutEvent>, events: seq<OutEvent>)
    requires forall e :: e in events ==> Quiet(e)
    ensures TextOf(log + events) == TextOf(log) && ReasoningOf(log + events) == ReasoningOf(log)
    ensures NoTerminal(log) ==> NoTerminal(log + events)
    decreases |events|
  {
    if events == [] {
      assert log + events == log;
    } else {
      assert log + events == log + [events[0]] + events[1..];
      AppendOne(log, events[0]);
      assert events[0] in events;
      AppendQuiet(log + [events[0]], events[1..]);
    }
  }

  lemma {:induction false} ToolBytesPut(tools: Table<ToolCall>, index: nat, call: ToolCall)
    ensures ToolBytes(Put(tools, index, call)) + CallBytes(Get(tools, index).GetOr(NO_CALL))
         == ToolBytes(tools) + CallBytes(call)
  {
    if tools != [] && tools[0].key < index {
      ToolBytesPut(tools[1..], index, call);
    }
  }

  lemma {:induction false} ToolBytesGet(tools: Table<ToolCall>, index: nat)
    ensures CallBytes(Get(tools, index).GetOr(NO_CALL)) <= ToolBytes(tools)
  {
    if tools != [] && tools[0].key < index {
      ToolBytesGet(tools[1..], index);
    }
  }

  lemma {:induction false} CallClosingsAreQuiet(names: map<string, ToolIdentity>, base: nat, tools: Table<ToolCall>)
    ensures forall e :: e in CallClosings(names, base, tools) ==> Quiet(e)
  {
    if tools != [] {
      CallClosingsAreQuiet(names, base, tools[1..]);
    }
  }

  lemma FinishItemsIsQuiet(s: Emitter)
    ensures var log := FinishItems(s).log;
            && TextOf(log) == TextOf(s.log) && ReasoningOf(log) == ReasoningOf(s.log)
            && (NoTerminal(s.log) ==> NoTerminal(log))
  {
    AppendQuiet(s.log, ReasoningClosings(s));
    AppendQuiet(s.log + ReasoningClosings(s), MessageClosings(s));
    CallClosingsAreQuiet(s.names, s.ToolBase(), s.tools);
    AppendQuiet(s.log + ReasoningClosings(s) + MessageClosings(s), CallClosings(s.names, s.ToolBase(), s.tools));
  }

  /** The byte counter never underflows: a call's bytes are part of the counter it is resized in. */
  lemma NothingSaturates(s: Emitter, index: nat)
    requires Accounted(s)
    ensures s.usageBytes <= s.aggregate
    ensures |Get(s.tools, index).GetOr(NO_CALL).id| <= s.aggregate
  {
    ToolBytesGet(s.tools, index);
  }

  /** Replacing one call, with the counter resized by the difference, keeps the books. */
  lemma PutAccounted(s: Emitter, index: nat, call: ToolCall, r: Emitter)
    requires Accounted(s) && (Get(s.tools, index).Some? || |s.tools| < MAX_STREAM_TOOL_CALLS)
    requires r == s.(aggregate := r.aggregate) && r.aggregate <= r.limit
    requires r.aggregate + CallBytes(Get(s.tools, index).GetOr(NO_CALL)) == s.aggregate + CallBytes(call)
    ensures Accounted(r.(tools := Put(s.tools, index, call)))
  {
    GetPut(s.tools, index, call, index);
    PutSorted(s.tools, index, call);
    ToolBytesPut(s.tools, index, call);
  }

  lemma MergedBytes(before: ToolCall, callId: Option<string>, name: Option<string>, arguments: Option<string>)
    ensures CallBytes(Announced(Merged(before, callId, name, arguments))) + |before.id|
         == CallBytes(before) + |callId.GetOr(before.id)| + Len(name) + Len(arguments)
  {
  }

  lemma ApplyToolAccounted(s: Emitter, index: nat, callId: Option<string>, name: Option<string>,
      arguments: Option<string>)
    requires Accounted(s)
    ensures Accounted(ApplyTool(s, index, callId, name, arguments).state)
  {
    hide ToolEvents;
    var before := Get(s.tools, index).GetOr(NO_CALL);
    var result := ApplyTool(s, index, callId, name, arguments);
    if result.error.None? {
      var r := s.(aggregate := result.state.aggregate);
      NothingSaturates(s, index);
      MergedBytes(before, callId, name, arguments);
      PutAccounted(s, index, Announced(Merged(before, callId, name, arguments)), r);
    }
  }

  /** Storing a call emits nothing but its own opening and arguments. */
  lemma StoreCallIsQuiet(s: Emitter, index: nat, call: ToolCall, arguments: Option<string>)
    requires Conserved(s) && SingleTerminal(s) && !s.terminal
    ensures Conserved(StoreCall(s, index, call, arguments)) && SingleTerminal(StoreCall(s, index, call, arguments))
  {
    hide TextOf, ReasoningOf;
    AppendQuiet(s.log, ToolEvents(s, index, call, arguments));
  }

  lemma ApplyToolLawful(s: Emitter, index: nat, callId: Option<string>, name: Option<string>, arguments: Option<string>)
    requires Lawful(s) && !s.terminal
    ensures Lawful(ApplyTool(s, index, callId, name, arguments).state)
  {
    ApplyToolAccounted(s, index, callId, name, arguments);
    var merged := Merged(Get(s.tools, index).GetOr(NO_CALL), callId, name, arguments);
    var result := ApplyTool(s, index, callId, name, arguments);
    if result.error.None? {
      StoreCallIsQuiet(s.(aggregate := result.state.aggregate), index, merged, arguments);
      hide Accounted, StoreCall, Merged;
    }
  }

  lemma StartTextLawful(s: Emitter)
    requires Lawful(s) && !s.terminal
    ensures Lawful(StartText(s)) && StartText(s).textStarted
  {
    AppendQuiet(s.log, [ItemAdded(s.MessageIndex(), MessageItem(s.messageId, None)),
                        ContentPartAdded(s.messageId, s.MessageIndex())]);
  }

  lemma ApplyTextLawful(s: Emitter, text: string)
    requires Lawful(s) && !s.terminal
    ensures Lawful(ApplyText(s, text).state)
  {
    hide TextOf, ReasoningOf;
    StartTextLawful(s);
    var started := StartText(s);
    AppendOne(started.log, TextDelta(started.messageId, started.MessageIndex(), text));
  }

  lemma StartReasoningLawful(s: Emitter)
    requires Lawful(s) && !s.terminal
    ensures Lawful(StartReasoning(s)) && StartReasoning(s).reasoningStarted
  {
    AppendQuiet(s.log, [ItemAdded(0, ReasoningItem(s.reasoningId, None)), SummaryPartAdded(s.reasoningId, 0)]);
  }

  lemma ApplyReasoningLawful(s: Emitter, text: string)
    requires Lawful(s) && !s.terminal
    ensures Lawful(ApplyReasoning(s, text).state)
  {
    hide TextOf, ReasoningOf;
    StartReasoningLawful(s);
    var started := StartReasoning(s);
    AppendOne(started.log, SummaryDelta(started.reasoningId, 0, text));
  }

  lemma ApplyStopLawful(s: Emitter, reason: string)
    requires Lawful(s) && !s.terminal
    ensures Lawful(Apply(s, Stop(reason)).state)
  {
    if s.finishReason.None? && Reserve(s, |reason|).Some? {
      FinishItemsIsQuiet(Reserve(s, |reason|).value.(finishReason := Some(reason)));
    }
  }

  lemma FinalizeLawful(s: Emitter)
    requires Lawful(s) && s.finishReason.Some?
    ensures Lawful(Finalize(s)) && Finalize(s).terminal
  {
    if !s.terminal {
      AppendOne(s.log, Finalize(s).log[|s.log|]);
      assert Finalize(s).log[..|s.log|] == s.log;
    }
  }

  lemma ApplyStartLawful(s: Emitter, id: string)
    requires Lawful(s) && !s.terminal
    ensures Lawful(Apply(s, Start(id)).state)
  {
    AppendQuiet(s.log, [Created(id)]);
  }

  lemma ApplyUsageLawful(s: Emitter, input: nat, output: nat)
    requires Lawful(s) && !s.terminal
    ensures Lawful(Apply(s, Usage(input, output)).state)
  {
  }

  /** Every event, refused or not, keeps all three laws. */
  lemma ApplyLawful(s: Emitter, event: StreamEvent)
    requires Lawful(s)
    ensures Lawful(Apply(s, event).state)
  {
    hide Lawful, ApplyText, ApplyReasoning, ApplyTool, FinishItems, Finalize, UsageLength;
    if !s.terminal {
      match event
      case Start(id) => ApplyStartLawful(s, id);
      case Usage(input, output) => ApplyUsageLawful(s, input, output);
      case Text(text) => if text != "" { ApplyTextLawful(s, text); }
      case Reasoning(text) => if text != "" { ApplyReasoningLawful(s, text); }
      case Tool(index, callId, name, arguments) => ApplyToolLawful(s, index, callId, name, arguments);
      case Stop(reason) => ApplyStopLawful(s, reason);
      case Done => if s.finishReason.Some? { FinalizeLawful(s); }
    }
  }

  lemma {:induction false} RunLawful(s: Emitter, events: seq<StreamEvent>)
    requires Lawful(s)
    ensures Lawful(Run(s, events))
    decreases |events|
  {
    if events != [] {
      ApplyLawful(s, events[0]);
      RunLawful(Apply(s, events[0]).state, events[1..]);
    }
  }

  /** Main law: a fresh emitter is lawful after any events whatever, and after closing the stream. */
  lemma {:induction false} EveryRunIsLawful(limit: nat, names: map<string, ToolIdentity>, seed: string,
      fallbackId: string, events: seq<StreamEvent>)
    ensures var s := Run(NewEmitter(limit, names, seed, fallbackId), events);
            Lawful(s) && Lawful(Finish(s))
  {
    RunLawful(NewEmitter(limit, names, seed, fallbackId), events);
    var s := Run(NewEmitter(limit, names, seed, fallbackId), events);
    if s.finishReason.Some? {
      FinalizeLawful(s);
    }
  }

  // Where the accumulated values end up.

  lemma {:induction false} CallItemAt(names: map<string, ToolIdentity>, tools: Table<ToolCall>, i: nat)
    requires i < |tools|
    ensures |CallItems(names, tools)| == |CallRecords(tools)| == |tools|
    ensures CallItems(names, tools)[i] == CallItem(names, tools[i].value)
    ensures CallRecords(tools)[i] == CallRecord(tools[i].value.id, tools[i].value.name, tools[i].value.arguments)
  {
    if |tools| > 1 {
      CallItemAt(names, tools[1..], if i == 0 then 0 else i - 1);
    }
  }

  /** Call number `i` closes the output array at its place after reasoning and message. */
  lemma CallsAreReported(s: Emitter, i: nat)
    requires i < |s.tools|
    ensures |ResponseOutput(s)| == s.ToolBase() + |s.tools|
    ensures ResponseOutput(s)[s.ToolBase() + i] == CallItem(s.names, s.tools[i].value)
    ensures |CallRecords(s.tools)| == |s.tools| && CallRecords(s.tools)[i].arguments == s.tools[i].value.arguments
  {
    CallItemAt(s.names, s.tools, i);
  }

  /** The joined deltas are what the terminal event reports and what the session is given. */
  lemma DeltasReachTheEnd(s: Emitter)
    requires Lawful(s) && s.terminal
    ensures var report := s.log[|s.log| - 1]; var message := OutcomeOf(s).message;
            && report.Terminal? && report.output == ResponseOutput(s)
            && (TextOf(s.log) != "" ==> MessageItem(s.messageId, Some(TextOf(s.log))) in report.output)
            && (ReasoningOf(s.log) != "" ==> ReasoningItem(s.reasoningId, Some(ReasoningOf(s.log))) in report.output)
            && message.content.GetOr("") == TextOf(s.log) && message.reasoning.GetOr("") == ReasoningOf(s.log)
  {
    assert s.textStarted ==> ResponseOutput(s)[s.MessageIndex()] == MessageItem(s.messageId, Some(s.text));
    assert s.reasoningStarted ==> ResponseOutput(s)[0] == ReasoningItem(s.reasoningId, Some(s.reasoning));
  }

  /** The argument deltas of a log, joined. */
  function ArgumentsOf(log: seq<OutEvent>): string {
    if log == [] then "" else (if log[0].ArgumentsDelta? then log[0].delta else "") + ArgumentsOf(log[1..])
  }

  lemma {:induction false} NoArguments(log: seq<OutEvent>)
    requires forall e :: e in log ==> !e.ArgumentsDelta?
    ensures ArgumentsOf(log) == ""
  {
    if log != [] {
      NoArguments(log[1..]);
    }
  }

  lemma {:induction false} CallClosingsHaveNoDeltas(names: map<string, ToolIdentity>, base: nat, tools: Table<ToolCall>)
    ensures forall e :: e in CallClosings(names, base, tools) ==> !e.ArgumentsDelta?
  {
    if tools != [] {
      CallClosingsHaveNoDeltas(names, base, tools[1..]);
    }
  }

  /** The events one step adds to the log. */
  function Emitted(s: Emitter, event: StreamEvent): seq<OutEvent> {
    var after := Apply(s, event).state.log;
    if |s.log| <= |after| then after[|s.log|..] else []
  }

  lemma ToolEventsCarryArguments(s: Emitter, index: nat, call: ToolCall, arguments: Option<string>)
    ensures ArgumentsOf(ToolEvents(s, index, call, arguments)) == arguments.GetOr("")
  {
    var events := ToolEvents(s, index, call, arguments);
    var tail := if Announces(call) then events[1..] else events;
    assert ArgumentsOf(events) == ArgumentsOf(tail);
    if arguments.Some? {
      assert tail[0].delta == arguments.value && tail[1..] == [];
    }
  }

  lemma FinishItemsEmits(s: Emitter)
    ensures var tail := ReasoningClosings(s) + MessageClosings(s) + CallClosings(s.names, s.ToolBase(), s.tools);
            FinishItems(s).log == s.log + tail && ArgumentsOf(tail) == ""
  {
    var tail := ReasoningClosings(s) + MessageClosings(s) + CallClosings(s.names, s.ToolBase(), s.tools);
    var calls := CallClosings(s.names, s.ToolBase(), s.tools);
    assert s.log + tail == s.log + ReasoningClosings(s) + MessageClosings(s) + calls;
    CallClosingsHaveNoDeltas(s.names, s.ToolBase(), s.tools);
    NoArguments(tail);
  }

  /** A tool event emits exactly its own arguments. */
  lemma ToolStepArguments(s: Emitter, event: StreamEvent)
    requires event.Tool?
    ensures Apply(s, event).state.log == s.log + Emitted(s, event)
    ensures ArgumentsOf(Emitted(s, event)) == if Apply(s, event).error.None? then event.arguments.GetOr("") else ""
  {
    if Apply(s, event).error.None? {
      var merged := Merged(Get(s.tools, event.index).GetOr(NO_CALL), event.callId, event.name, event.arguments);
      assert Emitted(s, event) == ToolEvents(s, event.index, merged, event.arguments);
      ToolEventsCarryArguments(s, event.index, merged, event.arguments);
    }
  }

  /** If a log grew by `tail` alone, `tail` is what was emitted. */
  lemma EmittedIs(s: Emitter, event: StreamEvent, tail: seq<OutEvent>)
    requires Apply(s, event).state.log == s.log + tail
    ensures Emitted(s, event) == tail
  {
  }

  /** Content only appends events, none of them an argument delta. */
  ghost predicate AppendsNoArguments(s: Emitter, after: Emitter) {
    exists tail :: after.log == s.log + tail && forall e :: e in tail ==> !e.ArgumentsDelta?
  }

  lemma ApplyTextAppends(s: Emitter, text: string)
    ensures AppendsNoArguments(s, ApplyText(s, text).state)
  {
    var opening := if s.textStarted then [] else
      [ItemAdded(s.MessageIndex(), MessageItem(s.messageId, None)), ContentPartAdded(s.messageId, s.MessageIndex())];
    var started := StartText(s);
    assert started.log == s.log + opening;
    var delta := TextDelta(s.messageId, s.MessageIndex(), text);
    assert started.log + [delta] == s.log + (opening + [delta]);
  }

  lemma ApplyReasoningAppends(s: Emitter, text: string)
    ensures AppendsNoArguments(s, ApplyReasoning(s, text).state)
  {
    var opening := if s.reasoningStarted then [] else
      [ItemAdded(0, ReasoningItem(s.reasoningId, None)), SummaryPartAdded(s.reasoningId, 0)];
    var started := StartReasoning(s);
    assert started.log == s.log + opening;
    var delta := SummaryDelta(s.reasoningId, 0, text);
    assert started.log + [delta] == s.log + (opening + [delta]);
  }

  lemma ContentStepArguments(s: Emitter, event: StreamEvent)
    requires AppendsNoArguments(s, Apply(s, event).state)
    ensures Apply(s, event).state.log == s.log + Emitted(s, event)
    ensures ArgumentsOf(Emitted(s, event)) == ""
  {
    var tail :| Apply(s, event).state.log == s.log + tail && forall e :: e in tail ==> !e.ArgumentsDelta?;
    EmittedIs(s, event, tail);
    NoArguments(tail);
  }

  lemma PlainStepArguments(s: Emitter, event: StreamEvent)
    requires event.Start? || event.Usage? || event.Done?
    ensures Apply(s, event).state.log == s.log + Emitted(s, event)
    ensures ArgumentsOf(Emitted(s, event)) == ""
  {
    assert s.log + [] == s.log;
    if Apply(s, event).error.None? && event.Done? && !s.terminal {
      assert Apply(s, event).state == Finalize(s);
    }
    NoArguments(Emitted(s, event));
  }

  /** No other event emits argument deltas, and every event only appends to the log. */
  lemma OtherStepArguments(s: Emitter, event: StreamEvent)
    requires !event.Tool?
    ensures Apply(s, event).state.log == s.log + Emitted(s, event)
    ensures ArgumentsOf(Emitted(s, event)) == ""
  {
    match event
    case Text(text) =>
      ApplyTextAppends(s, text);
      assert s.log == s.log + [];
      ContentStepArguments(s, event);
    case Reasoning(text) =>
      ApplyReasoningAppends(s, text);
      assert s.log == s.log + [];
      ContentStepArguments(s, event);
    case Stop(reason) =>
      if Apply(s, event).error.None? {
        FinishItemsEmits(Reserve(s, |reason|).value.(finishReason := Some(reason)));
      }
    case _ => PlainStepArguments(s, event);
  }

  /** The log only grows. */
  lemma {:induction false} LogGrows(s: Emitter, event: StreamEvent)
    ensures s.log <= Apply(s, event).state.log
  {
    hide Apply;
    if event.Tool? { ToolStepArguments(s, event); } else { OtherStepArguments(s, event); }
  }

  /** The argument deltas a run emits in answer to the events of tool `index`, joined. */
  function ToolDeltas(s: Emitter, events: seq<StreamEvent>, index: nat): string
    decreases |events|
  {
    if events == [] then ""
    else (if events[0].Tool? && events[0].index == index then ArgumentsOf(Emitted(s, events[0])) else "")
         + ToolDeltas(Apply(s, events[0]).state, events[1..], index)
  }

  function ArgumentsAt(s: Emitter, index: nat): string { Get(s.tools, index).GetOr(NO_CALL).arguments }

  lemma ToolDeltaIsConserved(s: Emitter, event: StreamEvent, index: nat)
    ensures ArgumentsAt(Apply(s, event).state, index) == ArgumentsAt(s, index)
         + if event.Tool? && event.index == index then ArgumentsOf(Emitted(s, event)) else ""
  {
    if event.Tool? { ToolStepArguments(s, event); }
    if event.Tool? && Apply(s, event).error.None? {
      var merged := Merged(Get(s.tools, event.index).GetOr(NO_CALL), event.callId, event.name, event.arguments);
      GetPut(s.tools, event.index, Announced(merged), index);
    }
  }

  /** Over any run, what a tool's arguments grow by is exactly what was emitted for that tool. */
  lemma {:induction false} ToolDeltasAreConserved(s: Emitter, events: seq<StreamEvent>, index: nat)
    ensures ArgumentsAt(Run(s, events), index) == ArgumentsAt(s, index) + ToolDeltas(s, events, index)
    decreases |events|
  {
    if events != [] {
      var next := Apply(s, events[0]).state;
      var delta := if events[0].Tool? && events[0].index == index then ArgumentsOf(Emitted(s, events[0])) else "";
      ToolDeltaIsConserved(s, events[0], index);
      hide Apply, Emitted, ArgumentsOf, ArgumentsAt;
      ToolDeltasAreConserved(next, events[1..], index);
      assert ToolDeltas(s, events, index) == delta + ToolDeltas(next, events[1..], index);
      Associative(ArgumentsAt(s, index), delta, ToolDeltas(next, events[1..], index));
    }
  }

  /** What was emitted for a tool is what the terminal event reports and what the session is given. */
  lemma ToolDeltasReachTheEnd(limit: nat, names: map<string, ToolIdentity>, seed: string, fallbackId: string,
                              events: seq<StreamEvent>, i: nat)
    ensures var start := NewEmitter(limit, names, seed, fallbackId); var s := Finish(Run(start, events));
            s.terminal && i < |s.tools| ==>
              && s.log != [] && s.log[|s.log| - 1].Terminal?
              && var output := s.log[|s.log| - 1].output; var call := s.tools[i];
                 && |output| == s.ToolBase() + |s.tools|
                 && output[s.ToolBase() + i] == CallItem(names, call.value)
                 && call.value.arguments == ToolDeltas(start, events, call.key)
                 && |OutcomeOf(s).message.toolCalls| == |s.tools|
                 && OutcomeOf(s).message.toolCalls[i].arguments == ToolDeltas(start, events, call.key)
  {
    var start := NewEmitter(limit, names, seed, fallbackId);
    var s := Finish(Run(start, events));
    EveryRunIsLawful(limit, names, seed, fallbackId, events);
    RunKeepsNames(start, events);
    FinishKeepsTools(Run(start, events));
    if s.terminal && i < |s.tools| {
      ToolDeltasAreConserved(start, events, s.tools[i].key);
      GetAt(s.tools, i);
      CallsAreReported(s, i);
    }
    hide Run, Finish, ToolDeltas, CallItem, TextOf, ReasoningOf;
  }

  lemma FinishKeepsTools(s: Emitter)
    ensures Finish(s).tools == s.tools && Finish(s).names == s.names
  {
    hide ReasoningClosings, MessageClosings, CallClosings, ResponseOutput;
  }

  lemma {:induction false} RunKeepsNames(s: Emitter, events: seq<StreamEvent>)
    ensures Run(s, events).names == s.names
    decreases |events|
  {
    if events != [] {
      ApplyKeepsNames(s, events[0]);
      hide Apply;
      RunKeepsNames(Apply(s, events[0]).state, events[1..]);
    }
  }

  lemma ApplyKeepsNames(s: Emitter, event: StreamEvent)
    ensures Apply(s, event).state.names == s.names
  {
    hide ReasoningClosings, MessageClosings, CallClosings, ResponseOutput, ToolEvents, UsageLength, Put, Merged;
  }

  /** The unaccounted default reason is never set: closing the stream leaves the reason it was given. */
  lemma DefaultReasonIsNeverUsed(s: Emitter, event: StreamEvent)
    requires !event.Stop?
    ensures Apply(s, event).state.finishReason == s.finishReason && Finish(s).finishReason == s.finishReason
  {
    hide ToolEvents, CallClosings, ReasoningClosings, MessageClosings, Merged, ResponseOutput, UsageLength, StatusOf;
    if event.Tool? {
      ToolKeepsReason(s, event);
    }
    hide ApplyTool;
  }

  lemma ToolKeepsReason(s: Emitter, event: StreamEvent)
    requires event.Tool?
    ensures ApplyTool(s, event.index, event.callId, event.name, event.arguments).state.finishReason == s.finishReason
  {
    hide ToolEvents, Merged;
  }

  /** After the terminal event nothing is accepted and nothing changes. */
  lemma {:induction false} TerminalIsFinal(s: Emitter, events: seq<StreamEvent>)
    requires s.terminal
    ensures Run(s, events) == s && Finish(s) == s && (events != [] ==> !Accepts(s, events))
    decreases |events|
  {
    if events != [] {
      TerminalIsFinal(s, events[1..]);
    }
  }
}
