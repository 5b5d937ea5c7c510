/** What content after the stop reason does to the items already reported done. */
module OutputStop {
  import opened Wrappers
  import opened OrderedTable
  import opened OutputModel
  import opened OutputLaws
  import opened OutputLifecycle

  /** The items a log reports done, in order. */
  function DoneItems(log: seq<OutEvent>): seq<Item> {
    if log == [] then [] else (if log[0].ItemDone? then [log[0].item] else []) + DoneItems(log[1..])
  }

  lemma {:induction false} DoneItemsAppend(a: seq<OutEvent>, b: seq<OutEvent>)
    ensures DoneItems(a + b) == DoneItems(a) + DoneItems(b)
  {
    if a == [] {
      assert a + b == b;
    } else {
      assert (a + b)[0] == a[0] && (a + b)[1..] == a[1..] + b;
      DoneItemsAppend(a[1..], b);
    }
  }

  lemma {:induction false} NoneDone(events: seq<OutEvent>)
    requires forall e :: e in events ==> !e.ItemDone?
    ensures DoneItems(events) == []
  {
    if events != [] {
      assert events[0] in events;
      NoneDone(events[1..]);
    }
  }

  lemma {:induction false} CallClosingsReportCalls(names: map<string, ToolIdentity>, base: nat, tools: Table<ToolCall>)
    ensures DoneItems(CallClosings(names, base, tools)) == CallItems(names, tools)
  {
    if tools != [] {
      CallClosingsReportCalls(names, base, tools[1..]);
      var closing := CallClosing(names, base + tools[0].key, tools[0].value);
      DoneItemsAppend(closing, CallClosings(names, base, tools[1..]));
      assert closing[1..][1..] == [];
      assert DoneItems(closing) == [CallItem(names, tools[0].value)];
    }
  }

  /** Closing the items reports exactly the output array as it stands. */
  lemma ClosingReportsOutput(s: Emitter)
    ensures DoneItems(FinishItems(s).log) == DoneItems(s.log) + ResponseOutput(s)
  {
    var reasoning, message := ReasoningClosings(s), MessageClosings(s);
    var calls := CallClosings(s.names, s.ToolBase(), s.tools);
    DoneItemsAppend(s.log, reasoning);
    DoneItemsAppend(s.log + reasoning, message);
    DoneItemsAppend(s.log + reasoning + message, calls);
    ReasoningReported(s);
    MessageReported(s);
    CallClosingsReportCalls(s.names, s.ToolBase(), s.tools);
    hide DoneItems, ReasoningClosings, MessageClosings, CallClosings, CallItems;
  }

  lemma OfThree(events: seq<OutEvent>)
    requires |events| == 3 && !events[0].ItemDone? && !events[1].ItemDone? && events[2].ItemDone?
    ensures DoneItems(events) == [events[2].item]
  {
    assert events == [events[0], events[1]] + [events[2]];
    DoneItemsAppend([events[0], events[1]], [events[2]]);
    NoneDone([events[0], events[1]]);
    assert [events[2]][1..] == [];
  }

  lemma ReasoningReported(s: Emitter)
    ensures DoneItems(ReasoningClosings(s))
         == if s.reasoningStarted then [ReasoningItem(s.reasoningId, Some(s.reasoning))] else []
  {
    if s.reasoningStarted {
      OfThree(ReasoningClosings(s));
    }
  }

  lemma MessageReported(s: Emitter)
    ensures DoneItems(MessageClosings(s)) == if s.textStarted then [MessageItem(s.messageId, Some(s.text))] else []
  {
    if s.textStarted {
      OfThree(MessageClosings(s));
    }
  }

  lemma QuietAppend(log: seq<OutEvent>, events: seq<OutEvent>)
    requires forall e :: e in events ==> !e.ItemDone?
    ensures DoneItems(log + events) == DoneItems(log)
  {
    DoneItemsAppend(log, events);
    NoneDone(events);
  }

  lemma ContentReportsNothing(s: Emitter, text: string)
    ensures DoneItems(ApplyText(s, text).state.log) == DoneItems(s.log)
    ensures DoneItems(ApplyReasoning(s, text).state.log) == DoneItems(s.log)
  {
    hide DoneItems;
    var t, r := StartText(s), StartReasoning(s);
    QuietAppend(s.log, [ItemAdded(s.MessageIndex(), MessageItem(s.messageId, None)),
                        ContentPartAdded(s.messageId, s.MessageIndex())]);
    QuietAppend(s.log, [ItemAdded(0, ReasoningItem(s.reasoningId, None)), SummaryPartAdded(s.reasoningId, 0)]);
    QuietAppend(t.log, [TextDelta(t.messageId, t.MessageIndex(), text)]);
    QuietAppend(r.log, [SummaryDelta(r.reasoningId, 0, text)]);
  }

  lemma ToolReportsNothing(s: Emitter, event: StreamEvent)
    requires event.Tool?
    ensures DoneItems(Apply(s, event).state.log) == DoneItems(s.log)
  {
    hide DoneItems;
    if Apply(s, event).error.None? {
      AcceptedTool(s, event.index, event.callId, event.name, event.arguments);
      var call := Merged(Get(s.tools, event.index).GetOr(NO_CALL), event.callId, event.name, event.arguments);
      QuietAppend(s.log, ToolEvents(s, event.index, call, event.arguments));
    }
  }

  /** No event but an accepted stop reason reports an item done. */
  lemma OnlyStopReports(s: Emitter, event: StreamEvent)
    requires !event.Stop? || Apply(s, event).error.Some?
    ensures DoneItems(Apply(s, event).state.log) == DoneItems(s.log)
  {
    hide DoneItems, ToolEvents, CallClosings, ResponseOutput, UsageLength, ApplyTool, ApplyText, ApplyReasoning;
    match event
    case Text(text) => ContentReportsNothing(s, text);
    case Reasoning(text) => ContentReportsNothing(s, text);
    case Tool(_, _, _, _) => ToolReportsNothing(s, event);
    case Start(id) => QuietAppend(s.log, [Created(id)]);
    case Done =>
      if !s.terminal && s.finishReason.Some? {
        TerminalReportsNothing(s);
      }
    case _ =>
  }

  lemma TerminalReportsNothing(s: Emitter)
    requires !s.terminal && s.finishReason.Some?
    ensures DoneItems(Finalize(s).log) == DoneItems(s.log)
  {
    hide DoneItems, ResponseOutput;
    QuietAppend(s.log, [Finalize(s).log[|s.log|]]);
  }

  // What grows.

  /** The event adds to an item, or starts one. A refused first text or reasoning still starts its item. */
  predicate Grows(s: Emitter, event: StreamEvent) {
    !s.terminal &&
    match event
    case Text(text) => text != "" && (!s.textStarted || Apply(s, event).error.None?)
    case Reasoning(text) => text != "" && (!s.reasoningStarted || Apply(s, event).error.None?)
    case Tool(index, _, _, arguments) =>
      Apply(s, event).error.None? && (Get(s.tools, index).None? || arguments.GetOr("") != "")
    case _ => false
  }

  predicate GrowsIn(s: Emitter, events: seq<StreamEvent>)
    decreases |events|
  {
    events != [] && (Grows(s, events[0]) || GrowsIn(Apply(s, events[0]).state, events[1..]))
  }

  function CallsSize(tools: Table<ToolCall>): nat {
    if tools == [] then 0 else 1 + |tools[0].value.arguments| + CallsSize(tools[1..])
  }

  function Size(s: Emitter): nat { s.ToolBase() + |s.text| + |s.reasoning| + CallsSize(s.tools) }

  function ItemsSize(items: seq<Item>): nat {
    if items == [] then 0 else 1 + |Body(items[0])| + ItemsSize(items[1..])
  }

  lemma {:induction false} ItemsSizeAppend(a: seq<Item>, b: seq<Item>)
    ensures ItemsSize(a + b) == ItemsSize(a) + ItemsSize(b)
  {
    if a == [] {
      assert a + b == b;
    } else {
      assert (a + b)[0] == a[0] && (a + b)[1..] == a[1..] + b;
      ItemsSizeAppend(a[1..], b);
    }
  }

  lemma {:induction false} CallItemsSize(names: map<string, ToolIdentity>, tools: Table<ToolCall>)
    ensures ItemsSize(CallItems(names, tools)) == CallsSize(tools)
  {
    if tools != [] {
      CallItemsSize(names, tools[1..]);
      assert CallItems(names, tools)[1..] == CallItems(names, tools[1..]);
    }
  }

  /** The size of the state can be read off its output array. */
  lemma SizeIsShown(s: Emitter)
    requires (s.text != "" ==> s.textStarted) && (s.reasoning != "" ==> s.reasoningStarted)
    ensures ItemsSize(ResponseOutput(s)) == Size(s)
  {
    hide CallItems, CallsSize;
    var reasoning: seq<Item> := if s.reasoningStarted then [ReasoningItem(s.reasoningId, Some(s.reasoning))] else [];
    var message: seq<Item> := if s.textStarted then [MessageItem(s.messageId, Some(s.text))] else [];
    ItemsSizeAppend(reasoning, message);
    ItemsSizeAppend(reasoning + message, CallItems(s.names, s.tools));
    CallItemsSize(s.names, s.tools);
    assert s.reasoningStarted ==> reasoning[1..] == [];
    assert s.textStarted ==> message[1..] == [];
  }

  lemma {:induction false} CallsSizePut(tools: Table<ToolCall>, index: nat, call: ToolCall)
    ensures CallsSize(Put(tools, index, call))
         == CallsSize(tools) + |call.arguments| + (if Get(tools, index).None? then 1 else 0)
            - |Get(tools, index).GetOr(NO_CALL).arguments|
  {
    if tools != [] && tools[0].key < index {
      CallsSizePut(tools[1..], index, call);
    }
  }

  lemma ContentSize(s: Emitter, event: StreamEvent)
    requires event.Text? || event.Reasoning?
    ensures var next := Apply(s, event).state; Size(next) >= Size(s) && (Size(next) > Size(s) <==> Grows(s, event))
  {
  }

  lemma ToolSize(s: Emitter, event: StreamEvent)
    requires event.Tool?
    ensures var next := Apply(s, event).state; Size(next) >= Size(s) && (Size(next) > Size(s) <==> Grows(s, event))
  {
    if Apply(s, event).error.None? {
      AcceptedTool(s, event.index, event.callId, event.name, event.arguments);
      var call := Merged(Get(s.tools, event.index).GetOr(NO_CALL), event.callId, event.name, event.arguments);
      CallsSizePut(s.tools, event.index, Announced(call));
    }
    hide ApplyTool, ToolEvents, CallsSize, Put, Get;
  }

  /** The size never shrinks, and grows exactly with the events that add something. */
  lemma StepSize(s: Emitter, event: StreamEvent)
    ensures var next := Apply(s, event).state; Size(next) >= Size(s) && (Size(next) > Size(s) <==> Grows(s, event))
  {
    hide CallClosings, ReasoningClosings, MessageClosings, ResponseOutput, UsageLength;
    hide ApplyTool, ApplyText, ApplyReasoning;
    if event.Text? || event.Reasoning? {
      ContentSize(s, event);
    } else if event.Tool? {
      ToolSize(s, event);
    }
  }

  lemma {:induction false} RunSize(s: Emitter, events: seq<StreamEvent>)
    ensures Size(Run(s, events)) >= Size(s) && (Size(Run(s, events)) > Size(s) <==> GrowsIn(s, events))
    decreases |events|
  {
    if events != [] {
      StepSize(s, events[0]);
      hide Apply, Size, Grows;
      RunSize(Apply(s, events[0]).state, events[1..]);
    }
  }

  // What renames.

  datatype Naming = Naming(id: string, name: string)

  function NamingOf(call: ToolCall): Naming { Naming(call.id, call.name) }

  /** A call's id and name after more events: the last accepted id, and the accepted name parts in front. */
  function NamingAfter(s: Emitter, events: seq<StreamEvent>, k: nat, n: Naming): Naming
    decreases |events|
  {
    if events == [] then n
    else
      var e := events[0];
      var next := if e.Tool? && e.index == k && Apply(s, e).error.None?
                  then Naming(e.callId.GetOr(n.id), n.name + e.name.GetOr("")) else n;
      NamingAfter(Apply(s, e).state, events[1..], k, next)
  }

  lemma StepNames(s: Emitter, e: StreamEvent, k: nat)
    ensures var n := NamingOf(Get(s.tools, k).GetOr(NO_CALL));
            NamingOf(Get(Apply(s, e).state.tools, k).GetOr(NO_CALL))
            == if e.Tool? && e.index == k && Apply(s, e).error.None?
               then Naming(e.callId.GetOr(n.id), n.name + e.name.GetOr("")) else n
  {
    if e.Tool? && Apply(s, e).error.None? {
      AcceptedTool(s, e.index, e.callId, e.name, e.arguments);
      var call := Merged(Get(s.tools, e.index).GetOr(NO_CALL), e.callId, e.name, e.arguments);
      GetPut(s.tools, e.index, Announced(call), k);
    }
    hide ApplyTool, ToolEvents, CallClosings, ReasoningClosings, MessageClosings, ResponseOutput, UsageLength, Put, Get;
  }

  lemma {:induction false} RunNames(s: Emitter, events: seq<StreamEvent>, k: nat)
    ensures NamingOf(Get(Run(s, events).tools, k).GetOr(NO_CALL))
         == NamingAfter(s, events, k, NamingOf(Get(s.tools, k).GetOr(NO_CALL)))
    decreases |events|
  {
    if events != [] {
      StepNames(s, events[0], k);
      hide Apply, NamingOf, Get;
      RunNames(Apply(s, events[0]).state, events[1..], k);
    }
  }

  // What stays.

  /** The same items with the same bodies; only a call's id and name may differ. */
  ghost predicate SameContent(s: Emitter, t: Emitter) {
    && t.reasoningStarted == s.reasoningStarted && t.textStarted == s.textStarted
    && t.reasoning == s.reasoning && t.text == s.text
    && t.reasoningId == s.reasoningId && t.messageId == s.messageId && t.names == s.names
    && SameBodies(s.tools, t.tools)
  }

  ghost predicate SameBodies(a: Table<ToolCall>, b: Table<ToolCall>) {
    |a| == |b| && forall i :: 0 <= i < |a| ==> a[i].key == b[i].key && a[i].value.arguments == b[i].value.arguments
  }

  lemma {:induction false} PutKeepsBodies(tools: Table<ToolCall>, index: nat, call: ToolCall)
    requires Get(tools, index).Some? && Get(tools, index).value.arguments == call.arguments
    ensures SameBodies(tools, Put(tools, index, call))
  {
    if tools[0].key < index {
      PutKeepsBodies(tools[1..], index, call);
      var rest := Put(tools[1..], index, call);
      assert Put(tools, index, call) == [tools[0]] + rest;
      assert forall i :: 0 < i < |tools| ==> tools[i] == tools[1..][i - 1];
    }
  }

  lemma ToolKeepsContent(s: Emitter, e: StreamEvent)
    requires e.Tool? && !Grows(s, e)
    ensures SameContent(s, Apply(s, e).state)
  {
    if Apply(s, e).error.None? {
      AcceptedTool(s, e.index, e.callId, e.name, e.arguments);
      var call := Merged(Get(s.tools, e.index).GetOr(NO_CALL), e.callId, e.name, e.arguments);
      PutKeepsBodies(s.tools, e.index, Announced(call));
    }
    hide ApplyTool, ToolEvents, Put, Get;
  }

  lemma TextKeepsContent(s: Emitter, e: StreamEvent)
    requires (e.Text? || e.Reasoning?) && !Grows(s, e)
    ensures SameContent(s, Apply(s, e).state)
  {
    assert SameBodies(s.tools, s.tools);
    hide SameBodies;
  }

  lemma StepKeepsContent(s: Emitter, e: StreamEvent)
    requires !Grows(s, e)
    ensures SameContent(s, Apply(s, e).state)
  {
    if e.Tool? {
      ToolKeepsContent(s, e);
    } else if e.Text? || e.Reasoning? {
      TextKeepsContent(s, e);
    } else {
      OtherKeepsContent(s, e);
    }
    hide Apply, SameContent;
  }

  /** Two states that differ at most in what a stop, a terminal event, an id or a usage report sets. */
  ghost predicate SameItems(s: Emitter, t: Emitter) {
    && t.reasoningStarted == s.reasoningStarted && t.textStarted == s.textStarted
    && t.reasoning == s.reasoning && t.text == s.text
    && t.reasoningId == s.reasoningId && t.messageId == s.messageId && t.names == s.names && t.tools == s.tools
  }

  lemma ClosingKeepsItems(s: Emitter)
    ensures SameItems(s, FinishItems(s)) && SameItems(s, Finalize(s))
  {
    hide CallClosings, ReasoningClosings, MessageClosings, ResponseOutput, StatusOf;
  }

  lemma OtherKeepsItems(s: Emitter, e: StreamEvent)
    requires !e.Tool? && !e.Text? && !e.Reasoning?
    ensures SameItems(s, Apply(s, e).state)
  {
    hide FinishItems, Finalize, UsageLength;
    ClosingKeepsItems(s);
    if e.Stop? && Reserve(s, |e.reason|).Some? {
      ClosingKeepsItems(Reserve(s, |e.reason|).value.(finishReason := Some(e.reason)));
    }
  }

  lemma OtherKeepsContent(s: Emitter, e: StreamEvent)
    requires !e.Tool? && !e.Text? && !e.Reasoning?
    ensures SameContent(s, Apply(s, e).state)
  {
    hide Apply;
    OtherKeepsItems(s, e);
  }

  lemma {:induction false} RunKeepsContent(s: Emitter, events: seq<StreamEvent>)
    requires !GrowsIn(s, events)
    ensures SameContent(s, Run(s, events))
    decreases |events|
  {
    if events != [] {
      StepKeepsContent(s, events[0]);
      hide Apply, Grows;
      RunKeepsContent(Apply(s, events[0]).state, events[1..]);
    }
  }

  lemma {:induction false} CallItemsAgree(names: map<string, ToolIdentity>, a: Table<ToolCall>, b: Table<ToolCall>)
    requires |a| == |b|
    ensures CallItems(names, a) == CallItems(names, b)
       <==> forall i :: 0 <= i < |a| ==> CallItem(names, a[i].value) == CallItem(names, b[i].value)
  {
    if a != [] {
      CallItemsAgree(names, a[1..], b[1..]);
      hide CallItem;
      assert CallItems(names, a) == [CallItem(names, a[0].value)] + CallItems(names, a[1..]);
      assert CallItems(names, b) == [CallItem(names, b[0].value)] + CallItems(names, b[1..]);
      assert CallItems(names, a)[1..] == CallItems(names, a[1..]);
      assert CallItems(names, b)[1..] == CallItems(names, b[1..]);
      assert forall i :: 0 < i < |a| ==> a[i] == a[1..][i - 1] && b[i] == b[1..][i - 1];
      assert forall i :: 0 <= i < |a| - 1 ==> a[1..][i] == a[i + 1] && b[1..][i] == b[i + 1];
    }
  }

  /** No call shows another id or identity after these events than before. */
  ghost predicate NamesStay(s: Emitter, events: seq<StreamEvent>) {
    forall i :: 0 <= i < |s.tools| ==>
      var call := s.tools[i].value;
      var n := NamingAfter(s, events, s.tools[i].key, NamingOf(call));
      n.id == call.id && IdentityOf(s.names, n.name) == IdentityOf(s.names, call.name)
  }

  lemma OutputStaysIff(s: Emitter, events: seq<StreamEvent>)
    requires Lawful(s) && Lawful(Run(s, events))
    ensures ResponseOutput(Run(s, events)) == ResponseOutput(s) <==> !GrowsIn(s, events) && NamesStay(s, events)
  {
    hide Run, GrowsIn, NamingAfter, CallItems, Size, ItemsSize, TextOf, ReasoningOf;
    var end := Run(s, events);
    RunSize(s, events);
    SizeIsShown(s);
    SizeIsShown(end);
    if !GrowsIn(s, events) {
      RunKeepsContent(s, events);
      forall i | 0 <= i < |s.tools|
        ensures NamingOf(end.tools[i].value) == NamingAfter(s, events, s.tools[i].key, NamingOf(s.tools[i].value))
      {
        RunNames(s, events, s.tools[i].key);
        GetAt(s.tools, i);
        GetAt(end.tools, i);
      }
      CallItemsAgree(s.names, s.tools, end.tools);
      SameHeads(s, end);
    }
    hide Lawful, ResponseOutput;
  }

  lemma SameHeads(s: Emitter, t: Emitter)
    requires SameContent(s, t)
    ensures ResponseOutput(s) == ResponseOutput(t) <==> CallItems(s.names, s.tools) == CallItems(s.names, t.tools)
  {
    var reasoning: seq<Item> := if s.reasoningStarted then [ReasoningItem(s.reasoningId, Some(s.reasoning))] else [];
    var message: seq<Item> := if s.textStarted then [MessageItem(s.messageId, Some(s.text))] else [];
    var head := reasoning + message;
    assert ResponseOutput(s) == head + CallItems(s.names, s.tools);
    assert ResponseOutput(t) == head + CallItems(s.names, t.tools);
    assert (head + CallItems(s.names, s.tools))[|head|..] == CallItems(s.names, s.tools);
    assert (head + CallItems(s.names, t.tools))[|head|..] == CallItems(s.names, t.tools);
  }

  // The whole stream.

  /** Before a stop reason nothing is reported done. */
  lemma {:induction false} NothingDoneBeforeStop(s: Emitter, events: seq<StreamEvent>)
    requires s.finishReason.None? ==> DoneItems(s.log) == []
    ensures Run(s, events).finishReason.None? ==> DoneItems(Run(s, events).log) == []
    decreases |events|
  {
    if events != [] {
      StopSetsReason(s, events[0]);
      if !events[0].Stop? || Apply(s, events[0]).error.Some? {
        OnlyStopReports(s, events[0]);
      }
      hide Apply, DoneItems;
      NothingDoneBeforeStop(Apply(s, events[0]).state, events[1..]);
    }
  }

  lemma StopSetsReason(s: Emitter, e: StreamEvent)
    ensures e.Stop? && Apply(s, e).error.None? ==> Apply(s, e).state.finishReason.Some?
    ensures s.finishReason.Some? ==> Apply(s, e).state.finishReason.Some? && (e.Stop? ==> Apply(s, e).error.Some?)
  {
    if !e.Stop? {
      DefaultReasonIsNeverUsed(s, e);
    }
    hide ApplyTool, ApplyText, ApplyReasoning, UsageLength;
    hide CallClosings, ReasoningClosings, MessageClosings, ResponseOutput;
  }

  lemma {:induction false} NothingDoneAfterStop(s: Emitter, events: seq<StreamEvent>)
    requires s.finishReason.Some?
    ensures DoneItems(Run(s, events).log) == DoneItems(s.log) && Run(s, events).finishReason.Some?
    decreases |events|
  {
    if events != [] {
      StopSetsReason(s, events[0]);
      OnlyStopReports(s, events[0]);
      hide Apply, DoneItems;
      NothingDoneAfterStop(Apply(s, events[0]).state, events[1..]);
    }
  }

  lemma StopReportsOutput(s: Emitter, reason: string)
    requires s.finishReason.None? && DoneItems(s.log) == [] && Apply(s, Stop(reason)).error.None?
    ensures DoneItems(Apply(s, Stop(reason)).state.log) == ResponseOutput(Apply(s, Stop(reason)).state)
  {
    hide CallClosings, ReasoningClosings, MessageClosings, DoneItems, CallItems;
    var r := Reserve(s, |reason|).value.(finishReason := Some(reason));
    ClosingReportsOutput(r);
    assert Apply(s, Stop(reason)).state == FinishItems(r);
  }

  lemma FinishChangesNoItem(s: Emitter)
    requires s.finishReason.Some?
    ensures DoneItems(Finish(s).log) == DoneItems(s.log) && ResponseOutput(Finish(s)) == ResponseOutput(s)
  {
    if !s.terminal {
      TerminalReportsNothing(s);
    }
    hide DoneItems, CallItems;
  }

  lemma {:induction false} RunAppends(s: Emitter, x: seq<StreamEvent>, y: seq<StreamEvent>)
    ensures Run(s, x + y) == Run(Run(s, x), y)
    decreases |x|
  {
    if x == [] {
      assert x + y == y;
    } else {
      hide Apply;
      assert (x + y)[0] == x[0] && (x + y)[1..] == x[1..] + y;
      RunAppends(Apply(s, x[0]).state, x[1..], y);
    }
  }

  /**
   Main law, over every run with a stop reason: the items reported done are, in order, the items of the
   output array as it was at the stop reason; and they are those of the terminal event if and only if no
   accepted content after the stop reason adds to an item or starts one, and no call ends up under
   another id or identity.
   */
  lemma {:induction false} DoneItemsAreFinalIff(limit: nat, names: map<string, ToolIdentity>, seed: string,
      fallbackId: string, before: seq<StreamEvent>, reason: string, after: seq<StreamEvent>)
    ensures var s := Run(NewEmitter(limit, names, seed, fallbackId), before);
            var stopped := Apply(s, Stop(reason)).state;
            var end := Finish(Run(stopped, after));
            Apply(s, Stop(reason)).error.None? ==>
              && end.log != [] && end.log[|end.log| - 1].Terminal?
              && DoneItems(end.log) == ResponseOutput(stopped)
              && (DoneItems(end.log) == end.log[|end.log| - 1].output
                  <==> !GrowsIn(stopped, after) && NamesStay(stopped, after))
  {
    hide Run, Apply, DoneItems, ResponseOutput, GrowsIn, NamesStay, Lawful, Finish;
    var start := NewEmitter(limit, names, seed, fallbackId);
    var s := Run(start, before);
    var stopped := Apply(s, Stop(reason)).state;
    if Apply(s, Stop(reason)).error.None? {
      RunsAreLawful(limit, names, seed, fallbackId, before, reason, after);
      ItemsAreDoneAtStop(start, before, reason, after);
      LawfulReports(Finish(Run(stopped, after)));
      OutputStaysIff(stopped, after);
    }
  }

  lemma RunsAreLawful(limit: nat, names: map<string, ToolIdentity>, seed: string, fallbackId: string,
      before: seq<StreamEvent>, reason: string, after: seq<StreamEvent>)
    ensures var stopped := Apply(Run(NewEmitter(limit, names, seed, fallbackId), before), Stop(reason)).state;
            Lawful(stopped) && Lawful(Run(stopped, after)) && Lawful(Finish(Run(stopped, after)))
  {
    hide Apply, Lawful, Finish;
    var start := NewEmitter(limit, names, seed, fallbackId);
    var s := Run(start, before);
    RunAppends(start, before, [Stop(reason)]);
    RunAppends(start, before + [Stop(reason)], after);
    assert Run(s, [Stop(reason)]) == Apply(s, Stop(reason)).state by { assert [Stop(reason)][1..] == []; }
    EveryRunIsLawful(limit, names, seed, fallbackId, before + [Stop(reason)]);
    EveryRunIsLawful(limit, names, seed, fallbackId, before + [Stop(reason)] + after);
  }

  lemma ItemsAreDoneAtStop(start: Emitter, before: seq<StreamEvent>, reason: string, after: seq<StreamEvent>)
    requires start.finishReason.None? && start.log == []
    requires Apply(Run(start, before), Stop(reason)).error.None?
    ensures var stopped := Apply(Run(start, before), Stop(reason)).state;
            var end := Finish(Run(stopped, after));
            && end.terminal && DoneItems(end.log) == ResponseOutput(stopped)
            && ResponseOutput(end) == ResponseOutput(Run(stopped, after))
  {
    assert DoneItems(start.log) == [];
    hide Run, Apply, DoneItems, ResponseOutput;
    var s := Run(start, before);
    var stopped := Apply(s, Stop(reason)).state;
    NothingDoneBeforeStop(start, before);
    StopSetsReason(s, Stop(reason));
    StopReportsOutput(s, reason);
    NothingDoneAfterStop(stopped, after);
    FinishChangesNoItem(Run(stopped, after));
  }

  lemma LawfulReports(s: Emitter)
    requires Lawful(s) && s.terminal
    ensures s.log != [] && s.log[|s.log| - 1].Terminal? && s.log[|s.log| - 1].output == ResponseOutput(s)
  {
    hide ResponseOutput, TextOf, ReasoningOf, ToolBytes;
  }

  lemma TextAccepted(s: Emitter, text: string)
    requires !s.terminal && text != "" && s.aggregate + |text| <= s.limit
    ensures var next := Apply(s, Text(text)).state;
            && Apply(s, Text(text)).error.None?
            && next.text == s.text + text && next.textStarted && next.aggregate == s.aggregate + |text|
            && next.limit == s.limit && next.messageId == s.messageId && !next.terminal
            && next.reasoningStarted == s.reasoningStarted && next.tools == s.tools
            && next.finishReason == s.finishReason
  {
  }

  lemma StopAccepted(s: Emitter, reason: string)
    requires !s.terminal && s.finishReason.None? && s.aggregate + |reason| <= s.limit
    ensures var next := Apply(s, Stop(reason)).state;
            && Apply(s, Stop(reason)).error.None?
            && next.text == s.text && next.textStarted == s.textStarted && next.aggregate == s.aggregate + |reason|
            && next.limit == s.limit && next.messageId == s.messageId && !next.terminal
            && next.reasoningStarted == s.reasoningStarted && next.tools == s.tools && next.finishReason == Some(reason)
  {
    hide CallClosings, ReasoningClosings, MessageClosings;
  }

  /** Text after the stop reason is accepted, and the message is reported done without it. */
  lemma TextAfterStopIsNotReported(seed: string, fallbackId: string)
    ensures var start := NewEmitter(100, map[], seed, fallbackId);
            var end := Finish(Run(start, [Text("a"), Stop("stop"), Text("b")]));
            && DoneItems(end.log) == [MessageItem(start.messageId, Some("a"))]
            && end.log != [] && end.log[|end.log| - 1].Terminal?
            && end.log[|end.log| - 1].output == [MessageItem(start.messageId, Some("ab"))]
  {
    var start := NewEmitter(100, map[], seed, fallbackId);
    TextAccepted(start, "a");
    var said := Apply(start, Text("a")).state;
    StopAccepted(said, "stop");
    var stopped := Apply(said, Stop("stop")).state;
    TextAccepted(stopped, "b");
    var more := Apply(stopped, Text("b")).state;
    hide Apply, Finish, DoneItems, ResponseOutput, GrowsIn, NamesStay;
    OneMessage(stopped);
    OneMessage(more);
    assert [Text("a")][1..] == [] && [Text("b")][1..] == [];
    assert Run(start, [Text("a")]) == said && Run(stopped, [Text("b")]) == more;
    DoneItemsAreFinalIff(100, map[], seed, fallbackId, [Text("a")], "stop", [Text("b")]);
    var events := [Text("a"), Stop("stop"), Text("b")];
    assert events[1..] == [Stop("stop"), Text("b")] && events[1..][1..] == [Text("b")];
    assert Run(start, events) == more;
    assert "" + "a" == "a" && "a" + "b" == "ab";
    FinishReports(more);
  }

  lemma OneMessage(s: Emitter)
    requires s.textStarted && !s.reasoningStarted && s.tools == []
    ensures ResponseOutput(s) == [MessageItem(s.messageId, Some(s.text))]
  {
  }

  lemma FinishReports(s: Emitter)
    requires !s.terminal && s.finishReason.Some?
    ensures var end := Finish(s);
            end.log != [] && end.log[|end.log| - 1].Terminal? && end.log[|end.log| - 1].output == ResponseOutput(s)
  {
    hide ResponseOutput;
  }
}
