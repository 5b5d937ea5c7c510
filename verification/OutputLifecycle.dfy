/**
 The item lifecycle. Read the log one output index at a time: under an orderly stream the events
 at index p are exactly "added, deltas, done" of the item that the terminal event lists at place p.
 */
module OutputLifecycle {
  import opened Wrappers
  import opened OrderedTable
  import opened OutputModel
  import opened OutputLaws

  predicate Indexed(e: OutEvent, p: nat) { !e.Created? && !e.Terminal? && e.outputIndex == p }

  /** The events of a log that carry output index `p`, in order. */
  function At(log: seq<OutEvent>, p: nat): seq<OutEvent> {
    if log == [] then [] else (if Indexed(log[0], p) then [log[0]] else []) + At(log[1..], p)
  }

  // The three phases of an item's life, all read off the finished item.

  function Opening(item: Item, p: nat): seq<OutEvent> {
    match item
    case ReasoningItem(id, _) => [ItemAdded(p, ReasoningItem(id, None)), SummaryPartAdded(id, p)]
    case MessageItem(id, _) => [ItemAdded(p, MessageItem(id, None)), ContentPartAdded(id, p)]
    case FunctionCallItem(callId, identity, _, _) => [ItemAdded(p, FunctionCallItem(callId, identity, "", false))]
  }

  function Delta(item: Item, p: nat, delta: string): OutEvent {
    match item
    case ReasoningItem(id, _) => SummaryDelta(id, p, delta)
    case MessageItem(id, _) => TextDelta(id, p, delta)
    case FunctionCallItem(callId, _, _, _) => ArgumentsDelta("fc_" + callId, p, delta)
  }

  function Body(item: Item): string {
    match item
    case ReasoningItem(_, summary) => summary.GetOr("")
    case MessageItem(_, content) => content.GetOr("")
    case FunctionCallItem(_, _, arguments, _) => arguments
  }

  function Closing(item: Item, p: nat): seq<OutEvent> {
    match item
    case ReasoningItem(id, _) =>
      [SummaryTextDone(id, p, Body(item)), SummaryPartDone(id, p, Body(item)), ItemDone(p, item)]
    case MessageItem(id, _) =>
      [TextDone(id, p, Body(item)), ContentPartDone(id, p, Body(item)), ItemDone(p, item)]
    case FunctionCallItem(callId, _, _, _) =>
      [ArgumentsDone("fc_" + callId, p, Body(item)), ItemDone(p, item)]
  }

  function Deltas(item: Item, p: nat, deltas: seq<string>): seq<OutEvent> {
    if deltas == [] then [] else Deltas(item, p, deltas[..|deltas| - 1]) + [Delta(item, p, deltas[|deltas| - 1])]
  }

  function Join(deltas: seq<string>): string {
    if deltas == [] then "" else Join(deltas[..|deltas| - 1]) + deltas[|deltas| - 1]
  }

  /** `events` announce the item and stream its body so far. */
  ghost predicate Streaming(events: seq<OutEvent>, item: Item, p: nat) {
    exists deltas: seq<string> ::
      events == Opening(item, p) + Deltas(item, p, deltas) && Join(deltas) == Body(item)
  }

  /** `events` are one whole life: added, the deltas whose join is the body, done once. */
  ghost predicate Lived(events: seq<OutEvent>, item: Item, p: nat) {
    exists deltas: seq<string> ::
      events == Opening(item, p) + Deltas(item, p, deltas) + Closing(item, p) && Join(deltas) == Body(item)
  }

  lemma {:induction false} AtConcat(a: seq<OutEvent>, b: seq<OutEvent>, p: nat)
    ensures At(a + b, p) == At(a, p) + At(b, p)
  {
    if a == [] {
      assert a + b == b;
    } else {
      assert (a + b)[1..] == a[1..] + b;
      AtConcat(a[1..], b, p);
    }
  }

  lemma {:induction false} AtAll(events: seq<OutEvent>, p: nat, q: nat)
    requires forall e :: e in events ==> Indexed(e, q)
    ensures At(events, p) == if p == q then events else []
  {
    if events != [] {
      assert events[0] in events && events == [events[0]] + events[1..];
      AtAll(events[1..], p, q);
    }
  }

  lemma Opens(item: Item, p: nat)
    requires Body(item) == ""
    ensures Streaming(Opening(item, p), item, p)
  {
    assert Opening(item, p) == Opening(item, p) + Deltas(item, p, []) && Join([]) == "";
  }

  /** Two stages of the same item: only body and completion may differ. */
  predicate SameItem(a: Item, b: Item) {
    match a
    case ReasoningItem(id, _) => b.ReasoningItem? && b.id == id
    case MessageItem(id, _) => b.MessageItem? && b.id == id
    case FunctionCallItem(callId, identity, _, _) => b.FunctionCallItem? && b.callId == callId && b.identity == identity
  }

  lemma {:induction false} DeltasDependOnIdentity(a: Item, b: Item, p: nat, deltas: seq<string>)
    requires SameItem(a, b)
    ensures Deltas(a, p, deltas) == Deltas(b, p, deltas) && Opening(a, p) == Opening(b, p)
  {
    if deltas != [] {
      DeltasDependOnIdentity(a, b, p, deltas[..|deltas| - 1]);
    }
  }

  lemma OneMoreDelta(item: Item, p: nat, deltas: seq<string>, delta: string)
    ensures Deltas(item, p, deltas + [delta]) == Deltas(item, p, deltas) + [Delta(item, p, delta)]
    ensures Join(deltas + [delta]) == Join(deltas) + delta
  {
    assert (deltas + [delta])[..|deltas|] == deltas;
  }

  lemma Streams(events: seq<OutEvent>, item: Item, next: Item, p: nat, delta: string)
    requires Streaming(events, item, p) && SameItem(item, next) && Body(next) == Body(item) + delta
    ensures Streaming(events + [Delta(next, p, delta)], next, p)
  {
    hide Deltas, Join, Opening, Delta, Body, SameItem;
    var deltas :| events == Opening(item, p) + Deltas(item, p, deltas) && Join(deltas) == Body(item);
    DeltasDependOnIdentity(item, next, p, deltas);
    OneMoreDelta(next, p, deltas, delta);
    assert events + [Delta(next, p, delta)] == Opening(next, p) + Deltas(next, p, deltas + [delta]);
  }

  lemma Closes(events: seq<OutEvent>, item: Item, p: nat)
    requires Streaming(events, item, p)
    ensures Lived(events + Closing(item, p), item, p)
  {
  }

  /** The item that owns output index `p`, as it now stands. */
  function ItemAt(s: Emitter, p: nat): Option<Item> {
    if s.reasoningStarted && p == 0 then Some(ReasoningItem(s.reasoningId, Some(s.reasoning)))
    else if s.textStarted && p == s.MessageIndex() then Some(MessageItem(s.messageId, Some(s.text)))
    else if p < s.ToolBase() || Get(s.tools, p - s.ToolBase()).None? then None
    else Some(CallItem(s.names, Get(s.tools, p - s.ToolBase()).value))
  }

  ghost predicate AllAnnounced(s: Emitter) {
    forall i: nat :: Get(s.tools, i).Some? ==>
      var call := Get(s.tools, i).value; call.added && call.id != "" && call.name != ""
  }

  /** Before the stop reason: every owned index is streaming, every other index is untouched. */
  ghost predicate Live(s: Emitter) {
    && Sorted(s.tools) && AllAnnounced(s)
    && forall p: nat :: LiveAt(s, p)
  }

  ghost predicate LiveAt(s: Emitter, p: nat) {
    match ItemAt(s, p)
    case None => At(s.log, p) == []
    case Some(item) => Streaming(At(s.log, p), item, p)
  }

  /** From the stop reason on: every owned index has been lived through. */
  ghost predicate Settled(s: Emitter) {
    forall p: nat :: SettledAt(s, p)
  }

  ghost predicate SettledAt(s: Emitter, p: nat) {
    match ItemAt(s, p)
    case None => At(s.log, p) == []
    case Some(item) => Lived(At(s.log, p), item, p)
  }

  /**
   An event arriving in order: reasoning is first to start, text starts before any tool, a tool's
   first event names it for good, and no content follows the stop reason.
   */
  predicate InOrder(s: Emitter, event: StreamEvent) {
    match event
    case Reasoning(text) => text == ""
        || (s.finishReason.None? && (s.reasoningStarted || (!s.textStarted && s.tools == [])))
    case Text(text) => text == "" || (s.finishReason.None? && (s.textStarted || s.tools == []))
    case Tool(index, callId, name, _) =>
      s.finishReason.None? &&
      (match Get(s.tools, index)
       case None => callId.GetOr("") != "" && name.GetOr("") != ""
       case Some(call) => callId.GetOr(call.id) == call.id && name.GetOr("") == "")
    case _ => true
  }

  predicate Orderly(s: Emitter, events: seq<StreamEvent>)
    decreases |events|
  {
    events == [] ||
    (InOrder(s, events[0]) && Apply(s, events[0]).error.None? && Orderly(Apply(s, events[0]).state, events[1..]))
  }

  // One step.

  /** Appending events of one index `p` moves only the item at `p` along. */
  lemma LiveExtends(s: Emitter, next: Emitter, p: nat, item: Item, tail: seq<OutEvent>)
    requires Live(s) && Sorted(next.tools) && AllAnnounced(next)
    requires next.log == s.log + tail && forall e :: e in tail ==> Indexed(e, p)
    requires forall q: nat :: q != p ==> ItemAt(next, q) == ItemAt(s, q)
    requires ItemAt(next, p) == Some(item) && Streaming(At(s.log, p) + tail, item, p)
    ensures Live(next)
  {
    forall q: nat ensures LiveAt(next, q) {
      assert LiveAt(s, q);
      AtConcat(s.log, tail, q);
      AtAll(tail, q, p);
      if q != p {
        assert At(next.log, q) == At(s.log, q);
      }
    }
  }

  /** Appending one delta to the item at `p`. */
  lemma LiveDelta(s: Emitter, next: Emitter, p: nat, item: Item, longer: Item, delta: string)
    requires Live(s) && next.tools == s.tools && next.log == s.log + [Delta(longer, p, delta)]
    requires forall q: nat :: q != p ==> ItemAt(next, q) == ItemAt(s, q)
    requires ItemAt(s, p) == Some(item) && ItemAt(next, p) == Some(longer)
    requires SameItem(item, longer) && Body(longer) == Body(item) + delta
    ensures Live(next)
  {
    assert LiveAt(s, p);
    Streams(At(s.log, p), item, longer, p, delta);
    LiveExtends(s, next, p, longer, [Delta(longer, p, delta)]);
  }

  /** Opening an empty item at an index nobody owns. */
  lemma LiveOpening(s: Emitter, next: Emitter, p: nat, item: Item)
    requires Live(s) && next.tools == s.tools && next.log == s.log + Opening(item, p)
    requires forall q: nat :: q != p ==> ItemAt(next, q) == ItemAt(s, q)
    requires ItemAt(s, p) == None && ItemAt(next, p) == Some(item) && Body(item) == ""
    ensures Live(next)
  {
    assert LiveAt(s, p);
    Opens(item, p);
    assert At(s.log, p) + Opening(item, p) == Opening(item, p);
    LiveExtends(s, next, p, item, Opening(item, p));
  }

  lemma TextLive(s: Emitter, text: string)
    requires Live(s) && (s.textStarted || (s.tools == [] && s.text == ""))
    requires ApplyText(s, text).error.None?
    ensures Live(ApplyText(s, text).state)
  {
    var started := StartText(s);
    var p := s.MessageIndex();
    var item := MessageItem(s.messageId, Some(s.text));
    if !s.textStarted {
      LiveOpening(s, started, p, item);
    }
    LiveDelta(started, ApplyText(s, text).state, p, item, MessageItem(s.messageId, Some(s.text + text)), text);
  }

  lemma ReasoningLive(s: Emitter, text: string)
    requires Live(s) && (s.reasoningStarted || (!s.textStarted && s.tools == [] && s.reasoning == ""))
    requires ApplyReasoning(s, text).error.None?
    ensures Live(ApplyReasoning(s, text).state)
  {
    var started := StartReasoning(s);
    var item := ReasoningItem(s.reasoningId, Some(s.reasoning));
    if !s.reasoningStarted {
      LiveOpening(s, started, 0, item);
    }
    LiveDelta(started, ApplyReasoning(s, text).state, 0, item, ReasoningItem(s.reasoningId, Some(s.reasoning + text)),
        text);
  }

  /** What a tool event in order appends: the opening when the call is new, then at most one delta. */
  lemma ToolEventsShape(s: Emitter, index: nat, call: ToolCall, arguments: Option<string>)
    requires call.id != "" && call.name != ""
    ensures var p := s.ToolBase() + index; var item := CallItem(s.names, Announced(call));
            ToolEvents(s, index, call, arguments)
              == (if call.added then [] else Opening(item, p))
                 + (if arguments.Some? then [Delta(item, p, arguments.value)] else [])
    ensures forall e :: e in ToolEvents(s, index, call, arguments) ==> Indexed(e, s.ToolBase() + index)
  {
  }

  /** A call's stream after one tool event that is in order. */
  lemma CallStreams(events: seq<OutEvent>, isNew: bool, before: Item, item: Item, p: nat, arguments: Option<string>)
    requires SameItem(before, item) && Body(item) == Body(before) + arguments.GetOr("")
    requires if isNew then events == [] && Body(before) == "" else Streaming(events, before, p)
    ensures Streaming(events + ((if isNew then Opening(item, p) else [])
                                + (if arguments.Some? then [Delta(item, p, arguments.value)] else [])), item, p)
  {
    var start := if isNew then Opening(before, p) else events;
    if isNew {
      Opens(before, p);
    }
    DeltasDependOnIdentity(before, item, p, []);
    Streams(start, before, item, p, arguments.GetOr(""));
    if arguments.Some? {
      assert events + ((if isNew then Opening(item, p) else []) + [Delta(item, p, arguments.value)])
          == start + [Delta(item, p, arguments.value)];
    } else {
      StreamingSame(start, before, item, p);
      assert events + ((if isNew then Opening(item, p) else []) + []) == start;
    }
  }

  lemma StreamingSame(events: seq<OutEvent>, item: Item, next: Item, p: nat)
    requires Streaming(events, item, p) && SameItem(item, next) && Body(next) == Body(item)
    ensures Streaming(events, next, p)
  {
    var deltas :| events == Opening(item, p) + Deltas(item, p, deltas) && Join(deltas) == Body(item);
    DeltasDependOnIdentity(item, next, p, deltas);
  }

  /** A tool event in order changes the owner of the tool's own index only. */
  lemma ToolItems(s: Emitter, next: Emitter, index: nat, call: ToolCall)
    requires Sorted(s.tools) && AllAnnounced(s) && call.added && call.id != "" && call.name != ""
    requires next == s.(aggregate := next.aggregate, log := next.log, tools := Put(s.tools, index, call))
    ensures Sorted(next.tools) && AllAnnounced(next)
    ensures ItemAt(next, s.ToolBase() + index) == Some(CallItem(s.names, call))
    ensures forall q: nat :: q != s.ToolBase() + index ==> ItemAt(next, q) == ItemAt(s, q)
  {
    PutSorted(s.tools, index, call);
    forall i: nat ensures Get(next.tools, i) == if i == index then Some(call) else Get(s.tools, i) {
      GetPut(s.tools, index, call, i);
    }
  }

  lemma AcceptedTool(s: Emitter, index: nat, callId: Option<string>, name: Option<string>, arguments: Option<string>)
    requires ApplyTool(s, index, callId, name, arguments).error.None?
    ensures var call := Merged(Get(s.tools, index).GetOr(NO_CALL), callId, name, arguments);
            var next := ApplyTool(s, index, callId, name, arguments).state;
            next == s.(aggregate := next.aggregate, tools := Put(s.tools, index, Announced(call)),
                       log := s.log + ToolEvents(s, index, call, arguments))
  {
    hide Put, Get, Merged, Announced;
  }

  lemma ToolLive(s: Emitter, index: nat, callId: Option<string>, name: Option<string>, arguments: Option<string>)
    requires Live(s) && InOrder(s, Tool(index, callId, name, arguments))
    requires ApplyTool(s, index, callId, name, arguments).error.None?
    ensures Live(ApplyTool(s, index, callId, name, arguments).state)
  {
    AcceptedTool(s, index, callId, name, arguments);
    ToolLiveFor(s, ApplyTool(s, index, callId, name, arguments).state, index, Get(s.tools, index).GetOr(NO_CALL),
                Merged(Get(s.tools, index).GetOr(NO_CALL), callId, name, arguments), arguments);
  }

  /** The stream at a tool's position, continued by one tool event in order. */
  lemma {:induction false} ToolStreamContinues(s: Emitter, index: nat, before: ToolCall, call: ToolCall,
      arguments: Option<string>)
    requires Live(s) && before == Get(s.tools, index).GetOr(NO_CALL)
    requires call.id != "" && call.name != "" && call.arguments == before.arguments + arguments.GetOr("")
    requires call.added == Get(s.tools, index).Some?
    requires call.added ==> call.id == before.id && call.name == before.name
    ensures var p := s.ToolBase() + index;
            Streaming(At(s.log, p) + ToolEvents(s, index, call, arguments), CallItem(s.names, Announced(call)), p)
  {
    hide ToolEvents, ItemAt, Live, CallItem, Opening, Delta, Streaming, Put, Get, At;
    var p := s.ToolBase() + index;
    var begun := CallItem(s.names, call.(arguments := before.arguments));
    var item := CallItem(s.names, Announced(call));
    ToolEventsShape(s, index, call, arguments);
    StreamAtTool(s, index);
    OneCall(s.names, call, before, arguments);
    CallStreams(At(s.log, p), !call.added, begun, item, p, arguments);
  }

  /** At a tool's position its call is streaming, or nothing is there yet. */
  lemma StreamAtTool(s: Emitter, index: nat)
    requires Live(s)
    ensures var p := s.ToolBase() + index;
            match Get(s.tools, index)
            case Some(call) => call.added && Streaming(At(s.log, p), CallItem(s.names, call), p)
            case None => At(s.log, p) == []
  {
    hide Streaming, CallItem, At, Get;
    assert LiveAt(s, s.ToolBase() + index);
  }

  /** The item a call was and the one it becomes. */
  lemma OneCall(names: map<string, ToolIdentity>, call: ToolCall, before: ToolCall, arguments: Option<string>)
    requires call.arguments == before.arguments + arguments.GetOr("")
    ensures var begun := CallItem(names, call.(arguments := before.arguments));
            var item := CallItem(names, Announced(call));
            && SameItem(begun, item)
            && Body(begun) == before.arguments && Body(item) == Body(begun) + arguments.GetOr("")
    ensures call.id == before.id && call.name == before.name ==>
              CallItem(names, call.(arguments := before.arguments)) == CallItem(names, before)
    ensures before == NO_CALL ==> Body(CallItem(names, call.(arguments := before.arguments))) == ""
  {
  }

  lemma LiveIsSorted(s: Emitter)
    requires Live(s)
    ensures Sorted(s.tools) && AllAnnounced(s)
  {
  }

  lemma ToolLiveFor(s: Emitter, next: Emitter, index: nat, before: ToolCall, call: ToolCall, arguments: Option<string>)
    requires Live(s) && before == Get(s.tools, index).GetOr(NO_CALL)
    requires call.id != "" && call.name != "" && call.arguments == before.arguments + arguments.GetOr("")
    requires call.added == Get(s.tools, index).Some?
    requires call.added ==> call.id == before.id && call.name == before.name
    requires next == s.(aggregate := next.aggregate, tools := Put(s.tools, index, Announced(call)),
                        log := s.log + ToolEvents(s, index, call, arguments))
    ensures Live(next)
  {
    hide Streaming, CallItem, ToolEvents, Opening, Delta, ItemAt, Put, Get, At, Live, Indexed;
    var p := s.ToolBase() + index;
    LiveIsSorted(s);
    ToolStreamContinues(s, index, before, call, arguments);
    ToolItems(s, next, index, Announced(call));
    ToolEventsShape(s, index, call, arguments);
    LiveExtends(s, next, p, CallItem(s.names, Announced(call)), ToolEvents(s, index, call, arguments));
  }

  // The stop reason closes every item.

  lemma CallClosingsStep(names: map<string, ToolIdentity>, base: nat, tools: Table<ToolCall>, p: nat)
    requires tools != []
    ensures At(CallClosings(names, base, tools), p)
         == (if p == base + tools[0].key then Closing(CallItem(names, tools[0].value), p) else [])
            + At(CallClosings(names, base, tools[1..]), p)
  {
    var head := CallClosing(names, base + tools[0].key, tools[0].value);
    AtConcat(head, CallClosings(names, base, tools[1..]), p);
    AtAll(head, p, base + tools[0].key);
  }

  /** What the closings of a table put at index `p`. */
  function ClosingOf(names: map<string, ToolIdentity>, call: Option<ToolCall>, p: nat): seq<OutEvent> {
    if call.Some? then Closing(CallItem(names, call.value), p) else []
  }

  lemma {:induction false} CallClosingsAt(names: map<string, ToolIdentity>, base: nat, tools: Table<ToolCall>, p: nat)
    requires Sorted(tools)
    ensures At(CallClosings(names, base, tools), p)
         == if p >= base then ClosingOf(names, Get(tools, p - base), p) else []
  {
    if tools != [] {
      CallClosingsStep(names, base, tools, p);
      CallClosingsAt(names, base, tools[1..], p);
      if base <= p <= base + tools[0].key {
        NotBefore(tools[1..], p - base);
      }
    }
  }

  lemma NotBefore<V>(tools: Table<V>, key: nat)
    requires Sorted(tools) && forall e :: e in tools ==> key < e.key
    ensures Get(tools, key).None?
  {
    if tools != [] {
      assert tools[0] in tools;
    }
  }

  lemma AtFour(a: seq<OutEvent>, b: seq<OutEvent>, c: seq<OutEvent>, d: seq<OutEvent>, p: nat)
    ensures At(a + b + c + d, p) == At(a, p) + At(b, p) + At(c, p) + At(d, p)
  {
    AtConcat(a, b, p);
    AtConcat(a + b, c, p);
    AtConcat(a + b + c, d, p);
  }

  lemma ReasoningClosingsAt(s: Emitter, p: nat)
    ensures At(ReasoningClosings(s), p) == if p == 0 then ReasoningClosings(s) else []
  {
    AtAll(ReasoningClosings(s), p, 0);
  }

  lemma MessageClosingsAt(s: Emitter, p: nat)
    ensures At(MessageClosings(s), p) == if p == s.MessageIndex() then MessageClosings(s) else []
  {
    AtAll(MessageClosings(s), p, s.MessageIndex());
  }

  lemma ClosingsAt(s: Emitter, p: nat)
    requires Sorted(s.tools)
    ensures At(FinishItems(s).log, p)
         == At(s.log, p) + if ItemAt(s, p).Some? then Closing(ItemAt(s, p).value, p) else []
  {
    var r, m, c := ReasoningClosings(s), MessageClosings(s), CallClosings(s.names, s.ToolBase(), s.tools);
    var atR, atM, atC := At(r, p), At(m, p), At(c, p);
    AtFour(s.log, r, m, c, p);
    ReasoningClosingsAt(s, p);
    MessageClosingsAt(s, p);
    CallClosingsAt(s.names, s.ToolBase(), s.tools, p);
    OwnedClosings(s, p, atR, atM, atC);
  }

  lemma OwnedClosings(s: Emitter, p: nat, r: seq<OutEvent>, m: seq<OutEvent>, c: seq<OutEvent>)
    requires r == if p == 0 then ReasoningClosings(s) else []
    requires m == if p == s.MessageIndex() then MessageClosings(s) else []
    requires c == if p >= s.ToolBase() then ClosingOf(s.names, Get(s.tools, p - s.ToolBase()), p) else []
    ensures forall log :: log + r + m + c == log + if ItemAt(s, p).Some? then Closing(ItemAt(s, p).value, p) else []
  {
  }

  lemma FinishItemsSettles(s: Emitter)
    requires Live(s)
    ensures Settled(FinishItems(s))
  {
    forall p: nat ensures SettledAt(FinishItems(s), p) {
      assert LiveAt(s, p);
      ClosingsAt(s, p);
      assert ItemAt(FinishItems(s), p) == ItemAt(s, p);
      if ItemAt(s, p).Some? {
        Closes(At(s.log, p), ItemAt(s, p).value, p);
      }
    }
  }

  // The run.

  /** Live before the stop reason, settled from it on. */
  ghost predicate Phase(s: Emitter) {
    if s.finishReason.None? then Live(s) && !s.terminal else Settled(s)
  }

  /** Events without an output index, and changes to nothing an item shows, keep the phase. */
  lemma PhaseKept(s: Emitter, next: Emitter, tail: seq<OutEvent>)
    requires Phase(s) && next.log == s.log + tail && forall e :: e in tail ==> e.Created? || e.Terminal?
    requires next.finishReason == s.finishReason && (next.terminal ==> s.finishReason.Some?)
    requires next.tools == s.tools && forall p: nat :: ItemAt(next, p) == ItemAt(s, p)
    ensures Phase(next)
  {
    forall p: nat ensures At(next.log, p) == At(s.log, p) {
      AtConcat(s.log, tail, p);
      AtNone(tail, p);
    }
    if s.finishReason.None? {
      forall p: nat ensures LiveAt(next, p) { assert LiveAt(s, p); }
    } else {
      forall p: nat ensures SettledAt(next, p) { assert SettledAt(s, p); }
    }
  }

  lemma {:induction false} AtNone(events: seq<OutEvent>, p: nat)
    requires forall e :: e in events ==> e.Created? || e.Terminal?
    ensures At(events, p) == []
  {
    if events != [] {
      assert events[0] in events;
      AtNone(events[1..], p);
    }
  }

  lemma StopPhase(s: Emitter, reason: string)
    requires Phase(s) && Apply(s, Stop(reason)).error.None?
    ensures Phase(Apply(s, Stop(reason)).state)
  {
    var r := Reserve(s, |reason|).value.(finishReason := Some(reason));
    forall p: nat ensures LiveAt(r, p) {
      assert LiveAt(s, p) && ItemAt(r, p) == ItemAt(s, p);
    }
    FinishItemsSettles(r);
  }

  lemma StartOrUsagePhase(s: Emitter, event: StreamEvent)
    requires event.Start? || event.Usage?
    requires Phase(s) && Apply(s, event).error.None?
    ensures Phase(Apply(s, event).state)
  {
    PhaseKept(s, Apply(s, event).state, if event.Usage? || s.responseId.Some? then [] else [Created(event.id)]);
  }

  lemma FinalizePhase(s: Emitter)
    requires Phase(s) && s.finishReason.Some?
    ensures Phase(Finalize(s)) && forall p: nat :: ItemAt(Finalize(s), p) == ItemAt(s, p)
  {
    if !s.terminal {
      PhaseKept(s, Finalize(s), [Finalize(s).log[|s.log|]]);
    }
  }

  lemma InOrderStep(s: Emitter, event: StreamEvent)
    requires Phase(s) && Conserved(s) && InOrder(s, event) && Apply(s, event).error.None?
    ensures Phase(Apply(s, event).state)
  {
    match event
    case Text(text) => if text != "" { TextLive(s, text); }
    case Reasoning(text) => if text != "" { ReasoningLive(s, text); }
    case Tool(index, callId, name, arguments) => ToolLive(s, index, callId, name, arguments);
    case Stop(reason) => StopPhase(s, reason);
    case Done => FinalizePhase(s);
    case _ => StartOrUsagePhase(s, event);
  }

  lemma {:induction false} OrderlyRun(s: Emitter, events: seq<StreamEvent>)
    requires Phase(s) && Lawful(s) && Orderly(s, events)
    ensures Phase(Run(s, events)) && Lawful(Run(s, events))
    decreases |events|
  {
    if events != [] {
      InOrderStep(s, events[0]);
      ApplyLawful(s, events[0]);
      OrderlyRun(Apply(s, events[0]).state, events[1..]);
    }
  }

  /** With tools numbered 0, 1, 2, ... the item that owns index `p` is the `p`-th of the output array. */
  lemma OwnerIsPosition(s: Emitter, p: nat)
    requires Dense(s.tools)
    ensures ItemAt(s, p) == if p < |ResponseOutput(s)| then Some(ResponseOutput(s)[p]) else None
  {
    if s.tools == [] {
    } else if p >= s.ToolBase() && p - s.ToolBase() < |s.tools| {
      CallsAreReported(s, p - s.ToolBase());
    } else {
      CallsAreReported(s, 0);
    }
    if p >= s.ToolBase() {
      DenseGet(s.tools, p - s.ToolBase());
    }
  }

  lemma OrderlyStreamSettles(s: Emitter, events: seq<StreamEvent>)
    requires s.log == [] && s.tools == [] && !s.reasoningStarted && !s.textStarted && s.finishReason.None?
    requires Lawful(s) && !s.terminal && Orderly(s, events) && Finish(Run(s, events)).terminal
    ensures Settled(Finish(Run(s, events))) && Lawful(Finish(Run(s, events)))
  {
    forall q: nat ensures LiveAt(s, q) { }
    OrderlyRun(s, events);
    var run := Run(s, events);
    if !run.terminal {
      FinalizePhase(run);
      FinalizeLawful(run);
    }
  }

  /**
   Main result: after an orderly stream, closed with or without an explicit end mark, the terminal
   event's output array lists the items at their output indices: the events carrying index p are
   the whole life of item p and nothing else, and no event carries an index beyond the array.
   */
  lemma {:induction false} ItemsLiveAtTheirPosition(limit: nat, names: map<string, ToolIdentity>, seed: string,
      fallbackId: string, events: seq<StreamEvent>, p: nat)
    ensures var initial := NewEmitter(limit, names, seed, fallbackId);
            var s := Finish(Run(initial, events));
            Orderly(initial, events) && s.terminal && Dense(s.tools) ==>
              && s.log != [] && s.log[|s.log| - 1].Terminal?
              && var output := s.log[|s.log| - 1].output;
                 if p < |output| then Lived(At(s.log, p), output[p], p) else At(s.log, p) == []
  {
    var initial := NewEmitter(limit, names, seed, fallbackId);
    var s := Finish(Run(initial, events));
    if Orderly(initial, events) && s.terminal && Dense(s.tools) {
      OrderlyStreamSettles(initial, events);
      assert SettledAt(s, p);
      OwnerIsPosition(s, p);
    }
  }

  // When the message is announced at its final place.

  /** No reasoning starts once text has started. */
  predicate ReasoningFirst(s: Emitter, events: seq<StreamEvent>)
    decreases |events|
  {
    events == [] ||
    ((events[0].Reasoning? && events[0].text != "" && !s.terminal ==> s.reasoningStarted || !s.textStarted)
     && ReasoningFirst(Apply(s, events[0]).state, events[1..]))
  }

  predicate MessageAddedAt(s: Emitter, index: nat) { ItemAdded(index, MessageItem(s.messageId, None)) in s.log }

  lemma {:induction false} CallClosingsAddNothing(names: map<string, ToolIdentity>, base: nat, tools: Table<ToolCall>)
    ensures forall e :: e in CallClosings(names, base, tools) ==> !e.ItemAdded?
  {
    if tools != [] {
      CallClosingsAddNothing(names, base, tools[1..]);
    }
  }

  /** What a step does to the announcement of the message. */
  ghost predicate MessageStep(s: Emitter, next: Emitter, index: nat) {
    && next.messageId == s.messageId
    && (s.textStarted ==> next.textStarted) && (s.reasoningStarted ==> next.reasoningStarted)
    && (MessageAddedAt(next, index) <==>
        MessageAddedAt(s, index) || (!s.textStarted && next.textStarted && index == s.MessageIndex()))
  }

  lemma TextMessageStep(s: Emitter, text: string, index: nat)
    ensures MessageStep(s, ApplyText(s, text).state, index)
  {
    assert MessageStep(s, StartText(s), index);
  }

  lemma ReasoningMessageStep(s: Emitter, text: string, index: nat)
    ensures MessageStep(s, ApplyReasoning(s, text).state, index)
  {
    assert MessageStep(s, StartReasoning(s), index);
  }

  lemma ToolMessageStep(s: Emitter, event: StreamEvent, index: nat)
    requires event.Tool?
    ensures MessageStep(s, Apply(s, event).state, index)
  {
    if Apply(s, event).error.None? {
      AcceptedTool(s, event.index, event.callId, event.name, event.arguments);
    }
  }

  lemma FinishItemsMessageStep(s: Emitter, index: nat)
    ensures MessageStep(s, FinishItems(s), index)
  {
    CallClosingsAddNothing(s.names, s.ToolBase(), s.tools);
    assert forall e :: e in ReasoningClosings(s) + MessageClosings(s) ==> !e.ItemAdded?;
  }

  lemma StopMessageStep(s: Emitter, reason: string, index: nat)
    ensures MessageStep(s, Apply(s, Stop(reason)).state, index)
  {
    if Apply(s, Stop(reason)).error.None? {
      FinishItemsMessageStep(Reserve(s, |reason|).value.(finishReason := Some(reason)), index);
    }
  }

  /** A message is announced once: by the first text, at the index it would have at that moment. */
  lemma MessageAddedOnce(s: Emitter, event: StreamEvent, index: nat)
    ensures MessageStep(s, Apply(s, event).state, index)
  {
    match event
    case Text(text) => TextMessageStep(s, text, index);
    case Reasoning(text) => ReasoningMessageStep(s, text, index);
    case Tool(_, _, _, _) => ToolMessageStep(s, event, index);
    case Stop(reason) => StopMessageStep(s, reason, index);
    case _ =>
  }

  lemma {:induction false} PlacedIff(s: Emitter, events: seq<StreamEvent>)
    requires if s.textStarted then MessageAddedAt(s, 0) != MessageAddedAt(s, 1)
        && (MessageAddedAt(s, 1) ==> s.reasoningStarted)
             else !MessageAddedAt(s, 0) && !MessageAddedAt(s, 1)
    ensures var end := Run(s, events);
            end.textStarted ==>
              (MessageAddedAt(end, end.MessageIndex()) <==>
                 (s.textStarted ==> MessageAddedAt(s, s.MessageIndex())) && ReasoningFirst(s, events))
    decreases |events|
  {
    if events != [] {
      var next := Apply(s, events[0]).state;
      MessageAddedOnce(s, events[0], 0);
      MessageAddedOnce(s, events[0], 1);
      PlacedIff(next, events[1..]);
      if next.reasoningStarted != s.reasoningStarted {
        assert events[0].Reasoning? && events[0].text != "" && !s.terminal && next.textStarted == s.textStarted;
      }
    }
  }

  /**
   Without the ordering hypothesis the positions can be wrong, and exactly then: the message is
   announced at the index it ends up with if and only if no reasoning starts after text.
   */
  lemma MessageIsPlacedIffReasoningComesFirst(limit: nat, names: map<string, ToolIdentity>, seed: string,
      fallbackId: string, events: seq<StreamEvent>)
    ensures var s := Run(NewEmitter(limit, names, seed, fallbackId), events);
            s.textStarted ==> (MessageAddedAt(s, s.MessageIndex()) <==>
                ReasoningFirst(NewEmitter(limit, names, seed, fallbackId), events))
  {
    PlacedIff(NewEmitter(limit, names, seed, fallbackId), events);
  }
}
