/** Where a tool call is announced, and where it ends up, in any run whatever. */
module OutputPlacement {
  import opened Wrappers
  import opened OrderedTable
  import opened OutputModel
  import opened OutputLaws
  import opened OutputLifecycle
  import opened OutputStop

  /** The event makes the call at tool index `k` known to the client. */
  predicate AnnouncesCall(s: Emitter, event: StreamEvent, k: nat) {
    && event.Tool? && event.index == k && Apply(s, event).error.None?
    && Announces(Merged(Get(s.tools, k).GetOr(NO_CALL), event.callId, event.name, event.arguments))
  }

  /** The output index of the `ItemAdded` a run emits in answer to tool `k`, if it emits one. */
  function AnnouncedIndex(s: Emitter, events: seq<StreamEvent>, k: nat): Option<nat>
    decreases |events|
  {
    if events == [] then None
    else
      var next := Apply(s, events[0]).state;
      if AnnouncesCall(s, events[0], k) then
        var added := Emitted(s, events[0]);
        if added != [] && added[0].ItemAdded? then Some(added[0].outputIndex) else None
      else AnnouncedIndex(next, events[1..], k)
  }

  /** Whether the event starts the reasoning or the message item. */
  function Starts(s: Emitter, event: StreamEvent): nat {
    if s.terminal then 0
    else if event.Text? && event.text != "" && !s.textStarted then 1
    else if event.Reasoning? && event.text != "" && !s.reasoningStarted then 1
    else 0
  }

  function StartsIn(s: Emitter, events: seq<StreamEvent>): nat
    decreases |events|
  {
    if events == [] then 0 else Starts(s, events[0]) + StartsIn(Apply(s, events[0]).state, events[1..])
  }

  /** How many of reasoning and message start after tool `k` is announced. */
  function StartsAfter(s: Emitter, events: seq<StreamEvent>, k: nat): nat
    decreases |events|
  {
    if events == [] then 0
    else
      var next := Apply(s, events[0]).state;
      if AnnouncesCall(s, events[0], k) then StartsIn(next, events[1..]) else StartsAfter(next, events[1..], k)
  }

  lemma StepMovesBase(s: Emitter, event: StreamEvent)
    ensures Apply(s, event).state.ToolBase() == s.ToolBase() + Starts(s, event)
  {
    hide ToolEvents, CallClosings, ReasoningClosings, MessageClosings, Merged, ResponseOutput, UsageLength, StatusOf,
        Put;
  }

  lemma {:induction false} RunMovesBase(s: Emitter, events: seq<StreamEvent>)
    ensures Run(s, events).ToolBase() == s.ToolBase() + StartsIn(s, events)
    decreases |events|
  {
    if events != [] {
      StepMovesBase(s, events[0]);
      hide Apply, Starts;
      RunMovesBase(Apply(s, events[0]).state, events[1..]);
    }
  }

  /** The announcement carries the index the call has at that moment. */
  lemma AnnouncedAtBase(s: Emitter, event: StreamEvent, k: nat)
    requires AnnouncesCall(s, event, k)
    ensures var next := Apply(s, event).state;
            && Emitted(s, event) != [] && Emitted(s, event)[0].ItemAdded?
            && Emitted(s, event)[0].outputIndex == s.ToolBase() + k
            && Get(next.tools, k).Some? && Get(next.tools, k).value.added
            && next.ToolBase() == s.ToolBase()
            && var call := Get(next.tools, k).value;
               Emitted(s, event)[0].item == FunctionCallItem(call.id, IdentityOf(s.names, call.name), "", false)
  {
    AcceptedTool(s, event.index, event.callId, event.name, event.arguments);
    var call := Merged(Get(s.tools, k).GetOr(NO_CALL), event.callId, event.name, event.arguments);
    GetPut(s.tools, k, Announced(call), k);
  }

  lemma StepKeepsAdded(s: Emitter, event: StreamEvent, k: nat)
    requires Get(s.tools, k).GetOr(NO_CALL).added
    ensures Get(Apply(s, event).state.tools, k).GetOr(NO_CALL).added && !AnnouncesCall(s, event, k)
  {
    hide ToolEvents, CallClosings, ReasoningClosings, MessageClosings, ResponseOutput, UsageLength, StatusOf;
    if event.Tool? {
      var call := Merged(Get(s.tools, event.index).GetOr(NO_CALL), event.callId, event.name, event.arguments);
      GetPut(s.tools, event.index, Announced(call), k);
    }
  }

  /** A call is announced once: after that the run emits no second announcement for it. */
  lemma {:induction false} AnnouncedOnce(s: Emitter, events: seq<StreamEvent>, k: nat)
    requires Get(s.tools, k).GetOr(NO_CALL).added
    ensures AnnouncedIndex(s, events, k).None?
    decreases |events|
  {
    if events != [] {
      StepKeepsAdded(s, events[0], k);
      hide Apply, AnnouncesCall;
      AnnouncedOnce(Apply(s, events[0]).state, events[1..], k);
    }
  }

  /** Main law: the announced index and the final one differ by exactly what starts in between. */
  lemma {:induction false} AnnouncedIndexIsShort(s: Emitter, events: seq<StreamEvent>, k: nat)
    ensures AnnouncedIndex(s, events, k).Some? ==>
              AnnouncedIndex(s, events, k).value + StartsAfter(s, events, k) == Run(s, events).ToolBase() + k
    decreases |events|
  {
    if events != [] {
      var next := Apply(s, events[0]).state;
      if AnnouncesCall(s, events[0], k) {
        AnnouncedAtBase(s, events[0], k);
        RunMovesBase(next, events[1..]);
      } else {
        AnnouncedIndexIsShort(next, events[1..], k);
      }
      hide Apply, AnnouncesCall;
    }
  }

  /**
   Without any ordering hypothesis: a call is announced at its final index if and only if neither
   reasoning nor the message starts afterwards; and it is announced at its place in the terminal
   output array if and only if as many of them start afterwards as tool indices below its own stay
   unused, which for densely numbered tools is again none.
   */
  lemma CallIsPlacedIffNothingStartsAfter(limit: nat, names: map<string, ToolIdentity>, seed: string,
      fallbackId: string, events: seq<StreamEvent>, k: nat, j: nat)
    ensures var start := NewEmitter(limit, names, seed, fallbackId);
            var end := Finish(Run(start, events)); var announced := AnnouncedIndex(start, events, k);
            announced.Some? && j < |end.tools| && end.tools[j].key == k ==>
              && j <= k && |ResponseOutput(end)| == end.ToolBase() + |end.tools|
              && ResponseOutput(end)[end.ToolBase() + j] == CallItem(end.names, end.tools[j].value)
              && (announced.value == end.ToolBase() + k <==> StartsAfter(start, events, k) == 0)
              && (announced.value == end.ToolBase() + j <==> StartsAfter(start, events, k) == k - j)
              && (Dense(end.tools) ==> (announced.value == end.ToolBase() + j <==> StartsAfter(start, events, k) == 0))
  {
    hide Run, Finish, AnnouncedIndex, StartsAfter, ResponseOutput, CallItem, TextOf, ReasoningOf;
    var start := NewEmitter(limit, names, seed, fallbackId);
    var end := Finish(Run(start, events));
    EveryRunIsLawful(limit, names, seed, fallbackId, events);
    AnnouncedIndexIsShort(start, events, k);
    FinishKeepsBase(Run(start, events));
    if j < |end.tools| {
      CallsAreReported(end, j);
      KeysLeadPositions(end.tools, j);
    }
  }

  lemma FinishKeepsBase(s: Emitter)
    ensures Finish(s).ToolBase() == s.ToolBase()
  {
    hide ReasoningClosings, MessageClosings, CallClosings, ResponseOutput;
  }

  lemma {:induction false} KeysLeadPositions<V>(t: Table<V>, j: nat)
    requires Sorted(t) && j < |t|
    ensures j <= t[j].key
  {
    if j > 0 {
      KeysLeadPositions(t, j - 1);
      assert t[j - 1].key < t[j].key;
    }
  }

  /**
   Two wrongs that look right: a call with tool index 1 and no call 0, announced before any text, is
   announced at index 1; the message that starts later moves its array place to just there.
   */
  lemma UnusedIndexCanHideALateStart(seed: string, fallbackId: string)
    ensures var start := NewEmitter(100, map[], seed, fallbackId);
            var events := [Tool(1, Some("c"), Some("f"), None), Text("t")];
            var end := Run(start, events);
            && AnnouncedIndex(start, events, 1) == Some(1) && StartsAfter(start, events, 1) == 1
            && |end.tools| == 1 && end.tools[0].key == 1 && end.ToolBase() + 0 == 1
  {
    var start := NewEmitter(100, map[], seed, fallbackId);
    var events := [Tool(1, Some("c"), Some("f"), None), Text("t")];
    var called := Apply(start, events[0]).state;
    assert Put(start.tools, 1, ToolCall("c", "f", "", true)) == [Entry(1, ToolCall("c", "f", "", true))];
    assert |"c"| == 1 && "" + "f" == "f" && "" + "" == "";
    assert Merged(NO_CALL, Some("c"), Some("f"), None) == ToolCall("c", "f", "", false);
    assert called.tools == [Entry(1, ToolCall("c", "f", "", true))];
    AnnouncedAtBase(start, events[0], 1);
    assert events[1..] == [Text("t")] && events[1..][1..] == [];
    var said := Apply(called, Text("t")).state;
    assert Run(called, [Text("t")]) == said by { assert [Text("t")][1..] == []; }
    assert StartsIn(called, [Text("t")]) == 1;
  }

  // Late names.

  lemma StepAddsIffAnnounces(s: Emitter, event: StreamEvent, k: nat)
    requires !Get(s.tools, k).GetOr(NO_CALL).added
    ensures Get(Apply(s, event).state.tools, k).GetOr(NO_CALL).added <==> AnnouncesCall(s, event, k)
  {
    hide ToolEvents, CallClosings, ReasoningClosings, MessageClosings, ResponseOutput, UsageLength, StatusOf, Put, Get;
    if event.Tool? {
      var call := Merged(Get(s.tools, event.index).GetOr(NO_CALL), event.callId, event.name, event.arguments);
      GetPut(s.tools, event.index, Announced(call), k);
    }
  }

  lemma {:induction false} AddedStays(s: Emitter, events: seq<StreamEvent>, k: nat)
    requires Get(s.tools, k).GetOr(NO_CALL).added
    ensures Get(Run(s, events).tools, k).GetOr(NO_CALL).added
    decreases |events|
  {
    if events != [] {
      StepKeepsAdded(s, events[0], k);
      hide Apply;
      AddedStays(Apply(s, events[0]).state, events[1..], k);
    }
  }

  /** A call is announced in a run exactly when it ends up added: once it has an id and a name at the same time. */
  lemma {:induction false} AnnouncedIffAdded(s: Emitter, events: seq<StreamEvent>, k: nat)
    requires !Get(s.tools, k).GetOr(NO_CALL).added
    ensures AnnouncedIndex(s, events, k).Some? <==> Get(Run(s, events).tools, k).GetOr(NO_CALL).added
    decreases |events|
  {
    if events != [] {
      StepAddsIffAnnounces(s, events[0], k);
      var next := Apply(s, events[0]).state;
      if AnnouncesCall(s, events[0], k) {
        AnnouncedAtBase(s, events[0], k);
        AddedStays(next, events[1..], k);
      }
      hide Apply, AnnouncesCall, Emitted;
      if !AnnouncesCall(s, events[0], k) {
        AnnouncedIffAdded(next, events[1..], k);
      }
    }
  }

  /**
   Every call known at the stop reason is reported done, whatever is known of it; it was added before if
   and only if it had an id and a name at the same time.
   */
  lemma ClosedCallWasAddedIff(limit: nat, names: map<string, ToolIdentity>, seed: string, fallbackId: string,
                              before: seq<StreamEvent>, reason: string, i: nat)
    ensures var start := NewEmitter(limit, names, seed, fallbackId);
            var stop := Apply(Run(start, before), Stop(reason));
            stop.error.None? && i < |stop.state.tools| ==>
              && CallItem(names, stop.state.tools[i].value) in DoneItems(stop.state.log)
              && (AnnouncedIndex(start, before, stop.state.tools[i].key).Some? <==> stop.state.tools[i].value.added)
  {
    var start := NewEmitter(limit, names, seed, fallbackId);
    var s := Run(start, before);
    var stop := Apply(s, Stop(reason));
    if stop.error.None? && i < |stop.state.tools| {
      hide Run, Apply, DoneItems, ResponseOutput, CallItem;
      NothingDoneBeforeStop(start, before);
      StopSetsReason(s, Stop(reason));
      StopReportsOutput(s, reason);
      OtherKeepsItems(s, Stop(reason));
      RunsAreLawful(limit, names, seed, fallbackId, before, reason, []);
      CallsAreReported(stop.state, i);
      GetAt(stop.state.tools, i);
      AnnouncedIffAdded(start, before, stop.state.tools[i].key);
      RunKeepsNames(start, before);
    }
  }

  /** A call that never gets a name is reported done without having been added. */
  lemma NamelessCallIsClosedUnadded(seed: string, fallbackId: string)
    ensures var start := NewEmitter(100, map[], seed, fallbackId);
            var events := [Tool(0, Some("c"), None, None)];
            var stop := Apply(Run(start, events), Stop("stop"));
            && stop.error.None? && |stop.state.tools| == 1 && AnnouncedIndex(start, events, 0).None?
            && CallItem(map[], stop.state.tools[0].value) in DoneItems(stop.state.log)
  {
    var start := NewEmitter(100, map[], seed, fallbackId);
    var events := [Tool(0, Some("c"), None, None)];
    var call := ToolCall("c", "", "", false);
    assert |"c"| == 1 && |"stop"| == 4 && "" + "" == "";
    assert Merged(NO_CALL, Some("c"), None, None) == call && Announced(call) == call;
    AcceptedTool(start, 0, Some("c"), None, None);
    var called := Apply(start, events[0]).state;
    assert called.tools == [Entry(0, call)] && called.aggregate == 1;
    assert events[1..] == [] && Run(start, events) == called;
    StopAccepted(called, "stop");
    hide Apply, Run, AnnouncedIndex;
    ClosedCallWasAddedIff(100, map[], seed, fallbackId, events, "stop", 0);
  }

  /** The state and the events left after the announcement of tool `k`. */
  function SinceAnnounced(s: Emitter, events: seq<StreamEvent>, k: nat): Option<(Emitter, seq<StreamEvent>)>
    decreases |events|
  {
    if events == [] then None
    else
      var next := Apply(s, events[0]).state;
      if AnnouncesCall(s, events[0], k) then Some((next, events[1..])) else SinceAnnounced(next, events[1..], k)
  }

  /** The accepted name parts for tool `k`, joined. */
  function NameParts(s: Emitter, events: seq<StreamEvent>, k: nat): string
    decreases |events|
  {
    if events == [] then ""
    else
      var e := events[0];
      (if e.Tool? && e.index == k && Apply(s, e).error.None? then e.name.GetOr("") else "")
      + NameParts(Apply(s, e).state, events[1..], k)
  }

  /** The last accepted id for tool `k`, or this one. */
  function LastId(s: Emitter, events: seq<StreamEvent>, k: nat, id: string): string
    decreases |events|
  {
    if events == [] then id
    else
      var e := events[0];
      LastId(Apply(s, e).state, events[1..], k,
             if e.Tool? && e.index == k && Apply(s, e).error.None? then e.callId.GetOr(id) else id)
  }

  lemma {:induction false} NamingIsParts(s: Emitter, events: seq<StreamEvent>, k: nat, n: Naming)
    ensures NamingAfter(s, events, k, n) == Naming(LastId(s, events, k, n.id), n.name + NameParts(s, events, k))
    decreases |events|
  {
    if events != [] {
      hide Apply;
      var e := events[0];
      var part := if e.Tool? && e.index == k && Apply(s, e).error.None? then e.name.GetOr("") else "";
      var id := if e.Tool? && e.index == k && Apply(s, e).error.None? then e.callId.GetOr(n.id) else n.id;
      NamingIsParts(Apply(s, e).state, events[1..], k, Naming(id, n.name + part));
      Associative(n.name, part, NameParts(Apply(s, e).state, events[1..], k));
      assert n.name + "" == n.name;
    }
  }

  /** The announced id and name are final if and only if nothing accepted afterwards changes them for good. */
  lemma {:induction false} AnnouncedNameIsFinalIff(s: Emitter, events: seq<StreamEvent>, k: nat)
    ensures match SinceAnnounced(s, events, k)
            case None => true
            case Some((t, rest)) =>
              var announced := NamingOf(Get(t.tools, k).GetOr(NO_CALL));
              var final := NamingOf(Get(Run(s, events).tools, k).GetOr(NO_CALL));
              && (final.name == announced.name <==> NameParts(t, rest, k) == "")
              && (final.id == announced.id <==> LastId(t, rest, k, announced.id) == announced.id)
    decreases |events|
  {
    if events != [] {
      var next := Apply(s, events[0]).state;
      hide Apply, AnnouncesCall;
      if AnnouncesCall(s, events[0], k) {
        var announced := NamingOf(Get(next.tools, k).GetOr(NO_CALL));
        RunNames(next, events[1..], k);
        NamingIsParts(next, events[1..], k, announced);
        var parts := NameParts(next, events[1..], k);
        assert |announced.name + parts| == |announced.name| + |parts|;
      } else {
        AnnouncedNameIsFinalIff(next, events[1..], k);
      }
    }
  }
}
