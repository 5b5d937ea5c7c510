/** The emitter as the source runs it: fields updated in place, proved against `OutputModel`. */
module OutputStream {
  import opened Wrappers
  import opened OrderedTable
  import opened OutputModel
  import Model = OutputModel

  lemma ToolAccepted(s: Emitter, resized: Emitter, index: nat, callId: Option<string>, name: Option<string>,
      arguments: Option<string>)
    requires var before := Get(s.tools, index).GetOr(NO_CALL);
             && (Get(s.tools, index).Some? || |s.tools| < MAX_STREAM_TOOL_CALLS)
             && var nextId := if callId.Some? then |callId.value| else |before.id|;
                Resize(s, |before.id|, nextId + Len(name) + Len(arguments))
                  == Some(resized)
    ensures var merged := Merged(Get(s.tools, index).GetOr(NO_CALL), callId, name, arguments);
            ApplyTool(s, index, callId, name, arguments) == Applied(StoreCall(resized, index, merged, arguments), None)
  {
  }

  class OutputEmitter {
    const limit: nat
    const reasoningId: string
    const messageId: string
    const fallbackId: string
    const names: map<string, ToolIdentity>
    var pending: seq<OutEvent>
    var aggregateBytes: nat
    var responseId: Option<string>
    var reasoning: string
    var text: string
    var tools: Table<ToolCall>
    var reasoningStarted: bool
    var textStarted: bool
    var finishReason: Option<string>
    var usage: Option<TokenUsage>
    var usageBytes: nat
    var terminal: bool
    var completed: bool
    /** What `Drain` has handed out so far. */
    ghost var delivered: seq<OutEvent>

    ghost function View(): Emitter
      reads this
    {
      Emitter(limit, aggregateBytes, responseId, reasoningId, messageId, fallbackId, reasoning, text, tools, names,
              reasoningStarted, textStarted, finishReason, usage, usageBytes, terminal, completed, delivered + pending)
    }

    constructor (maxBufferBytes: nat, toolNames: map<string, ToolIdentity>, seed: string, fallbackId: string)
      ensures View() == NewEmitter(maxBufferBytes, toolNames, seed, fallbackId)
      ensures delivered == [] && pending == []
    {
      limit, names, this.fallbackId := maxBufferBytes, toolNames, fallbackId;
      reasoningId, messageId := "rs_" + seed, "msg_" + seed;
      pending, delivered, aggregateBytes, responseId := [], [], 0, None;
      reasoning, text, tools, reasoningStarted, textStarted := "", "", [], false, false;
      finishReason, usage, usageBytes, terminal, completed := None, None, 0, false, false;
    }

    /** Hands out the pending events; the state they came from is untouched. */
    method Drain() returns (events: seq<OutEvent>)
      modifies this`pending, this`delivered
      ensures events == old(pending) && pending == [] && delivered == old(delivered) + events
      ensures View() == old(View())
    {
      events := pending;
      delivered := delivered + pending;
      pending := [];
      assert delivered + pending == old(delivered + pending);
    }

    method Emit(events: seq<OutEvent>)
      modifies this`pending
      ensures View() == old(View()).Emit(events)
    {
      pending := pending + events;
      assert delivered + pending == old(delivered + pending) + events;
    }

    method ResizeAggregateBytes(previous: nat, next: nat) returns (error: Option<OutputError>)
      modifies this`aggregateBytes
      ensures match Resize(old(View()), previous, next)
              case None => error == Some(StreamStateLimit) && View() == old(View())
              case Some(resized) => error == None && View() == resized
    {
      var resized := SaturatingSub(aggregateBytes, previous) + next;
      if resized > limit {
        return Some(StreamStateLimit);
      }
      aggregateBytes := resized;
      return None;
    }

    method ReserveAggregateBytes(additional: nat) returns (error: Option<OutputError>)
      modifies this`aggregateBytes
      ensures match Reserve(old(View()), additional)
              case None => error == Some(StreamStateLimit) && View() == old(View())
              case Some(resized) => error == None && View() == resized
    {
      var next := aggregateBytes + additional;
      if next > limit {
        return Some(StreamStateLimit);
      }
      aggregateBytes := next;
      return None;
    }

    function MessageOutputIndex(): nat
      reads this
    {
      if reasoningStarted then 1 else 0
    }

    function ToolOutputIndex(toolIndex: nat): nat
      reads this
    {
      (if reasoningStarted then 1 else 0) + (if textStarted then 1 else 0) + toolIndex
    }

    method StartReasoningItem()
      modifies this`pending, this`reasoningStarted
      ensures View() == StartReasoning(old(View()))
    {
      if reasoningStarted {
        return;
      }
      reasoningStarted := true;
      Emit([ItemAdded(0, ReasoningItem(reasoningId, None)), SummaryPartAdded(reasoningId, 0)]);
    }

    method StartTextItem()
      modifies this`pending, this`textStarted
      ensures View() == StartText(old(View()))
    {
      if textStarted {
        return;
      }
      textStarted := true;
      var index := MessageOutputIndex();
      Emit([ItemAdded(index, MessageItem(messageId, None)), ContentPartAdded(messageId, index)]);
    }

    method ApplyToolDelta(index: nat, callId: Option<string>, name: Option<string>, arguments: Option<string>)
      returns (error: Option<OutputError>)
      modifies this`pending, this`aggregateBytes, this`tools
      ensures Applied(View(), error) == ApplyTool(old(View()), index, callId, name, arguments)
    {
      var previous := Get(tools, index);
      if previous.None? && |tools| >= MAX_STREAM_TOOL_CALLS {
        return Some(StreamStateLimit);
      }
      var before := previous.GetOr(NO_CALL);
      var nextIdBytes := if callId.Some? then |callId.value| else |before.id|;
      error := ResizeAggregateBytes(|before.id|, nextIdBytes + Len(name) + Len(arguments));
      if error.None? {
        ToolAccepted(old(View()), View(), index, callId, name, arguments);
        var state, announce := MergeDelta(before, callId, name, arguments);
        StoreToolCall(Merged(before, callId, name, arguments), index, state, announce, arguments);
      }
    }

    /** The call after one delta, and whether this delta completed its name and id. */
    method MergeDelta(before: ToolCall, callId: Option<string>, name: Option<string>, arguments: Option<string>)
      returns (state: ToolCall, announce: bool)
      ensures var merged := Merged(before, callId, name, arguments);
              state == Announced(merged) && announce == Announces(merged)
    {
      state := before;
      if callId.Some? {
        state := state.(id := callId.value);
      }
      if name.Some? {
        state := state.(name := state.name + name.value);
      }
      if arguments.Some? {
        state := state.(arguments := state.arguments + arguments.value);
      }
      assert state == Merged(before, callId, name, arguments);
      announce := !state.added && state.id != "" && state.name != "";
      if announce {
        state := state.(added := true);
      }
    }

    method StoreToolCall(ghost merged: ToolCall, index: nat, state: ToolCall, announce: bool, arguments: Option<string>)
      requires state == Announced(merged) && announce == Announces(merged)
      modifies this`pending, this`tools
      ensures View() == StoreCall(old(View()), index, merged, arguments)
    {
      tools := Put(tools, index, state);
      var outputIndex := ToolOutputIndex(index);
      var events := [];
      if announce {
        events := [ItemAdded(outputIndex, FunctionCallItem(state.id, IdentityOf(names, state.name), "", false))];
      }
      if arguments.Some? {
        events := events + [ArgumentsDelta("fc_" + state.id, outputIndex, arguments.value)];
      }
      assert events == ToolEvents(old(View()), index, merged, arguments);
      Emit(events);
    }

    /** Closes reasoning, message and calls, in output order. */
    method FinishItemsNow()
      modifies this`pending
      ensures View() == FinishItems(old(View()))
    {
      if reasoningStarted {
        Emit([SummaryTextDone(reasoningId, 0, reasoning), SummaryPartDone(reasoningId, 0, reasoning),
              ItemDone(0, ReasoningItem(reasoningId, Some(reasoning)))]);
      } else {
        Emit([]);
      }
      if textStarted {
        var index := MessageOutputIndex();
        Emit([TextDone(messageId, index, text), ContentPartDone(messageId, index, text),
              ItemDone(index, MessageItem(messageId, Some(text)))]);
      } else {
        Emit([]);
      }
      FinishCalls();
    }

    method FinishCalls()
      modifies this`pending
      ensures View() == old(View()).Emit(CallClosings(names, old(View()).ToolBase(), tools))
    {
      var base := ToolOutputIndex(0);
      var events := CollectClosings(base);
      Emit(events);
    }

    method CollectClosings(base: nat) returns (events: seq<OutEvent>)
      ensures events == CallClosings(names, base, tools)
    {
      hide CallClosing;
      events := [];
      var k := 0;
      while k < |tools|
        invariant 0 <= k <= |tools|
        invariant events + CallClosings(names, base, tools[k..]) == CallClosings(names, base, tools)
      {
        var call := tools[k].value;
        var outputIndex := base + tools[k].key;
        ghost var rest := CallClosings(names, base, tools[k + 1..]);
        assert tools[k..][1..] == tools[k + 1..];
        var closing := CallClosing(names, outputIndex, call);
        assert events + (closing + rest) == events + closing + rest;
        events := events + closing;
        k := k + 1;
      }
      assert events + CallClosings(names, base, tools[k..]) == events;
    }

    method FinalizeNow()
      modifies this`pending, this`finishReason, this`completed, this`terminal
      ensures View() == Finalize(old(View()))
    {
      if terminal {
        return;
      }
      if finishReason.None? {
        finishReason := Some("stop");
        FinishItemsNow();
      }
      EmitTerminal();
    }

    method EmitTerminal()
      requires finishReason.Some? && !terminal
      modifies this`pending, this`completed, this`terminal
      ensures View() == Finalize(old(View()))
    {
      var output := CollectOutput();
      var reason := finishReason.value;
      var status := Failed;
      if reason == "stop" || reason == "tool_calls" {
        completed := true;
        status := Completed;
      } else if reason == "length" {
        status := Incomplete;
      }
      Emit([Terminal(status, responseId.GetOr(fallbackId), output, usage.GetOr(TokenUsage(0, 0, 0)))]);
      terminal := true;
    }

    method CollectOutput() returns (output: seq<Item>)
      ensures output == ResponseOutput(View())
    {
      output := [];
      if reasoningStarted {
        output := output + [ReasoningItem(reasoningId, Some(reasoning))];
      }
      if textStarted {
        output := output + [MessageItem(messageId, Some(text))];
      }
      ghost var items := output;
      var k := 0;
      while k < |tools|
        invariant 0 <= k <= |tools|
        invariant output + CallItems(names, tools[k..]) == items + CallItems(names, tools)
      {
        assert tools[k..][1..] == tools[k + 1..];
        assert output + ([CallItem(names, tools[k].value)] + CallItems(names, tools[k + 1..]))
            == output + [CallItem(names, tools[k].value)] + CallItems(names, tools[k + 1..]);
        output := output + [CallItem(names, tools[k].value)];
        k := k + 1;
      }
      assert output == output + CallItems(names, tools[k..]);
    }

    method ApplyTextDelta(delta: string) returns (error: Option<OutputError>)
      modifies this`pending, this`textStarted, this`aggregateBytes, this`text
      ensures Applied(View(), error) == ApplyText(old(View()), delta)
    {
      StartTextItem();
      error := ReserveAggregateBytes(|delta|);
      if error.Some? {
        return;
      }
      text := text + delta;
      Emit([TextDelta(messageId, MessageOutputIndex(), delta)]);
    }

    method ApplyReasoningDelta(delta: string) returns (error: Option<OutputError>)
      modifies this`pending, this`reasoningStarted, this`aggregateBytes, this`reasoning
      ensures Applied(View(), error) == ApplyReasoning(old(View()), delta)
    {
      StartReasoningItem();
      error := ReserveAggregateBytes(|delta|);
      if error.Some? {
        return;
      }
      reasoning := reasoning + delta;
      Emit([SummaryDelta(reasoningId, 0, delta)]);
    }

    method ApplyStop(reason: string) returns (error: Option<OutputError>)
      requires !terminal
      modifies this`pending, this`aggregateBytes, this`finishReason
      ensures Applied(View(), error) == Model.Apply(old(View()), Stop(reason))
    {
      if finishReason.Some? {
        return Some(InvalidStream);
      }
      error := ReserveAggregateBytes(|reason|);
      if error.Some? {
        return;
      }
      finishReason := Some(reason);
      FinishItemsNow();
    }

    /** Accepts one decoded semantic event, or says why not; state and events are the model's. */
    method Apply(event: StreamEvent) returns (error: Option<OutputError>)
      modifies this
      ensures Applied(View(), error) == Model.Apply(old(View()), event)
      ensures delivered == old(delivered)
    {
      hide ApplyText, ApplyReasoning, ApplyTool, Finalize, FinishItems, UsageLength;
      if terminal {
        return Some(InvalidStream);
      }
      error := None;
      match event {
        case Start(id) =>
          if responseId.None? {
            error := ReserveAggregateBytes(|id|);
            if error.None? {
              responseId := Some(id);
              Emit([Created(id)]);
            }
          }
        case Usage(input, output) =>
          var tokens := TokenUsage(input, output, SaturatingAdd(input, output));
          error := ResizeAggregateBytes(usageBytes, UsageLength(tokens));
          if error.None? {
            usage := Some(tokens);
            usageBytes := UsageLength(tokens);
          }
        case Text(delta) =>
          if delta != "" {
            error := ApplyTextDelta(delta);
          }
        case Reasoning(delta) =>
          if delta != "" {
            error := ApplyReasoningDelta(delta);
          }
        case Tool(index, callId, name, arguments) =>
          error := ApplyToolDelta(index, callId, name, arguments);
        case Stop(reason) =>
          error := ApplyStop(reason);
        case Done =>
          if finishReason.None? {
            error := Some(InvalidStream);
          } else {
            FinalizeNow();
          }
      }
    }

    /** Closes a stream that was given a stop reason, and hands out what is pending. */
    method Finish() returns (events: seq<OutEvent>)
      modifies this
      ensures View() == Model.Finish(old(View()))
      ensures old(delivered) + events == View().log && pending == [] && delivered == View().log
    {
      if !terminal && finishReason.Some? {
        FinalizeNow();
      }
      events := Drain();
    }

    /** The assistant message and final flags handed to the session. */
    method TakeOutcome() returns (outcome: Outcome)
      ensures outcome == OutcomeOf(View())
    {
      var calls := CallRecords(tools);
      var content := Some(text);
      if calls != [] && text == "" {
        content := None;
      }
      outcome := Outcome(terminal, completed,
          AssistantMessage(content, if reasoning != "" then Some(reasoning) else None, calls));
    }
  }
}
