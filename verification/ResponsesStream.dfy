/** The Responses decoder: blocks are JSON events, normalised and passed through. */
module ResponsesStream {
  import opened Wrappers
  import opened SseFraming
  import opened Reasoning

  datatype ResponsesError = InvalidResponses | ResponsesStateLimit | ResponsesBufferLimit

  /** What the data lines of a block parse to; an empty block and "[DONE]" carry no event. */
  datatype ResponsesBlock = NoEvent | NotJson | Json(event: SseEvent)

  datatype Responses = Responses(tracker: Tracker, terminal: bool, completed: bool, output: seq<OutputItem>)

  function NewResponses(limit: nat): Responses { Responses(NewTracker(limit), false, false, []) }

  predicate EndsResponse(e: SseEvent) {
    e.kind.Some? && e.kind.value in {ResponseCompleted, OtherKind("response.failed"), OtherKind("response.incomplete")}
  }

  /** Terminal state and committed output are read off the event as it came, before normalisation. */
  function Observe(r: Responses, e: SseEvent): Responses {
    var seen := if EndsResponse(e) then r.(terminal := true) else r;
    if e.kind == Some(ResponseCompleted) then seen.(completed := true, output := e.output.GetOr([])) else seen
  }

  function ParseResponse(r: Responses, block: ResponsesBlock): Result<(Responses, seq<SseEvent>), ResponsesError> {
    match block
    case NoEvent => Ok((r, []))
    case NotJson => Err(InvalidResponses)
    case Json(e) =>
      match Normalize(r.tracker, e)
      case Err(StateLimit) => Err(ResponsesStateLimit)
      case Ok(n) => Ok((Observe(r, e).(tracker := n.0), if n.1.Some? then [n.1.value] else []))
  }

  function ResponsesDecoder(read: Bytes -> ResponsesBlock, limit: nat): Decoder<Responses, SseEvent, ResponsesError> {
    Decoder((r: Responses, block: Bytes) => ParseResponse(r, read(block)),
            (r: Responses) => Ok((r, [])), limit, ResponsesBufferLimit)
  }

  /** The events sent are the normalisation of some event sequence. */
  ghost predicate Forwarded(r: Responses, t: Responses, events: seq<SseEvent>) {
    exists input :: NormalizeAll(r.tracker, input) == Ok((t.tracker, events))
  }

  lemma {:induction false} NormalizeConcatenated(t: Tracker, a: seq<SseEvent>, b: seq<SseEvent>)
    requires NormalizeAll(t, a).Ok? && NormalizeAll(NormalizeAll(t, a).value.0, b).Ok?
    ensures var first := NormalizeAll(t, a).value; var second := NormalizeAll(first.0, b).value;
            NormalizeAll(t, a + b) == Ok((second.0, first.1 + second.1))
    decreases |a|
  {
    if a == [] {
      assert a + b == b;
      assert [] + NormalizeAll(t, b).value.1 == NormalizeAll(t, b).value.1;
    } else {
      assert (a + b)[1..] == a[1..] + b;
      var head := Normalize(t, a[0]).value;
      NormalizeConcatenated(head.0, a[1..], b);
      var sent := if head.1.Some? then [head.1.value] else [];
      var rest := NormalizeAll(head.0, a[1..]).value;
      assert sent + (rest.1 + NormalizeAll(rest.0, b).value.1) == sent + rest.1 + NormalizeAll(rest.0, b).value.1;
    }
  }

  lemma ForwardedComposes()
    ensures Composes(Forwarded)
  {
    forall r: Responses ensures Forwarded(r, r, []) {
      assert NormalizeAll(r.tracker, []) == Ok((r.tracker, []));
    }
    forall r: Responses, t: Responses, u: Responses, a: seq<SseEvent>, b: seq<SseEvent>
        | Forwarded(r, t, a) && Forwarded(t, u, b)
      ensures Forwarded(r, u, a + b)
    {
      var x :| NormalizeAll(r.tracker, x) == Ok((t.tracker, a));
      var y :| NormalizeAll(t.tracker, y) == Ok((u.tracker, b));
      NormalizeConcatenated(r.tracker, x, y);
    }
  }

  lemma ParseForwards(r: Responses, block: ResponsesBlock)
    requires ParseResponse(r, block).Ok?
    ensures Forwarded(r, ParseResponse(r, block).value.0, ParseResponse(r, block).value.1)
  {
    match block
    case NoEvent => assert NormalizeAll(r.tracker, []) == Ok((r.tracker, []));
    case Json(e) =>
      var n := Normalize(r.tracker, e).value;
      var sent := if n.1.Some? then [n.1.value] else [];
      assert [e][1..] == [] && NormalizeAll(n.0, []) == Ok((n.0, []));
      assert NormalizeAll(r.tracker, [e]) == Ok((n.0, sent + []));
      assert sent + [] == sent;
  }

  lemma ResponsesSteps(read: Bytes -> ResponsesBlock, limit: nat)
    ensures Steps(ResponsesDecoder(read, limit), Forwarded)
  {
    var d := ResponsesDecoder(read, limit);
    forall r: Responses, block: Bytes | d.parse(r, block).Ok?
      ensures Forwarded(r, d.parse(r, block).value.0, d.parse(r, block).value.1)
    {
      ParseForwards(r, read(block));
    }
    forall r: Responses | d.close(r).Ok?
      ensures Forwarded(r, d.close(r).value.0, d.close(r).value.1)
    {
      assert NormalizeAll(r.tracker, []) == Ok((r.tracker, []));
    }
  }

  lemma ResponsesForwarded(read: Bytes -> ResponsesBlock, limit: nat, s: Stream<Responses>, chunks: seq<Bytes>)
    requires Decode(ResponsesDecoder(read, limit), s, chunks).Ok?
    ensures var end := Decode(ResponsesDecoder(read, limit), s, chunks).value; Forwarded(s.state, end.0, end.1)
  {
    ForwardedComposes();
    ResponsesSteps(read, limit);
    DecodeSteps(ResponsesDecoder(read, limit), Forwarded, s, chunks);
  }

  /**
   Whatever bytes an upstream sends and however they are chunked, the stream passed on holds no raw
   reasoning event, and passing it through a second router changes nothing.
   */
  lemma {:induction false} ResponsesStreamIsNormal(read: Bytes -> ResponsesBlock, limit: nat, chunks: seq<Bytes>)
    ensures match Decode(ResponsesDecoder(read, limit), Stream([], NewResponses(limit)), chunks)
            case Err(_) => true
            case Ok(end) =>
              && (forall e :: e in end.1 ==> !SpeaksRaw(e))
              && NormalizeAll(NewTracker(limit), end.1).Ok?
              && NormalizeAll(NewTracker(limit), end.1).value.1 == end.1
  {
    hide Normalize;
    var s := Stream([], NewResponses(limit));
    var decoded := Decode(ResponsesDecoder(read, limit), s, chunks);
    if decoded.Ok? {
      ResponsesForwarded(read, limit, s, chunks);
      var input :| NormalizeAll(NewTracker(limit), input) == Ok((decoded.value.0.tracker, decoded.value.1));
      NormalizationIsIdempotent(limit, input);
    }
  }

  // What a decoded stream passes on and reports.

  /** The events of the blocks, as they came. */
  function EventsIn(blocks: seq<ResponsesBlock>): seq<SseEvent> {
    if blocks == [] then []
    else (if blocks[0].Json? then [blocks[0].event] else []) + EventsIn(blocks[1..])
  }

  function LastCompleted(events: seq<SseEvent>): Option<SseEvent> {
    if events == [] then None
    else if LastCompleted(events[1..]).Some? then LastCompleted(events[1..])
    else if events[0].kind == Some(ResponseCompleted) then Some(events[0])
    else None
  }

  predicate HasEnd(events: seq<SseEvent>) {
    exists e :: e in events && e.kind in
      {Some(ResponseCompleted), Some(OtherKind("response.failed")), Some(OtherKind("response.incomplete"))}
  }

  /** The state after these events. */
  ghost predicate Reports(r: Responses, events: seq<SseEvent>, t: Responses) {
    && t.terminal == (r.terminal || HasEnd(events))
    && t.completed == (r.completed || LastCompleted(events).Some?)
    && t.output == match LastCompleted(events)
                   case Some(e) => e.output.GetOr([])
                   case None => r.output
  }

  lemma ReportsStep(r: Responses, e: SseEvent, tracker: Tracker, rest: seq<SseEvent>, t: Responses)
    requires Reports(Observe(r, e).(tracker := tracker), rest, t)
    ensures Reports(r, [e] + rest, t)
  {
    var all := [e] + rest;
    assert all[0] == e && all[1..] == rest;
  }

  /** Blocks are fed exactly when all that carry data are JSON and their events can be normalised. */
  lemma {:induction false} FedResponses(read: Bytes -> ResponsesBlock, limit: nat, r: Responses, blocks: seq<Bytes>)
    ensures var parsed := ReadAll(read, blocks); var fed := Feed(ResponsesDecoder(read, limit), r, blocks);
            var normal := NormalizeAll(r.tracker, EventsIn(parsed));
            && (fed.Ok? <==> NotJson !in parsed && normal.Ok?)
            && (fed.Ok? ==> fed.value.1 == normal.value.1 && Reports(r, EventsIn(parsed), fed.value.0))
    decreases |blocks|
  {
    if blocks != [] {
      hide Normalize, Reports, Observe;
      var d := ResponsesDecoder(read, limit);
      var block, rest := read(blocks[0]), ReadAll(read, blocks[1..]);
      assert d.parse(r, blocks[0]) == ParseResponse(r, block);
      assert ReadAll(read, blocks) == [block] + rest && ([block] + rest)[1..] == rest;
      match block
      case NotJson =>
      case NoEvent =>
        FedResponses(read, limit, r, blocks[1..]);
        AfterNothing(Feed(d, r, blocks[1..]));
        assert EventsIn([block] + rest) == EventsIn(rest);
      case Json(e) =>
        assert EventsIn([block] + rest) == [e] + EventsIn(rest);
        assert ([e] + EventsIn(rest))[1..] == EventsIn(rest);
        if Normalize(r.tracker, e).Ok? {
          var tracker := Normalize(r.tracker, e).value.0;
          var next := Observe(r, e).(tracker := tracker);
          FedResponses(read, limit, next, blocks[1..]);
          if Feed(d, next, blocks[1..]).Ok? {
            ReportsStep(r, e, tracker, EventsIn(rest), Feed(d, next, blocks[1..]).value.0);
          }
        }
    } else {
      assert Reports(r, [], r);
    }
  }

  /**
   Main law: a chunking decodes exactly when it stays within the bound, its blocks are JSON and their events
   can be normalised; all of them are passed on, normalised, in order. The stream is terminal exactly when a
   completed, failed or incomplete response was among them, completed exactly when a completed one was, and
   the committed output is that of the last completed one, as it came.
   */
  lemma ResponsesStreamSaysItsEvents(read: Bytes -> ResponsesBlock, limit: nat, chunks: seq<Bytes>)
    ensures var decoded := Decode(ResponsesDecoder(read, limit), Stream([], NewResponses(limit)), chunks);
            var blocks := BlocksOf(read, chunks); var events := EventsIn(blocks);
            && (decoded.Ok? <==>
                  Fits(limit, [], chunks) && NotJson !in blocks && NormalizeAll(NewTracker(limit), events).Ok?)
            && (decoded.Ok? ==>
                  var end := decoded.value.0;
                  && decoded.value.1 == NormalizeAll(NewTracker(limit), events).value.1
                  && (end.terminal <==> HasEnd(events))
                  && (end.completed <==> LastCompleted(events).Some?)
                  && end.output == match LastCompleted(events)
                                   case Some(e) => e.output.GetOr([])
                                   case None => [])
  {
    DecodesIff(ResponsesDecoder(read, limit), NewResponses(limit), chunks);
    FedResponses(read, limit, NewResponses(limit), RawBlocks(chunks));
    hide Feed, Decode, RawBlocks, NormalizeAll, Fits, HasEnd, LastCompleted;
    var fed := Feed(ResponsesDecoder(read, limit), NewResponses(limit), RawBlocks(chunks));
    if fed.Ok? {
      assert fed.value.1 + [] == fed.value.1;
    }
  }
}
