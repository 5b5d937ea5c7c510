/** The session that bridges Responses turns to HTTP requests of the same protocol, and the transcript it stands for. */
module ResponsesSession {
  import opened Wrappers
  import opened OverlapMerge

  const SAME: Same<Item> := (a: Item, b: Item) => SameItem(a, b)

  datatype Default = Instructions | Tools | ParallelToolCalls | ToolChoice

  type Fields = map<Default, string>

  datatype Create = Create(isCreate: bool, generate: bool, fields: Fields, previousResponseId: Option<string>,
      input: seq<Item>)

  datatype SessionError = NotACreate | HistoryLimit

  /** Limits, and the size a request body would have. */
  datatype Config = Config(limits: Limits<Item>, bodyBytes: Request -> nat)

  datatype Request = Request(fields: Fields, previousResponseId: Option<string>, input: seq<Item>)

  datatype Action = Warmup(responseId: string) | Send(request: Request)

  datatype Session = Session(warmupResponseId: Option<string>, defaults: Fields, history: seq<Item>)

  const NEW_SESSION := Session(None, map[], [])

  const TOOL_OUTPUTS := {"function_call_output", "custom_tool_call_output", "computer_call_output", "mcp_call_output"}

  predicate HasToolOutput(items: seq<Item>) { exists i :: i in items && i.kind.Str? && i.kind.text in TOOL_OUTPUTS }

  predicate Replays(s: Session, create: Create) {
    s.history != [] && (create.previousResponseId.Some? || HasToolOutput(create.input))
  }

  /** The previous response is the warmup this session answered itself. */
  predicate NamesWarmup(s: Session, create: Create) {
    create.previousResponseId.Some? && create.previousResponseId == s.warmupResponseId
  }

  datatype Prepared = Prepared(session: Session, action: Result<Action, SessionError>)

  /** `freshId` is the random id a warmup answers with. */
  function Prepare(cfg: Config, s: Session, create: Create, freshId: string): Prepared {
    if !create.isCreate then Prepared(s, Err(NotACreate))
    else if !create.generate then
      Prepared(s.(defaults := create.fields, warmupResponseId := Some(freshId)), Ok(Warmup(freshId)))
    else
      var captured := s.(defaults := s.defaults + create.fields);
      var input := if Replays(s, create) then BoundedMerge(cfg.limits, s.history, create.input, SAME)
          else Some(create.input);
      if input.None? then Prepared(captured, Err(HistoryLimit)) else
      var previous := if NamesWarmup(s, create) || Replays(s, create) then None else create.previousResponseId;
      var request := Request(captured.defaults + create.fields, previous, input.value);
      Prepared(captured.(warmupResponseId := None),
          if cfg.bodyBytes(request) > cfg.limits.maxBytes then Err(HistoryLimit) else Ok(Send(request)))
  }

  /** The session after a completed response, or `None` when its history would be too large. */
  function Commit(cfg: Config, s: Session, input: seq<Item>, output: seq<Item>): Option<Session> {
    if Within(cfg.limits, input + output) then Some(s.(history := input + output)) else None
  }

  /**
   A warmup id never reaches the upstream: right after a warmup, a turn that refers to it is sent
   without a previous response, under the warmup's fields where it gives none of its own.
   */
  lemma WarmupStaysLocal(cfg: Config, s: Session, warmup: Create, turn: Create, freshId: string, otherId: string)
    requires warmup.isCreate && !warmup.generate && turn.isCreate && turn.generate
        && turn.previousResponseId == Some(freshId)
    ensures var warm := Prepare(cfg, s, warmup, freshId);
            var sent := Prepare(cfg, warm.session, turn, otherId);
            && warm.action == Ok(Warmup(freshId))
            && (sent.action.Ok? ==>
                  && sent.action.value.Send?
                  && sent.action.value.request.previousResponseId.None?
                  && sent.action.value.request.fields == warmup.fields + turn.fields)
  {
    assert (warmup.fields + turn.fields) + turn.fields == warmup.fields + turn.fields;
    hide BoundedMerge, HasToolOutput;
  }

  /**
   A previous response id is sent on exactly when the upstream must know it: it is no warmup of ours and no history
   is replayed.
   */
  lemma PreviousIdIsSentIffForeign(cfg: Config, s: Session, create: Create, freshId: string)
    ensures match Prepare(cfg, s, create, freshId).action
            case Ok(Send(request)) =>
              request.previousResponseId.Some? <==>
                create.previousResponseId.Some? && create.previousResponseId != s.warmupResponseId && s.history == []
            case _ => true
  {
    hide BoundedMerge, HasToolOutput;
  }

  /** A turn continues the history: it names a response, or brings a tool's output. */
  predicate Continues(s: Session, create: Create) {
    && s.history != []
    && (create.previousResponseId.Some?
        || exists k :: 0 <= k < |create.input| && create.input[k].kind.Str? && create.input[k].kind.text in
             {"function_call_output", "custom_tool_call_output", "computer_call_output", "mcp_call_output"})
  }

  lemma ContinuingReplays(s: Session, create: Create)
    ensures Continues(s, create) <==> Replays(s, create)
  {
    var items := create.input;
    assert HasToolOutput(items) <==>
      exists k :: 0 <= k < |items| && items[k].kind.Str? && items[k].kind.text in TOOL_OUTPUTS;
  }

  /**
   What a turn is prepared as, case by case: a warmup replaces the fields and answers with its id; any other turn
   sends its fields over the kept ones, and the history with what is new beyond the longest overlap if it
   continues it, else what it brings.
   */
  lemma TurnIsPrepared(cfg: Config, s: Session, create: Create, freshId: string, k: nat)
    requires Overlaps(s.history, create.input, SAME, k)
    requires forall longer: nat :: longer > k ==> !Overlaps(s.history, create.input, SAME, longer)
    ensures var p := Prepare(cfg, s, create, freshId);
            && p.session.history == s.history
            && if !create.isCreate then p == Prepared(s, Err(NotACreate))
               else if !create.generate then
                 p == Prepared(Session(Some(freshId), create.fields, s.history), Ok(Warmup(freshId)))
               else
                 var input := if Continues(s, create) then s.history + create.input[k..] else create.input;
                 && (forall key :: (key in p.session.defaults <==> key in create.fields || key in s.defaults)
                      && (key in create.fields ==> p.session.defaults[key] == create.fields[key])
                      && (key in s.defaults && key !in create.fields ==> p.session.defaults[key] == s.defaults[key]))
                 && if Continues(s, create) && (|input| > 256 || cfg.limits.bytes(input) > cfg.limits.maxBytes)
                    then p.action == Err(HistoryLimit)
                    else
                      && p.session.warmupResponseId == None
                      && var previous :=
                           if Continues(s, create) || create.previousResponseId == s.warmupResponseId then None
                           else create.previousResponseId;
                         var request := Request(p.session.defaults, previous, input);
                         p.action == if cfg.bodyBytes(request) <= cfg.limits.maxBytes then Ok(Send(request))
                                     else Err(HistoryLimit)
  {
    assert k <= |create.input|;
    hide BoundedMerge, Overlaps, Continues, Replays;
    ContinuingReplays(s, create);
    BoundedMergeIsExact(cfg.limits, s.history, create.input, SAME, k);
    assert s.defaults + create.fields + create.fields == s.defaults + create.fields;
  }

  // The transcript.

  /** How the upstream answered a request: a terminal event with or without completion, or none. */
  datatype Answer = Completed(output: seq<Item>) | Terminated | Truncated

  /**
   One round with a client: new items and how they were answered, completely or not, or a warmup in
   between. `copy` is what a resending client takes the conversation so far to be.
   */
  datatype Exchange =
    | Said(copy: seq<Item>, added: seq<Item>, answer: Answer, previousResponseId: Option<string>, fields: Fields)
    | WarmedUp(fields: Fields, freshId: string)

  /** The transcript after one more round: only a completed one adds to it. */
  function Now(said: seq<Item>, x: Exchange): seq<Item> {
    if x.Said? && x.answer.Completed? then said + x.added + x.answer.output else said
  }

  function Transcript(said: seq<Item>, exchanges: seq<Exchange>): seq<Item>
    decreases |exchanges|
  {
    if exchanges == [] then said else Transcript(Now(said, exchanges[0]), exchanges[1..])
  }

  /**
   The round as a client sends it that resends its copy of all that was said, or as one that sends only what is new.
   */
  function AsCreate(x: Exchange, resends: bool): Create {
    match x
    case Said(copy, added, _, previous, fields) =>
        Create(true, true, fields, previous, if resends then copy + added else added)
    case WarmedUp(fields, _) => Create(true, false, fields, None, [])
  }

  datatype Loop = Loop(session: Session, sent: seq<seq<Item>>, failed: bool)

  /** The bridge's loop over the rounds. */
  function Converse(cfg: Config, l: Loop, exchanges: seq<Exchange>, resends: bool): Loop
    decreases |exchanges|
  {
    if l.failed || exchanges == [] then l
    else
      var x := exchanges[0];
      var p := Prepare(cfg, l.session, AsCreate(x, resends), if x.WarmedUp? then x.freshId else "");
      Converse(cfg, Answered(cfg, l, p, if x.Said? then x.answer else Terminated), exchanges[1..], resends)
  }

  function Answered(cfg: Config, l: Loop, p: Prepared, answer: Answer): Loop {
    match p.action
    case Err(_) => Loop(p.session, l.sent, true)
    case Ok(Warmup(_)) => Loop(p.session, l.sent, false)
    case Ok(Send(request)) =>
      var sent := l.sent + [request.input];
      match answer
      case Truncated => Loop(p.session, sent, true)
      case Terminated => Loop(p.session, sent, false)
      case Completed(output) =>
        var committed := Commit(cfg, p.session, request.input, output);
        Loop(committed.GetOr(p.session), sent, committed.None?)
  }

  /** What an answer does to the loop: only a completed one in bounds moves the history; a lost one ends it. */
  lemma AnswerIsTaken(cfg: Config, l: Loop, p: Prepared, answer: Answer)
    ensures var next := Answered(cfg, l, p, answer);
            if p.action.Err? then next == Loop(p.session, l.sent, true)
            else if p.action.value.Warmup? then next == Loop(p.session, l.sent, false)
            else
              var input := p.action.value.request.input;
              && next.sent == l.sent + [input]
              && (next.failed <==>
                    || answer.Truncated?
                    || (answer.Completed? && (|input + answer.output| > 256
                                              || cfg.limits.bytes(input + answer.output) > cfg.limits.maxBytes)))
              && next.session == if answer.Completed? && !next.failed
                                 then p.session.(history := input + answer.output) else p.session
  {
  }

  /**
   Once there is a transcript the round replays, what it adds does not overlap what was said, and the
   client's copy is the transcript up to item identity: other fields of an item may have changed.
   */
  predicate FairRound(said: seq<Item>, x: Exchange) {
    x.Said? ==>
      && Pairwise(said, x.copy, SAME)
      && (said != [] ==> (x.previousResponseId.Some? || HasToolOutput(x.added)) && Overlap(said, x.added, SAME) == 0)
  }

  predicate Fair(said: seq<Item>, exchanges: seq<Exchange>)
    decreases |exchanges|
  {
    exchanges == [] || (FairRound(said, exchanges[0]) && Fair(Now(said, exchanges[0]), exchanges[1..]))
  }

  /** What either client's round must be prepared as. */
  function WholeRequest(cfg: Config, s: Session, said: seq<Item>, x: Exchange): Prepared {
    if x.WarmedUp? then
      Prepared(s.(defaults := x.fields, warmupResponseId := Some(x.freshId)), Ok(Warmup(x.freshId)))
    else
    var captured := s.(defaults := s.defaults + x.fields);
    if said != [] && !Within(cfg.limits, said + x.added) then Prepared(captured, Err(HistoryLimit)) else
    var dropped := said != [] || (x.previousResponseId.Some? && x.previousResponseId == s.warmupResponseId);
    var previous := if dropped then None else x.previousResponseId;
    var request := Request(captured.defaults + x.fields, previous, said + x.added);
    var fits := cfg.bodyBytes(request) <= cfg.limits.maxBytes;
    Prepared(captured.(warmupResponseId := None), if fits then Ok(Send(request)) else Err(HistoryLimit))
  }

  /** A copy equal up to identity overlaps the history in all of it, and the history's own items are kept. */
  lemma ResentCopyMerges(said: seq<Item>, copy: seq<Item>, added: seq<Item>)
    requires Pairwise(said, copy, SAME)
    ensures Merge(said, copy + added, SAME) == said + added
  {
    var current := copy + added;
    OverlapIsLongest(said, current, SAME);
    assert said[|said| - |said|..] == said && current[..|said|] == copy;
    assert Overlaps(said, current, SAME, |said|);
    assert current[|said|..] == added;
  }

  lemma RoundMerges(said: seq<Item>, x: Exchange, resends: bool)
    requires said != [] && x.Said? && FairRound(said, x)
    ensures Merge(said, AsCreate(x, resends).input, SAME) == said + x.added
  {
    if resends {
      ResentCopyMerges(said, x.copy, x.added);
    } else {
      assert Reflexive(SAME);
      ResendingIsIncremental(said, x.added, SAME);
    }
  }

  lemma RoundReplays(s: Session, x: Exchange, resends: bool)
    requires s.history != [] && x.Said? && FairRound(s.history, x)
    ensures Replays(s, AsCreate(x, resends))
  {
    hide Overlap, Pairwise;
    if x.previousResponseId.None? {
      var i :| i in x.added && i.kind.Str? && i.kind.text in TOOL_OUTPUTS;
      assert i in AsCreate(x, resends).input;
    }
  }

  lemma RoundIsWhole(cfg: Config, s: Session, said: seq<Item>, x: Exchange, resends: bool)
    requires s.history == said && FairRound(said, x)
    ensures Prepare(cfg, s, AsCreate(x, resends), if x.WarmedUp? then x.freshId else "")
        == WholeRequest(cfg, s, said, x)
  {
    hide Merge, Within, Overlap, HasToolOutput;
    if x.Said? {
      if said == [] {
        assert x.copy == [] && [] + x.added == x.added;
      } else {
        RoundMerges(said, x, resends);
        RoundReplays(s, x, resends);
      }
    }
  }

  /** The requests of a server that keeps the transcript itself. */
  function Requests(said: seq<Item>, exchanges: seq<Exchange>): seq<seq<Item>>
    decreases |exchanges|
  {
    if exchanges == [] then []
    else
      (if exchanges[0].Said? then [said + exchanges[0].added] else [])
      + Requests(Now(said, exchanges[0]), exchanges[1..])
  }

  lemma RoundExtendsTranscript(cfg: Config, l: Loop, said: seq<Item>, x: Exchange)
    requires l.session.history == said
    ensures var answer := if x.Said? then x.answer else Terminated;
            var next := Answered(cfg, l, WholeRequest(cfg, l.session, said, x), answer);
            !next.failed ==>
              && next.session.history == Now(said, x)
              && next.sent == l.sent + if x.Said? then [said + x.added] else []
  {
    hide Within;
  }

  lemma RequestsStep(said: seq<Item>, exchanges: seq<Exchange>, sent: seq<seq<Item>>)
    requires exchanges != []
    ensures sent + Requests(said, exchanges)
         == sent + (if exchanges[0].Said? then [said + exchanges[0].added] else [])
            + Requests(Now(said, exchanges[0]), exchanges[1..])
  {
  }

  /**
   Main law: the session is a plain transcript, with items compared by identity. After any fair
   conversation, with warmups and failed turns in between and whatever the limits, a client that resends
   its copy of everything and one that sends only what is new have caused the same requests and left the
   same session; while nothing failed each request was the whole conversation as the session has it.
   */
  lemma {:induction false} SessionRefinesTranscript(cfg: Config, l: Loop, said: seq<Item>, exchanges: seq<Exchange>)
    requires !l.failed && l.session.history == said && Fair(said, exchanges)
    ensures var end := Converse(cfg, l, exchanges, true);
            && end == Converse(cfg, l, exchanges, false)
            && (!end.failed ==>
                  end.session.history == Transcript(said, exchanges) && end.sent == l.sent + Requests(said, exchanges))
    decreases |exchanges|
  {
    if exchanges == [] {
      assert l.sent + [] == l.sent;
    } else {
      var x := exchanges[0];
      RoundIsWhole(cfg, l.session, said, x, true);
      RoundIsWhole(cfg, l.session, said, x, false);
      RoundExtendsTranscript(cfg, l, said, x);
      RequestsStep(said, exchanges, l.sent);
      hide Prepare, WholeRequest, Answered, Requests, Overlap, HasToolOutput, AsCreate, Pairwise, Now;
      var next := Answered(cfg, l, WholeRequest(cfg, l.session, said, x), if x.Said? then x.answer else Terminated);
      if !next.failed {
        SessionRefinesTranscript(cfg, next, Now(said, x), exchanges[1..]);
      }
    }
  }

  /** Identity matters: a copy with another field changed still replays as the history's own item. */
  lemma ChangedCopyStillReplays(kind: string, id: string, before: string, after: string, added: seq<Item>)
    requires before != after
    ensures var item := Item(Str(kind), Str(id), Absent, before); var copy := Item(Str(kind), Str(id), Absent, after);
            item != copy && Merge([item], [copy] + added, SAME) == [item] + added
  {
    ResentCopyMerges([Item(Str(kind), Str(id), Absent, before)], [Item(Str(kind), Str(id), Absent, after)], added);
  }

  class WsHttpBridgeSession {
    const cfg: Config
    var warmupResponseId: Option<string>
    var defaults: Fields
    var history: seq<Item>

    function View(): Session
      reads this
    {
      Session(warmupResponseId, defaults, history)
    }

    constructor (cfg: Config)
      ensures View() == NEW_SESSION && this.cfg == cfg
    {
      this.cfg, warmupResponseId, defaults, history := cfg, None, map[], [];
    }

    method PrepareTurn(create: Create, freshId: string) returns (r: Result<Action, SessionError>)
      modifies this`warmupResponseId, this`defaults
      ensures Prepared(View(), r) == Prepare(cfg, old(View()), create, freshId)
    {
      hide BoundedMerge, HasToolOutput;
      if !create.isCreate {
        return Err(NotACreate);
      }
      if !create.generate {
        defaults := create.fields;
        warmupResponseId := Some(freshId);
        return Ok(Warmup(freshId));
      }
      defaults := defaults + create.fields;
      var previous := create.previousResponseId;
      var replays := Replays(View(), create);
      if NamesWarmup(View(), create) || replays {
        previous := None;
      }
      var input := create.input;
      if replays {
        var merged := BoundedMerge(cfg.limits, history, create.input, SAME);
        if merged.None? {
          return Err(HistoryLimit);
        }
        input := merged.value;
      }
      warmupResponseId := None;
      var request := Request(defaults + create.fields, previous, input);
      if cfg.bodyBytes(request) > cfg.limits.maxBytes {
        return Err(HistoryLimit);
      }
      return Ok(Send(request));
    }

    method CommitTurn(input: seq<Item>, output: seq<Item>) returns (ok: bool)
      modifies this`history
      ensures ok == Commit(cfg, old(View()), input, output).Some?
      ensures View() == Commit(cfg, old(View()), input, output).GetOr(old(View()))
    {
      ok := Within(cfg.limits, input + output);
      if ok {
        history := input + output;
      }
    }
  }
}
