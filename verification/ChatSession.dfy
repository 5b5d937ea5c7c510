/** The stateful bridge from Responses turns to Chat Completions requests, and the transcript it stands for. */
module ChatSession {
  import opened Wrappers
  import opened OutputModel
  import opened OverlapMerge
  import Routing

  datatype Message = Message(role: string, content: Option<string>, rest: string)

  const EQUAL: Same<Message> := (a: Message, b: Message) => a == b

  datatype Default = Instructions | Tools | ParallelToolCalls | ToolChoice | ReasoningEffort

  type Fields = map<Default, string>

  type Names = map<string, ToolIdentity>

  /** One `response.create`: the fields with session defaults, and the input already turned into messages. */
  datatype Create = Create(
    isCreate: bool,
    generate: bool,
    fields: Fields,
    previousResponseId: Option<string>,
    input: Option<seq<Message>>)

  datatype SessionError = NotACreate | Unsupported | HistoryLimit

  /**
   Limits and the abstract parts of request building: body sizes, and the names of converted tools
   (`None` when they do not convert). `routes` and `provider` are the session's frozen route.
   */
  datatype Config = Config(
    limits: Limits<Message>,
    bodyBytes: (Fields, seq<Message>) -> nat,
    toolNames: Fields -> Option<Names>,
    routes: Routing.Routes,
    provider: Routing.ProviderId)

  /** `toolNames` are those of the last request, for the decoder of its answer. */
  datatype Session = Session(
    warmupResponseId: Option<string>,
    defaults: Fields,
    history: seq<Message>,
    toolNames: Names)

  const NEW_SESSION := Session(None, map[], [], map[])

  datatype Action = Warmup(responseId: string) | Request(messages: seq<Message>, names: Names)

  datatype Prepared = Prepared(session: Session, action: Result<Action, SessionError>)

  function SystemMessage(instructions: string): Message { Message("system", Some(instructions), "") }

  /** The request starts with these instructions as a system message. */
  predicate StartsWithSystem(messages: seq<Message>, instructions: string) {
    messages != [] && messages[0].role == "system" && messages[0].content == Some(instructions)
  }

  predicate HasToolMessage(messages: seq<Message>) { exists m :: m in messages && m.role == "tool" }

  function WithInstructions(fields: Fields, messages: seq<Message>): seq<Message> {
    if Instructions in fields && fields[Instructions] != "" && !StartsWithSystem(messages, fields[Instructions])
    then [SystemMessage(fields[Instructions])] + messages
    else messages
  }

  function BuildRequest(cfg: Config, fields: Fields, messages: seq<Message>): Result<Action, SessionError> {
    var complete := WithInstructions(fields, messages);
    if complete == [] then Err(Unsupported)
    else if !Within(cfg.limits, complete) then Err(HistoryLimit)
    else if cfg.toolNames(fields).None? then Err(Unsupported)
    else if cfg.bodyBytes(fields, complete) > cfg.limits.maxBytes then Err(HistoryLimit)
    else Ok(Request(complete, cfg.toolNames(fields).value))
  }

  predicate Replays(s: Session, create: Create, current: seq<Message>) {
    s.history != [] && (create.previousResponseId.Some? || HasToolMessage(current))
  }

  /** The session after its request was built, or failed to be. */
  function Built(s: Session, action: Result<Action, SessionError>): Prepared {
    Prepared(if action.Ok? && action.value.Request? then s.(toolNames := action.value.names) else s, action)
  }

  /** `freshId` is the random id a warmup answers with. */
  function Prepare(cfg: Config, s: Session, create: Create, freshId: string): Prepared {
    if !create.isCreate then Prepared(s, Err(NotACreate)) else
    var captured := s.(defaults := s.defaults + create.fields);
    if !create.generate then Prepared(captured.(warmupResponseId := Some(freshId)), Ok(Warmup(freshId)))
    else if create.input.None? then Prepared(captured, Err(Unsupported))
    else
      var current := create.input.value;
      var messages :=
        if Replays(s, create, current) then BoundedMerge(cfg.limits, s.history, current, EQUAL) else Some(current);
      if messages.None? then Prepared(captured, Err(HistoryLimit))
      else Built(captured.(warmupResponseId := None), BuildRequest(cfg, captured.defaults, messages.value))
  }

  /** The session after a completed answer, or `None` when its history would be too large. */
  function Commit(cfg: Config, s: Session, messages: seq<Message>, reply: Message): Option<Session> {
    if Within(cfg.limits, messages + [reply]) then Some(s.(history := messages + [reply])) else None
  }

  // The session loop.

  /** How the upstream answered a request: a terminal event with or without completion, or none. */
  datatype Answer = Completed(reply: Message) | Terminated | Truncated

  /**
   One turn of the loop: what the client sent and the model its text names (`None` when the text cannot
   be read), the answer, and whether the service is draining by then.
   */
  datatype Turn = Turn(create: Create, freshId: string, model: Option<string>, answer: Answer, draining: bool)

  datatype LoopEnd =
    | Refused(error: SessionError)
    | InvalidUpstream
    | InvalidMessage
    | ModelNotAvailable
    | RouteChanged
    | Restarted

  /** The loop's state: the session, whether no turn was taken yet, the requests sent so far, and its end. */
  datatype Loop = Loop(session: Session, first: bool, sent: seq<seq<Message>>, end: Option<LoopEnd>)

  const START := Loop(NEW_SESSION, true, [], None)

  /** Why a later turn may not go on under the frozen route, if so. */
  function RouteFault(cfg: Config, model: Option<string>): Option<LoopEnd> {
    if model.None? then Some(InvalidMessage) else
    match Routing.Resolve(cfg.routes, model.value)
    case ThirdParty(provider, _) => if provider == cfg.provider then None else Some(RouteChanged)
    case Unavailable => Some(ModelNotAvailable)
    case Official => Some(RouteChanged)
  }

  function Answered(cfg: Config, l: Loop, p: Prepared, answer: Answer, draining: bool): Loop {
    match p.action
    case Err(e) => Loop(p.session, false, l.sent, Some(Refused(e)))
    case Ok(Warmup(_)) => Loop(p.session, false, l.sent, None)
    case Ok(Request(messages, _)) =>
      var sent := l.sent + [messages];
      var served := if draining then Some(Restarted) else None;
      match answer
      case Truncated => Loop(p.session, false, sent, Some(InvalidUpstream))
      case Terminated => Loop(p.session, false, sent, served)
      case Completed(reply) =>
        match Commit(cfg, p.session, messages, reply)
        case None => Loop(p.session, false, sent, Some(Refused(HistoryLimit)))
        case Some(session) => Loop(session, false, sent, served)
  }

  function TakeTurn(cfg: Config, l: Loop, turn: Turn): Loop {
    if l.end.Some? then l
    else if !l.first && RouteFault(cfg, turn.model).Some? then l.(end := RouteFault(cfg, turn.model))
    else Answered(cfg, l, Prepare(cfg, l.session, turn.create, turn.freshId), turn.answer, turn.draining)
  }

  function TakeTurns(cfg: Config, l: Loop, turns: seq<Turn>): Loop
    decreases |turns|
  {
    if turns == [] then l else TakeTurns(cfg, TakeTurn(cfg, l, turns[0]), turns[1..])
  }

  lemma PrepareKeepsHistory(cfg: Config, s: Session, create: Create, freshId: string)
    ensures Prepare(cfg, s, create, freshId).session.history == s.history
  {
    hide BuildRequest, BoundedMerge, HasToolMessage;
  }

  /** Only a completed turn moves the history, and then to the request it was sent plus the reply. */
  lemma OnlyCompletedTurnsCommit(cfg: Config, l: Loop, turn: Turn)
    ensures var next := TakeTurn(cfg, l, turn);
            next.session.history == l.session.history
            || (turn.answer.Completed? && next.end in {None, Some(Restarted)} && next.sent != []
                && next.session.history == next.sent[|next.sent| - 1] + [turn.answer.reply])
  {
    PrepareKeepsHistory(cfg, l.session, turn.create, turn.freshId);
    hide Prepare, RouteFault;
  }

  /** A later request is sent only when its model is one of the session's provider, enabled in the frozen routes. */
  lemma LaterRequestsKeepTheRoute(cfg: Config, doc: Routing.Document, l: Loop, turn: Turn)
    requires cfg.routes == Routing.RoutesOf(doc.providers)
    ensures TakeTurn(cfg, l, turn).sent != l.sent && !l.first ==>
              exists m: Routing.ModelId ::
                && Routing.Enables(doc.providers, Routing.Route(cfg.provider, m))
                && turn.model == Some(Routing.CatalogName(cfg.provider, m))
  {
    if TakeTurn(cfg, l, turn).sent != l.sent && !l.first {
      hide Routing.RoutesOf, Routing.Enables;
      Routing.RoutingIsExact(doc, turn.model.value);
      var m := Routing.Resolve(cfg.routes, turn.model.value).model;
      assert Routing.Resolve(cfg.routes, turn.model.value) == Routing.ThirdParty(cfg.provider, m);
    }
  }

  /** However many turns are taken, no history has more than 256 messages or more bytes than allowed. */
  lemma {:induction false} HistoryStaysBounded(cfg: Config, l: Loop, turns: seq<Turn>)
    requires |l.session.history| <= 256 && cfg.limits.bytes(l.session.history) <= cfg.limits.maxBytes
    ensures var history := TakeTurns(cfg, l, turns).session.history;
            |history| <= 256 && cfg.limits.bytes(history) <= cfg.limits.maxBytes
    decreases |turns|
  {
    if turns != [] {
      PrepareKeepsHistory(cfg, l.session, turns[0].create, turns[0].freshId);
      hide Prepare, RouteFault;
      HistoryStaysBounded(cfg, TakeTurn(cfg, l, turns[0]), turns[1..]);
    }
  }

  // A turn, case by case.

  /** The defaults after a turn: what it gives, and for the rest what was given before. */
  ghost predicate Overrides(before: Fields, given: Fields, now: Fields) {
    forall key :: (key in now <==> key in given || key in before)
      && (key in given ==> now[key] == given[key])
      && (key in before && key !in given ==> now[key] == before[key])
  }

  /** The messages of a request, with the instructions, if there are any, as its first system message once. */
  ghost predicate Complete(fields: Fields, messages: seq<Message>, whole: seq<Message>) {
    if Instructions in fields && fields[Instructions] != "" then
      var system := Message("system", Some(fields[Instructions]), "");
      if messages != [] && messages[0].role == "system" && messages[0].content == Some(fields[Instructions])
      then whole == messages else whole == [system] + messages
    else whole == messages
  }

  /** A request is built of these messages exactly when it is not empty, in bounds, and its tools convert. */
  ghost predicate IsBuilt(cfg: Config, fields: Fields, messages: seq<Message>, action: Result<Action, SessionError>) {
    exists whole :: Complete(fields, messages, whole) &&
      var fits := |whole| <= 256 && cfg.limits.bytes(whole) <= cfg.limits.maxBytes;
      var bodyFits := cfg.bodyBytes(fields, whole) <= cfg.limits.maxBytes;
      var names := cfg.toolNames(fields);
      && (action.Ok? <==> whole != [] && fits && names.Some? && bodyFits)
      && (action.Ok? ==> action == Ok(Request(whole, names.value)))
      && (action.Err? ==> action == Err(if whole == [] || (fits && names.None?) then Unsupported else HistoryLimit))
  }

  /** Whether a turn continues the history: it names a response, or brings a tool's answer. */
  predicate Continues(s: Session, create: Create) {
    s.history != [] && create.input.Some?
    && (create.previousResponseId.Some?
        || exists k :: 0 <= k < |create.input.value| && create.input.value[k].role == "tool")
  }

  /**
   What a turn is prepared as, case by case: a warmup only keeps its fields and answers with its id; any other
   turn sends the history and what is new beyond the longest overlap, if it continues it, else what it brings.
   */
  lemma TurnIsPrepared(cfg: Config, s: Session, create: Create, freshId: string, k: nat)
    requires create.input.Some? ==>
      && Overlaps(s.history, create.input.value, EQUAL, k)
      && forall longer: nat :: longer > k ==> !Overlaps(s.history, create.input.value, EQUAL, longer)
    ensures var p := Prepare(cfg, s, create, freshId);
            && p.session.history == s.history
            && if !create.isCreate then p == Prepared(s, Err(NotACreate))
               else
                 && Overrides(s.defaults, create.fields, p.session.defaults)
                 && if !create.generate then
                      && p.action == Ok(Warmup(freshId)) && p.session.warmupResponseId == Some(freshId)
                      && p.session.toolNames == s.toolNames
                    else if create.input.None? then p.action == Err(Unsupported)
                    else
                      var messages :=
                        if Continues(s, create) then s.history + create.input.value[k..] else create.input.value;
                      if Continues(s, create) && (|messages| > 256 || cfg.limits.bytes(messages) > cfg.limits.maxBytes)
                      then p.action == Err(HistoryLimit)
                      else
                        && p.session.warmupResponseId == None
                        && IsBuilt(cfg, p.session.defaults, messages, p.action)
                        && p.session.toolNames == if p.action.Ok? then p.action.value.names else s.toolNames
  {
    assert create.input.Some? ==> k <= |create.input.value|;
    GivenOverride(s.defaults, create.fields);
    if create.isCreate && create.generate && create.input.Some? {
      RequestIsPrepared(cfg, s, create, freshId, k);
    }
    hide BoundedMerge, Overlaps, BuildRequest, IsBuilt, Continues, Replays, Overrides, Built;
  }

  lemma RequestIsPrepared(cfg: Config, s: Session, create: Create, freshId: string, k: nat)
    requires create.isCreate && create.generate && create.input.Some?
    requires Overlaps(s.history, create.input.value, EQUAL, k)
    requires forall longer: nat :: longer > k ==> !Overlaps(s.history, create.input.value, EQUAL, longer)
    ensures k <= |create.input.value|
    ensures var p := Prepare(cfg, s, create, freshId);
            var messages := if Continues(s, create) then s.history + create.input.value[k..] else create.input.value;
            && p.session == s.(defaults := s.defaults + create.fields, warmupResponseId := p.session.warmupResponseId,
                               toolNames := p.session.toolNames)
            && if Continues(s, create) && (|messages| > 256 || cfg.limits.bytes(messages) > cfg.limits.maxBytes)
               then p.action == Err(HistoryLimit)
               else
                 && p.session.warmupResponseId == None
                 && IsBuilt(cfg, p.session.defaults, messages, p.action)
                 && p.session.toolNames == if p.action.Ok? then p.action.value.names else s.toolNames
  {
    var current := create.input.value;
    ContinuingReplays(s, create);
    BoundedMergeIsExact(cfg.limits, s.history, current, EQUAL, k);
    var messages := if Continues(s, create) then s.history + current[k..] else current;
    RequestIsBuilt(cfg, s.defaults + create.fields, messages);
    IsBuiltRequest(cfg, s.defaults + create.fields, messages);
    hide BoundedMerge, Overlaps, BuildRequest, IsBuilt, Continues, Replays;
  }

  lemma IsBuiltRequest(cfg: Config, fields: Fields, messages: seq<Message>)
    ensures BuildRequest(cfg, fields, messages).Ok? ==> BuildRequest(cfg, fields, messages).value.Request?
  {
  }

  lemma ContinuingReplays(s: Session, create: Create)
    requires create.input.Some?
    ensures Continues(s, create) <==> Replays(s, create, create.input.value)
  {
    var messages := create.input.value;
    assert HasToolMessage(messages) <==> exists k :: 0 <= k < |messages| && messages[k].role == "tool";
  }

  lemma GivenOverride(before: Fields, given: Fields)
    ensures Overrides(before, given, before + given)
  {
  }

  lemma RequestIsBuilt(cfg: Config, fields: Fields, messages: seq<Message>)
    ensures IsBuilt(cfg, fields, messages, BuildRequest(cfg, fields, messages))
  {
    assert Complete(fields, messages, WithInstructions(fields, messages));
  }

  /** What a turn of an open loop sends, and exactly when and how it ends the loop. */
  lemma TurnIsTaken(cfg: Config, l: Loop, turn: Turn)
    requires l.end.None?
    ensures var next := TakeTurn(cfg, l, turn);
            if !l.first && turn.model.None? then next == l.(end := Some(InvalidMessage))
            else if !l.first && Routing.Resolve(cfg.routes, turn.model.value).Unavailable? then
              next == l.(end := Some(ModelNotAvailable))
            else if !l.first && (Routing.Resolve(cfg.routes, turn.model.value).Official?
                                 || Routing.Resolve(cfg.routes, turn.model.value).provider != cfg.provider) then
              next == l.(end := Some(RouteChanged))
            else
              var p := Prepare(cfg, l.session, turn.create, turn.freshId);
              && !next.first
              && (p.action.Err? ==> next.end == Some(Refused(p.action.error)))
              && (p.action.Err? || p.action.value.Warmup? ==> next.sent == l.sent && next.session == p.session)
              && (p.action.Ok? && p.action.value.Warmup? ==> next.end.None?)
              && (p.action.Ok? && p.action.value.Request? ==>
                    var messages := p.action.value.messages;
                    && next.sent == l.sent + [messages]
                    && (turn.answer.Truncated? ==> next.session == p.session && next.end == Some(InvalidUpstream))
                    && (turn.answer.Terminated? ==> next.session == p.session)
                    && (turn.answer.Completed? ==>
                          var history := messages + [turn.answer.reply];
                          if |history| <= 256 && cfg.limits.bytes(history) <= cfg.limits.maxBytes
                          then next.session == p.session.(history := history)
                          else next.session == p.session && next.end == Some(Refused(HistoryLimit)))
                    && (next.end in {None, Some(Restarted)} ==> (next.end == Some(Restarted) <==> turn.draining))
                    && (turn.answer.Terminated? ==> next.end in {None, Some(Restarted)})
                    && (turn.answer.Completed? && next.end != Some(Refused(HistoryLimit)) ==>
                          next.end in {None, Some(Restarted)}))
  {
    hide Prepare;
  }

  // The transcript.

  /**
   One round with a client: new messages and how they were answered, completely or not, or a warmup in
   between.
   */
  datatype Exchange =
    | Said(added: seq<Message>, answer: Answer, previousResponseId: Option<string>, fields: Fields,
           model: Option<string>, draining: bool)
    | WarmedUp(fields: Fields, freshId: string, model: Option<string>)

  /** The transcript after one more round: only a completed one adds to it. */
  function Now(said: seq<Message>, x: Exchange): seq<Message> {
    if x.Said? && x.answer.Completed? then said + x.added + [x.answer.reply] else said
  }

  function Transcript(said: seq<Message>, exchanges: seq<Exchange>): seq<Message>
    decreases |exchanges|
  {
    if exchanges == [] then said else Transcript(Now(said, exchanges[0]), exchanges[1..])
  }

  /** The round as a client sends it that resends the transcript `said`, or as one that sends only what is new. */
  function AsTurn(said: seq<Message>, x: Exchange, resends: bool): Turn {
    match x
    case Said(added, answer, previous, fields, model, draining) =>
      Turn(Create(true, true, fields, previous, Some(if resends then said + added else added)), "", model, answer,
          draining)
    case WarmedUp(fields, freshId, model) =>
      Turn(Create(true, false, fields, None, None), freshId, model, Terminated, false)
  }

  function AsTurns(said: seq<Message>, exchanges: seq<Exchange>, resends: bool): seq<Turn>
    decreases |exchanges|
  {
    if exchanges == [] then []
    else [AsTurn(said, exchanges[0], resends)] + AsTurns(Now(said, exchanges[0]), exchanges[1..], resends)
  }

  /** The history that stands for the transcript `said` under the given instructions. */
  function HistoryOf(instructions: string, said: seq<Message>): seq<Message> {
    if said == [] then [] else [SystemMessage(instructions)] + said
  }

  /**
   The round gives these non-empty instructions, replays once there is a transcript, does not itself
   start with the system message, and what it adds does not overlap the history.
   */
  predicate FairRound(instructions: string, said: seq<Message>, x: Exchange) {
    x.Said? ==>
      && instructions != "" && Instructions in x.fields && x.fields[Instructions] == instructions
      && (said != [] ==> x.previousResponseId.Some? || HasToolMessage(x.added))
      && !StartsWithSystem(said + x.added, instructions)
      && Overlap(HistoryOf(instructions, said), x.added, EQUAL) == 0
  }

  predicate Fair(instructions: string, said: seq<Message>, exchanges: seq<Exchange>)
    decreases |exchanges|
  {
    exchanges == []
    || (FairRound(instructions, said, exchanges[0]) && Fair(instructions, Now(said, exchanges[0]), exchanges[1..]))
  }

  /** Resending the transcript without its system message overlaps the history in all of the transcript. */
  lemma {:induction false} ResentTranscriptMerges(instructions: string, said: seq<Message>, added: seq<Message>)
    requires said != [] && !StartsWithSystem(said + added, instructions)
    ensures Merge(HistoryOf(instructions, said), said + added, EQUAL) == HistoryOf(instructions, said) + added
  {
    var history, current := HistoryOf(instructions, said), said + added;
    OverlapIsLongest(history, current, EQUAL);
    assert history[1..] == said == current[..|said|];
    assert Overlaps(history, current, EQUAL, |said|);
    assert !Overlaps(history, current, EQUAL, |said| + 1);
    assert current[|said|..] == added;
  }

  lemma NewMessagesMerge(history: seq<Message>, added: seq<Message>)
    requires Overlap(history, added, EQUAL) == 0
    ensures Merge(history, added, EQUAL) == history + added
  {
    assert Reflexive(EQUAL);
    ResendingIsIncremental(history, added, EQUAL);
  }

  /** What either client's turn must be prepared as: the whole transcript under the system message. */
  function TranscriptRequest(cfg: Config, s: Session, instructions: string, said: seq<Message>, x: Exchange): Prepared {
    var captured := s.(defaults := s.defaults + x.fields);
    if x.WarmedUp? then Prepared(captured.(warmupResponseId := Some(x.freshId)), Ok(Warmup(x.freshId))) else
    var whole := [SystemMessage(instructions)] + said + x.added;
    if said != [] && !Within(cfg.limits, whole) then Prepared(captured, Err(HistoryLimit))
    else Built(captured.(warmupResponseId := None), BuildRequest(cfg, captured.defaults, whole))
  }

  /** What either client's turn must do to the loop. */
  function TranscriptTurn(cfg: Config, l: Loop, instructions: string, said: seq<Message>, x: Exchange): Loop {
    if !l.first && RouteFault(cfg, x.model).Some? then l.(end := RouteFault(cfg, x.model))
    else
      var p := TranscriptRequest(cfg, l.session, instructions, said, x);
      Answered(cfg, l, p, if x.Said? then x.answer else Terminated, x.Said? && x.draining)
  }

  lemma MergesTheTranscript(instructions: string, said: seq<Message>, x: Exchange, resends: bool)
    requires said != [] && x.Said? && FairRound(instructions, said, x)
    ensures Merge(HistoryOf(instructions, said), if resends then said + x.added else x.added, EQUAL)
         == [SystemMessage(instructions)] + said + x.added
  {
    if resends {
      ResentTranscriptMerges(instructions, said, x.added);
    } else {
      NewMessagesMerge(HistoryOf(instructions, said), x.added);
    }
  }

  lemma LaterTurnsReplay(s: Session, instructions: string, said: seq<Message>, x: Exchange, resends: bool)
    requires said != [] && s.history != [] && x.Said? && FairRound(instructions, said, x)
    ensures Replays(s, AsTurn(said, x, resends).create, if resends then said + x.added else x.added)
  {
    hide Overlap;
    if x.previousResponseId.None? {
      var m :| m in x.added && m.role == "tool";
      assert m in said + x.added;
    }
  }

  lemma PreparesTheTranscript(cfg: Config, s: Session, instructions: string, said: seq<Message>, x: Exchange,
      resends: bool)
    requires s.history == HistoryOf(instructions, said) && FairRound(instructions, said, x)
    ensures var turn := AsTurn(said, x, resends);
            Prepare(cfg, s, turn.create, turn.freshId) == TranscriptRequest(cfg, s, instructions, said, x)
  {
    hide Overlap, Merge, Within, HasToolMessage;
    if x.Said? {
      var system := SystemMessage(instructions);
      assert (s.defaults + x.fields)[Instructions] == instructions;
      if said == [] {
        assert [] + x.added == x.added && [system] + said + x.added == [system] + x.added;
      } else {
        LaterTurnsReplay(s, instructions, said, x, resends);
        MergesTheTranscript(instructions, said, x, resends);
      }
    }
  }

  /** The requests a transcript-keeping server would send: the whole conversation, every time. */
  function Requests(instructions: string, said: seq<Message>, exchanges: seq<Exchange>): seq<seq<Message>>
    decreases |exchanges|
  {
    if exchanges == [] then []
    else
      (if exchanges[0].Said? then [[SystemMessage(instructions)] + said + exchanges[0].added] else [])
      + Requests(instructions, Now(said, exchanges[0]), exchanges[1..])
  }

  lemma TurnsAgree(cfg: Config, l: Loop, instructions: string, said: seq<Message>, x: Exchange, resends: bool)
    requires l.end.None? && l.session.history == HistoryOf(instructions, said) && FairRound(instructions, said, x)
    ensures TakeTurn(cfg, l, AsTurn(said, x, resends)) == TranscriptTurn(cfg, l, instructions, said, x)
  {
    PreparesTheTranscript(cfg, l.session, instructions, said, x, resends);
    hide FairRound, Prepare, Overlap, TranscriptRequest, Answered;
  }

  /** A whole request answered: the requests grow by it, and the history by what completes. */
  lemma BuiltWholeExtends(cfg: Config, l: Loop, s: Session, fields: Fields, instructions: string, said: seq<Message>,
                          x: Exchange)
    requires x.Said? && s.history == HistoryOf(instructions, said)
    requires Instructions in fields && fields[Instructions] == instructions
    ensures var whole := [SystemMessage(instructions)] + said + x.added;
            var next := Answered(cfg, l, Built(s, BuildRequest(cfg, fields, whole)), x.answer, x.draining);
            next.end.None? ==>
              && next.session.history == HistoryOf(instructions, Now(said, x))
              && next.sent == l.sent + [whole]
  {
    hide Within;
    var whole := [SystemMessage(instructions)] + said + x.added;
    assert StartsWithSystem(whole, instructions);
    if x.answer.Completed? {
      assert whole + [x.answer.reply] == [SystemMessage(instructions)] + (said + x.added + [x.answer.reply]);
    }
  }

  /** One fair round keeps the history the transcript, and sends the whole conversation if it sends anything. */
  lemma TurnExtendsTranscript(cfg: Config, l: Loop, instructions: string, said: seq<Message>, x: Exchange)
    requires l.session.history == HistoryOf(instructions, said)
    requires x.Said? ==> Instructions in x.fields && x.fields[Instructions] == instructions
    ensures var next := TranscriptTurn(cfg, l, instructions, said, x);
            next.end.None? ==>
              && next.session.history == HistoryOf(instructions, Now(said, x))
              && next.sent == l.sent + if x.Said? then [[SystemMessage(instructions)] + said + x.added] else []
  {
    hide Within, HistoryOf, RouteFault;
    if x.Said? {
      hide BuildRequest, Built, Now;
      var captured := l.session.(defaults := l.session.defaults + x.fields, warmupResponseId := None);
      BuiltWholeExtends(cfg, l, captured, captured.defaults, instructions, said, x);
    }
  }

  /** The list of turns, taken apart. */
  lemma AsTurnsStep(cfg: Config, l: Loop, said: seq<Message>, exchanges: seq<Exchange>, resends: bool)
    requires exchanges != []
    ensures TakeTurns(cfg, l, AsTurns(said, exchanges, resends))
         == TakeTurns(cfg, TakeTurn(cfg, l, AsTurn(said, exchanges[0], resends)),
                      AsTurns(Now(said, exchanges[0]), exchanges[1..], resends))
  {
    hide TakeTurn, AsTurn;
    assert AsTurns(said, exchanges, resends)[1..] == AsTurns(Now(said, exchanges[0]), exchanges[1..], resends);
  }

  /** One fair round: the loop state it leads to, whichever client sent it, and what that state holds. */
  lemma RoundStep(cfg: Config, l: Loop, instructions: string, said: seq<Message>, exchanges: seq<Exchange>,
      resends: bool)
    returns (next: Loop)
    requires exchanges != []
    requires l.end.None? && l.session.history == HistoryOf(instructions, said) && Fair(instructions, said, exchanges)
    ensures next == TranscriptTurn(cfg, l, instructions, said, exchanges[0])
    ensures var x := exchanges[0]; var now := Now(said, x);
            && Fair(instructions, now, exchanges[1..])
            && TakeTurns(cfg, l, AsTurns(said, exchanges, resends))
                == TakeTurns(cfg, next, AsTurns(now, exchanges[1..], resends))
            && (next.end.None? ==>
                  && next.session.history == HistoryOf(instructions, now)
                  && next.sent == l.sent + if x.Said? then [[SystemMessage(instructions)] + said + x.added] else [])
  {
    hide TakeTurn, TakeTurns, AsTurn, AsTurns, HistoryOf, TranscriptTurn, Overlap, StartsWithSystem;
    TurnsAgree(cfg, l, instructions, said, exchanges[0], resends);
    TurnExtendsTranscript(cfg, l, instructions, said, exchanges[0]);
    AsTurnsStep(cfg, l, said, exchanges, resends);
    next := TakeTurn(cfg, l, AsTurn(said, exchanges[0], resends));
  }

  lemma {:induction false} ClientsAgree(cfg: Config, l: Loop, instructions: string, said: seq<Message>,
                                        exchanges: seq<Exchange>)
    requires l.end.None? && l.session.history == HistoryOf(instructions, said) && Fair(instructions, said, exchanges)
    ensures TakeTurns(cfg, l, AsTurns(said, exchanges, true)) == TakeTurns(cfg, l, AsTurns(said, exchanges, false))
    decreases |exchanges|
  {
    if exchanges != [] {
      hide Fair, TakeTurn, TakeTurns, AsTurn, AsTurns, HistoryOf, TranscriptTurn, Now;
      var now := Now(said, exchanges[0]);
      var next := RoundStep(cfg, l, instructions, said, exchanges, true);
      var same := RoundStep(cfg, l, instructions, said, exchanges, false);
      if next.end.None? {
        ClientsAgree(cfg, next, instructions, now, exchanges[1..]);
      } else {
        EndedLoopsStay(cfg, next, AsTurns(now, exchanges[1..], true));
        EndedLoopsStay(cfg, next, AsTurns(now, exchanges[1..], false));
      }
    }
  }

  lemma RequestsStep(instructions: string, said: seq<Message>, exchanges: seq<Exchange>, sent: seq<seq<Message>>)
    requires exchanges != []
    ensures var x := exchanges[0];
            sent + Requests(instructions, said, exchanges)
            == sent + (if x.Said? then [[SystemMessage(instructions)] + said + x.added] else [])
               + Requests(instructions, Now(said, x), exchanges[1..])
  {
  }

  lemma {:induction false} TurnsRefineTranscript(cfg: Config, l: Loop, instructions: string, said: seq<Message>,
                                                 exchanges: seq<Exchange>, resends: bool)
    requires l.end.None? && l.session.history == HistoryOf(instructions, said) && Fair(instructions, said, exchanges)
    ensures var end := TakeTurns(cfg, l, AsTurns(said, exchanges, resends));
            end.end.None? ==>
              && end.session.history == HistoryOf(instructions, Transcript(said, exchanges))
              && end.sent == l.sent + Requests(instructions, said, exchanges)
    decreases |exchanges|
  {
    if exchanges == [] {
      assert l.sent + [] == l.sent;
    } else {
      var now := Now(said, exchanges[0]);
      assert Transcript(said, exchanges) == Transcript(now, exchanges[1..]);
      hide Fair, TakeTurn, TakeTurns, AsTurn, AsTurns, HistoryOf, TranscriptTurn, Transcript, Requests, Now;
      var next := RoundStep(cfg, l, instructions, said, exchanges, resends);
      RequestsStep(instructions, said, exchanges, l.sent);
      if next.end.None? {
        TurnsRefineTranscript(cfg, next, instructions, now, exchanges[1..], resends);
      } else {
        EndedLoopsStay(cfg, next, AsTurns(now, exchanges[1..], resends));
      }
    }
  }

  lemma {:induction false} EndedLoopsStay(cfg: Config, l: Loop, turns: seq<Turn>)
    requires l.end.Some?
    ensures TakeTurns(cfg, l, turns) == l
    decreases |turns|
  {
    if turns != [] {
      EndedLoopsStay(cfg, l, turns[1..]);
    }
  }

  /**
   Main law: the stateful session is a plain transcript. After any fair conversation, with warmups and
   failed turns in between and whatever the limits, a client that resends everything and one that sends
   only what is new have caused the very same requests and left the very same session; and while the loop
   goes on, each request was the system message once followed by the whole conversation so far.
   */
  lemma {:induction false} SessionRefinesTranscript(cfg: Config, instructions: string, exchanges: seq<Exchange>,
      resends: bool)
    requires Fair(instructions, [], exchanges)
    ensures var end := TakeTurns(cfg, START, AsTurns([], exchanges, resends));
            && end == TakeTurns(cfg, START, AsTurns([], exchanges, !resends))
            && (end.end.None? ==>
                  end.session.history == HistoryOf(instructions, Transcript([], exchanges))
                  && end.sent == Requests(instructions, [], exchanges))
  {
    hide Fair, TakeTurn, TakeTurns, AsTurns, Transcript, Requests;
    TurnsRefineTranscript(cfg, START, instructions, [], exchanges, resends);
    ClientsAgree(cfg, START, instructions, [], exchanges);
    assert [] + Requests(instructions, [], exchanges) == Requests(instructions, [], exchanges);
  }

  // The session as it runs.

  class ResponsesChatBridgeSession {
    const cfg: Config
    var warmupResponseId: Option<string>
    var defaults: Fields
    var history: seq<Message>
    var toolNames: Names

    function View(): Session
      reads this
    {
      Session(warmupResponseId, defaults, history, toolNames)
    }

    constructor (cfg: Config)
      ensures View() == NEW_SESSION && this.cfg == cfg
    {
      this.cfg, warmupResponseId, defaults, history, toolNames := cfg, None, map[], [], map[];
    }

    method PrepareTurn(create: Create, freshId: string) returns (r: Result<Action, SessionError>)
      modifies this`warmupResponseId, this`defaults, this`toolNames
      ensures Prepared(View(), r) == Prepare(cfg, old(View()), create, freshId)
    {
      if !create.isCreate {
        return Err(NotACreate);
      }
      defaults := defaults + create.fields;
      if !create.generate {
        warmupResponseId := Some(freshId);
        return Ok(Warmup(freshId));
      }
      if create.input.None? {
        return Err(Unsupported);
      }
      var messages := create.input.value;
      if Replays(View(), create, messages) {
        var merged := BoundedMerge(cfg.limits, history, messages, EQUAL);
        if merged.None? {
          return Err(HistoryLimit);
        }
        messages := merged.value;
      }
      warmupResponseId := None;
      r := BuildRequest(cfg, defaults, messages);
      if r.Ok? && r.value.Request? {
        toolNames := r.value.names;
      }
    }

    method CommitTurn(messages: seq<Message>, reply: Message) returns (ok: bool)
      modifies this`history
      ensures ok == Commit(cfg, old(View()), messages, reply).Some?
      ensures View() == Commit(cfg, old(View()), messages, reply).GetOr(old(View()))
    {
      ok := Within(cfg.limits, messages + [reply]);
      if ok {
        history := messages + [reply];
      }
    }

    /** The session loop over the turns a connection brings. */
    method Serve(turns: seq<Turn>) returns (sent: seq<seq<Message>>, end: Option<LoopEnd>)
      modifies this
      ensures Loop(View(), turns == [], sent, end) == TakeTurns(cfg, Loop(old(View()), true, [], None), turns)
    {
      sent, end := [], None;
      var k := 0;
      while k < |turns|
        invariant 0 <= k <= |turns| && end.None?
        invariant TakeTurns(cfg, Loop(View(), k == 0, sent, None), turns[k..])
               == TakeTurns(cfg, Loop(old(View()), true, [], None), turns)
      {
        var turn := turns[k];
        ghost var before := Loop(View(), k == 0, sent, None);
        assert turns[k..][1..] == turns[k + 1..];
        k := k + 1;
        if k > 1 {
          end := RouteFault(cfg, turn.model);
        }
        if end.None? {
          sent, end := ServeTurn(before, turn, sent);
        }
        assert Loop(View(), false, sent, end) == TakeTurn(cfg, before, turn);
        if end.Some? {
          EndedLoopsStay(cfg, Loop(View(), false, sent, end), turns[k..]);
          return;
        }
      }
    }

    /** One turn past its route check: prepare, send, and commit what completes. */
    method ServeTurn(ghost l: Loop, turn: Turn, sent: seq<seq<Message>>)
        returns (more: seq<seq<Message>>, end: Option<LoopEnd>)
      requires l.session == View() && l.sent == sent
      modifies this
      ensures Loop(View(), false, more, end)
           == Answered(cfg, l, Prepare(cfg, old(View()), turn.create, turn.freshId), turn.answer, turn.draining)
    {
      hide Prepare, Within;
      more, end := sent, None;
      var action := PrepareTurn(turn.create, turn.freshId);
      match action {
        case Err(e) => end := Some(Refused(e));
        case Ok(Warmup(_)) =>
        case Ok(Request(messages, _)) =>
          more := more + [messages];
          if turn.answer.Truncated? {
            end := Some(InvalidUpstream);
            return;
          }
          if turn.answer.Completed? {
            var committed := CommitTurn(messages, turn.answer.reply);
            if !committed {
              end := Some(Refused(HistoryLimit));
              return;
            }
          }
          if turn.draining {
            end := Some(Restarted);
          }
      }
    }
  }
}
