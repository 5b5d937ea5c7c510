/** What a relayed session carries: each peer gets, in order, what the other sent in the turns taken. */
module RelayTraffic {
  import opened Wrappers
  import opened Routing
  import opened Relay

  // What messages say, and which turns are taken.

  /** A frame's readable payload passes a test; a payload that is not UTF-8 passes none. */
  predicate ReadsAs(m: Message, test: string -> bool) {
    match m
    case Text(text) => test(text)
    case Payload(bytes, utf8) => utf8 && test(bytes)
    case Close(reason) => test(reason)
  }

  predicate ReadsAsRequest(reader: Reader, m: Message) {
    ReadsAs(m, text => reader.kind(text) == Some(ResponseCreate))
  }

  predicate ReadsAsTerminal(reader: Reader, m: Message) { ReadsAs(m, reader.terminal) }

  /** The session is open, and nothing it sees ends it before it waits for a message. */
  predicate Takes(s: Session, p: Poll) {
    && s.end.None?
    && !p.seen.senderGone && p.seen.stage != Force && (p.seen.stage == Draining ==> s.inFlight)
  }

  predicate TakesUpstream(s: Session, p: Poll) {
    Takes(s, p) && p.arrival.FromUpstream? && !p.arrival.message.Close? && p.sending.Delivered?
  }

  predicate TakesClient(s: Session, p: Poll) { Takes(s, p) && p.arrival.FromClient? && !p.arrival.message.Close? }

  /** The session may forward a client message: no second request, and a text request only on its route. */
  predicate MayForward(f: Frozen, s: Session, m: Message) {
    && (ReadsAsRequest(f.reader, m) ==> !s.inFlight)
    && (m.Text? ==> f.reader.kind(m.text).Some?)
    && (m.Text? && f.reader.kind(m.text) == Some(ResponseCreate) ==> HasRoute(f, m.text))
  }

  /** A text request resolves to the frozen route, and can be rewritten for it. */
  predicate HasRoute(f: Frozen, text: string) {
    && f.reader.model(text).Some?
    && var decision := Resolve(f.snapshot.routes, f.reader.model(text).value);
       match f.route
       case OfficialRoute => decision == Official
       case ProviderRoute(p) =>
         && decision.ThirdParty? && decision.provider == p && p in f.snapshot.providers
         && f.reader.rewrite(p, text, decision.model).Some?
  }

  // Both directions.

  /** What the upstream sends in one turn, if it is taken and can be delivered; close frames aside. */
  function UpstreamPart(s: Session, p: Poll): seq<Message> {
    if TakesUpstream(s, p) then [p.arrival.message] else []
  }

  /** What the client sends in one turn, if it is taken, may be forwarded and can be delivered. */
  function ClientPart(f: Frozen, s: Session, p: Poll): seq<Message> {
    if TakesClient(s, p) && p.sending.Delivered? && MayForward(f, s, p.arrival.message) then [p.arrival.message] else []
  }

  function FromUpstreamIn(f: Frozen, s: Session, polls: seq<Poll>): seq<Message> {
    if polls == [] then []
    else
      var init := polls[..|polls| - 1];
      FromUpstreamIn(f, s, init) + UpstreamPart(Run(f, s, init), polls[|polls| - 1])
  }

  function FromClientIn(f: Frozen, s: Session, polls: seq<Poll>): seq<Message> {
    if polls == [] then []
    else
      var init := polls[..|polls| - 1];
      FromClientIn(f, s, init) + ClientPart(f, Run(f, s, init), polls[|polls| - 1])
  }

  function ToldClient(log: seq<Entry>): seq<Message> {
    if log == [] then []
    else
      var last := log[|log| - 1];
      ToldClient(log[..|log| - 1]) + if last.ToClient? then [last.message] else []
  }

  function TakenFromClient(log: seq<Entry>): seq<Message> {
    if log == [] then []
    else
      var last := log[|log| - 1];
      TakenFromClient(log[..|log| - 1]) + if last.ToUpstream? then [last.received] else []
  }

  lemma OneMore(log: seq<Entry>, e: Entry)
    ensures ToldClient(log + [e]) == ToldClient(log) + if e.ToClient? then [e.message] else []
    ensures TakenFromClient(log + [e]) == TakenFromClient(log) + if e.ToUpstream? then [e.received] else []
  {
    assert (log + [e])[..|log|] == log;
  }

  /** An entry records what its message reads as. */
  predicate ReadsRight(f: Frozen, e: Entry) {
    match e
    case ToUpstream(received, _, starts, _) => starts == ReadsAsRequest(f.reader, received)
    case ToClient(message, terminal) => terminal == ReadsAsTerminal(f.reader, message)
  }

  lemma ReadingIsRight(reader: Reader, m: Message)
    ensures StartsRequest(reader, m) == ReadsAsRequest(reader, m)
    ensures IsTerminal(reader, m) == ReadsAsTerminal(reader, m)
  {
  }

  lemma FollowupIffRoute(f: Frozen, m: Message)
    ensures PrepareFollowup(f, m).result.Ok?
       <==> ((m.Text? ==> f.reader.kind(m.text).Some?)
             && (m.Text? && f.reader.kind(m.text) == Some(ResponseCreate) ==> HasRoute(f, m.text)))
  {
  }

  /** What one turn adds to the log: the client's message, the upstream's, or nothing. */
  lemma TurnAdds(f: Frozen, s: Session, p: Poll)
    ensures var next := Step(f, s, p);
            if TakesUpstream(s, p) then
              && next.log == s.log + [ToClient(p.arrival.message, ReadsAsTerminal(f.reader, p.arrival.message))]
            else if TakesClient(s, p) && p.sending.Delivered? && MayForward(f, s, p.arrival.message) then
              && |next.log| == |s.log| + 1 && next.log[..|s.log|] == s.log
              && var e := next.log[|s.log|];
                 e.ToUpstream? && e.received == p.arrival.message && e.seen == p.seen && ReadsRight(f, e)
            else next.log == s.log
  {
    if p.arrival.FromClient? || p.arrival.FromUpstream? {
      ReadingIsRight(f.reader, p.arrival.message);
      FollowupIffRoute(f, p.arrival.message);
    }
    hide PrepareFollowup, StartsRequest, IsTerminal, ReadsAsRequest, ReadsAsTerminal, HasRoute;
  }

  lemma StepCarries(f: Frozen, s: Session, p: Poll)
    ensures ToldClient(Step(f, s, p).log) == ToldClient(s.log) + UpstreamPart(s, p)
    ensures TakenFromClient(Step(f, s, p).log) == TakenFromClient(s.log) + ClientPart(f, s, p)
  {
    TurnAdds(f, s, p);
    hide Step, MayForward, ReadsRight, ReadsAsTerminal;
    var next := Step(f, s, p);
    if |next.log| > |s.log| {
      assert next.log == s.log + [next.log[|s.log|]];
      OneMore(s.log, next.log[|s.log|]);
    }
    NothingMore(ToldClient(s.log));
    NothingMore(TakenFromClient(s.log));
  }

  lemma NothingMore(messages: seq<Message>)
    ensures messages + [] == messages
  {
  }

  lemma JoinedTwice(a: seq<Message>, b: seq<Message>, c: seq<Message>)
    ensures a + b + c == a + (b + c)
  {
  }

  lemma {:induction false} RunCarries(f: Frozen, s: Session, polls: seq<Poll>)
    ensures ToldClient(Run(f, s, polls).log) == ToldClient(s.log) + FromUpstreamIn(f, s, polls)
    ensures TakenFromClient(Run(f, s, polls).log) == TakenFromClient(s.log) + FromClientIn(f, s, polls)
  {
    hide Step, UpstreamPart, ClientPart, ToldClient, TakenFromClient;
    if polls == [] {
      NothingMore(ToldClient(s.log));
      NothingMore(TakenFromClient(s.log));
    } else {
      var init, last := polls[..|polls| - 1], polls[|polls| - 1];
      var before := Run(f, s, init);
      RunCarries(f, s, init);
      StepCarries(f, before, last);
      JoinedTwice(ToldClient(s.log), FromUpstreamIn(f, s, init), UpstreamPart(before, last));
      JoinedTwice(TakenFromClient(s.log), FromClientIn(f, s, init), ClientPart(f, before, last));
    }
  }

  lemma {:induction false} RunReadsRight(f: Frozen, s: Session, polls: seq<Poll>)
    requires forall k :: 0 < k < |s.log| ==> ReadsRight(f, s.log[k])
    ensures var log := Run(f, s, polls).log;
            && |log| >= |s.log| && log[..|s.log|] == s.log
            && forall k :: 0 < k < |log| && k >= |s.log| ==> ReadsRight(f, log[k])
  {
    if polls != [] {
      var init, last := polls[..|polls| - 1], polls[|polls| - 1];
      var before := Run(f, s, init);
      RunReadsRight(f, s, init);
      TurnAdds(f, before, last);
      hide Step, TakesUpstream, TakesClient, MayForward, ReadsAsRequest, ReadsAsTerminal;
    }
  }

  /**
   Main law, over any turns: the client has been sent, in order, exactly what the upstream sent in the turns
   the session took and could deliver; the upstream has been sent, in order, the first message and then exactly
   what the client sent in the turns taken that may be forwarded; and every entry records what its message
   reads as.
   */
  lemma EachPeerGetsWhatTheOtherSent(f: Frozen, first: Message, sent: Message, seen: Signal, polls: seq<Poll>)
    ensures var s := Start(f, first, sent, seen); var log := Run(f, s, polls).log;
            && ToldClient(log) == FromUpstreamIn(f, s, polls)
            && TakenFromClient(log) == [first] + FromClientIn(f, s, polls)
            && log != [] && log[0] == ToUpstream(first, sent, true, seen)
            && forall k :: 0 < k < |log| ==> ReadsRight(f, log[k])
  {
    var s := Start(f, first, sent, seen);
    RunCarries(f, s, polls);
    RunReadsRight(f, s, polls);
    OneMore([], s.log[0]);
    assert [] + s.log == s.log;
    assert [] + [first] == [first] && [] + FromUpstreamIn(f, s, polls) == FromUpstreamIn(f, s, polls);
    assert Run(f, s, polls).log[0] == Run(f, s, polls).log[..1][0];
    hide Run, ReadsRight, ToldClient, TakenFromClient;
  }

  // When a session goes on, and how it ends.

  /** Exactly when an open session is still open after a turn. */
  lemma SessionGoesOnIff(f: Frozen, s: Session, p: Poll)
    requires s.end.None?
    ensures Step(f, s, p).end.None? <==>
              && Takes(s, p) && p.sending.Delivered?
              && match p.arrival
                 case FromClient(m) => !m.Close? && MayForward(f, s, m)
                 case FromUpstream(m) => !m.Close? && (ReadsAsTerminal(f.reader, m) ==> p.after.stage == Running)
                 case _ => false
  {
    if p.arrival.FromClient? || p.arrival.FromUpstream? {
      ReadingIsRight(f.reader, p.arrival.message);
      FollowupIffRoute(f, p.arrival.message);
    }
    hide PrepareFollowup, StartsRequest, IsTerminal, ReadsAsRequest, ReadsAsTerminal, HasRoute;
  }

  /** What a turn that ends an open session ends it with. */
  lemma EndIsExact(f: Frozen, s: Session, p: Poll)
    requires s.end.None? && Step(f, s, p).end.Some?
    ensures var end := Step(f, s, p).end.value;
            if !Takes(s, p) then end == Restarted
            else match p.arrival
              case ClientGone => end == Closed
              case ClientFailed => end == Failed(TransportFailed)
              case UpstreamGone => end == Failed(TransportFailed)
              case UpstreamFailed => end == Failed(TransportFailed)
              case Silence => end == Failed(IdleTimeout)
              case FromUpstream(m) =>
                end == if m.Close? then Closed else if p.sending.Delivered? then Restarted else Failed(Lost(p.sending))
              case FromClient(m) =>
                if m.Close? then end == Closed
                else if ReadsAsRequest(f.reader, m) && s.inFlight then end == Failed(ConcurrentRequest)
                else if MayForward(f, s, m) then end == Failed(Lost(p.sending))
                else end == Failed(Misrouted(f, m))
  {
    if p.arrival.FromClient? || p.arrival.FromUpstream? {
      ReadingIsRight(f.reader, p.arrival.message);
      FollowupIffRoute(f, p.arrival.message);
    }
    hide StartsRequest, IsTerminal, ReadsAsRequest, ReadsAsTerminal;
  }

  /** How an undelivered message fails. */
  function Lost(sending: Sending): Error {
    if sending == Abandoned then Shutdown else if sending == TimedOut then IdleTimeout else TransportFailed
  }

  /** Why a message that is no second request may not be forwarded. */
  function Misrouted(f: Frozen, m: Message): Error {
    if !m.Text? || f.reader.kind(m.text) != Some(ResponseCreate) || f.reader.model(m.text).None? then InvalidMessage
    else
      var decision := Resolve(f.snapshot.routes, f.reader.model(m.text).value);
      if decision.Unavailable? then ModelNotAvailable
      else if decision.Official? || f.route != ProviderRoute(decision.provider) then RouteChanged
      else if decision.provider !in f.snapshot.providers then ProviderNotAvailable
      else InvalidMessage
  }

  // Requests, counted.

  /** A turn taken brings a text request that names a model, and none before it is unanswered. */
  predicate BringsRequest(f: Frozen, s: Session, p: Poll) {
    && TakesClient(s, p) && p.arrival.message.Text? && !s.inFlight
    && f.reader.kind(p.arrival.message.text) == Some(ResponseCreate)
    && f.reader.model(p.arrival.message.text).Some?
  }

  function RequestsIn(f: Frozen, s: Session, polls: seq<Poll>): nat {
    if polls == [] then 0
    else
      var init := polls[..|polls| - 1];
      RequestsIn(f, s, init) + if BringsRequest(f, Run(f, s, init), polls[|polls| - 1]) then 1 else 0
  }

  lemma StepObserves(f: Frozen, s: Session, p: Poll)
    ensures |Step(f, s, p).observed| == |s.observed| + if BringsRequest(f, s, p) then 1 else 0
  {
    hide Rerouted, IsTerminal;
  }

  /** Every such request is reported once, whether its route holds or not, and nothing else is. */
  lemma {:induction false} RequestsAreObserved(f: Frozen, s: Session, polls: seq<Poll>)
    ensures |Run(f, s, polls).observed| == |s.observed| + RequestsIn(f, s, polls)
  {
    hide Step, BringsRequest;
    if polls != [] {
      RequestsAreObserved(f, s, polls[..|polls| - 1]);
      StepObserves(f, Run(f, s, polls[..|polls| - 1]), polls[|polls| - 1]);
    }
  }

  // The first message.

  /**
   The first message opens a session exactly when it is text that names a model, and that model is the
   official service's with an address configured, or a provider's that bridges, or that has an endpoint, takes
   the rewritten request and has valid headers. It then goes out on that route: as it came, rewritten for the
   provider's model, or through the bridge with that model.
   */
  lemma FirstMessageIsExact(reader: Reader, published: Snapshot, officialUrl: bool, m: Message)
    ensures var prepared := PrepareFirst(reader, published, officialUrl, m);
            if !m.Text? || reader.model(m.text).None? then prepared == Err(InvalidMessage)
            else match Resolve(published.routes, reader.model(m.text).value)
              case Unavailable => prepared == Err(ModelNotAvailable)
              case Official =>
                && (prepared.Ok? <==> officialUrl)
                && (prepared.Ok? ==>
                      prepared.value.frozen == Frozen(reader, published, OfficialRoute)
                      && prepared.value.upstream == Socket(m))
                && (prepared.Err? ==> prepared.error == ProviderNotAvailable)
              case ThirdParty(id, model) =>
                var plan := if id in published.providers then published.providers[id] else Unsupported;
                && (prepared.Ok? ==> prepared.value.frozen == Frozen(reader, published, ProviderRoute(id)))
                && (prepared.Ok? <==>
                      plan.HttpBridge?
                      || (plan == Direct(true, true) && reader.rewrite(id, m.text, model).Some?))
                && (prepared.Ok? ==>
                      if plan.HttpBridge? then prepared.value.upstream == Bridge(id, model)
                      else prepared.value.upstream == Socket(Text(reader.rewrite(id, m.text, model).value)))
                && (prepared.Err? ==>
                      prepared.error ==
                        if id !in published.providers then ProviderNotAvailable
                        else if plan.Unsupported? || (plan.Direct? && !plan.hasEndpoint) then TransportNotSupported
                        else if reader.rewrite(id, m.text, model).None? then InvalidMessage
                        else ProviderNotAvailable)
  {
    hide Resolve;
  }

  // The server.

  /** The configuration published last. */
  function LastPublished(events: seq<ServerEvent>): Option<Snapshot> {
    if events == [] then None
    else
      var last := events[|events| - 1];
      if last.Publish? then Some(last.snapshot) else LastPublished(events[..|events| - 1])
  }

  lemma {:induction false} PublishedIsTheLast(reader: Reader, officialUrl: bool, s: Server, events: seq<ServerEvent>)
    ensures ServerRun(reader, officialUrl, s, events).published == LastPublished(events).GetOr(s.published)
  {
    if events != [] {
      hide Step, PrepareFirst;
      PublishedIsTheLast(reader, officialUrl, s, events[..|events| - 1]);
    }
  }

  /**
   A first message opens one session, with the request it stands for sent, exactly when it prepares a socket on
   the configuration published last; else nothing changes.
   */
  lemma OpensIff(reader: Reader, officialUrl: bool, s: Server, before: seq<ServerEvent>, first: Message)
    ensures var state := ServerRun(reader, officialUrl, s, before);
            var prepared := PrepareFirst(reader, LastPublished(before).GetOr(s.published), officialUrl, first);
            var next := ServerStep(reader, officialUrl, state, Open(first));
            if prepared.Ok? && prepared.value.upstream.Socket? then
              && next.published == state.published && |next.sessions| == |state.sessions| + 1
              && next.sessions[..|state.sessions|] == state.sessions
              && var begun := next.sessions[|state.sessions|];
                 && begun.frozen == prepared.value.frozen
                 && begun.session == Session(1, true,
                      [ToUpstream(first, prepared.value.upstream.message, true, Signal(Running, false))], [1], None)
            else next == state
  {
    PublishedIsTheLast(reader, officialUrl, s, before);
    hide PrepareFirst, ServerRun;
  }
}
