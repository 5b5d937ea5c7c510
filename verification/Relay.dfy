/** The WebSocket relay: a route frozen by the first message, one request in flight, and draining. */
module Relay {
  import opened Wrappers
  import opened Routing

  // Messages and what is read from them.

  /** `Payload` is any other frame with a payload (binary, ping, pong); it reads as text when it is UTF-8. */
  datatype Message = Text(text: string) | Payload(bytes: string, utf8: bool) | Close(reason: string)

  datatype Kind = ResponseCreate | OtherKind

  /** The readers of message texts, and the rewriting of a request for a provider's model. */
  datatype Reader = Reader(
    kind: string -> Option<Kind>,
    model: string -> Option<string>,
    terminal: string -> bool,
    rewrite: (ProviderId, string, ModelId) -> Option<string>)

  function ToText(m: Message): Option<string> {
    match m
    case Text(text) => Some(text)
    case Payload(bytes, utf8) => if utf8 then Some(bytes) else None
    case Close(reason) => Some(reason)
  }

  predicate StartsRequest(reader: Reader, m: Message) {
    ToText(m).Some? && reader.kind(ToText(m).value) == Some(ResponseCreate)
  }

  predicate IsTerminal(reader: Reader, m: Message) { ToText(m).Some? && reader.terminal(ToText(m).value) }

  // The frozen route.

  /** How a provider takes WebSocket sessions. */
  datatype Plan = HttpBridge | Direct(hasEndpoint: bool, headersValid: bool) | Unsupported

  datatype Snapshot = Snapshot(routes: Routes, providers: map<ProviderId, Plan>)

  datatype SessionRoute = OfficialRoute | ProviderRoute(id: ProviderId)

  /** What the first message fixes for the session. */
  datatype Frozen = Frozen(reader: Reader, snapshot: Snapshot, route: SessionRoute)

  datatype Upstream = Socket(message: Message) | Bridge(provider: ProviderId, model: ModelId)

  datatype Prepared = Prepared(frozen: Frozen, upstream: Upstream)

  datatype Error =
    | InvalidMessage
    | ModelNotAvailable
    | ProviderNotAvailable
    | TransportNotSupported
    | RouteChanged
    | ConcurrentRequest
    | TransportFailed
    | IdleTimeout
    | Shutdown

  function PrepareFirst(reader: Reader, published: Snapshot, officialUrl: bool, m: Message): Result<Prepared, Error> {
    if !m.Text? || reader.model(m.text).None? then Err(InvalidMessage) else
    match Resolve(published.routes, reader.model(m.text).value)
    case Official =>
      if officialUrl then Ok(Prepared(Frozen(reader, published, OfficialRoute), Socket(m)))
          else Err(ProviderNotAvailable)
    case Unavailable => Err(ModelNotAvailable)
    case ThirdParty(provider, model) =>
      if provider !in published.providers then Err(ProviderNotAvailable) else
      match published.providers[provider]
      case HttpBridge => Ok(Prepared(Frozen(reader, published, ProviderRoute(provider)), Bridge(provider, model)))
      case Unsupported => Err(TransportNotSupported)
      case Direct(hasEndpoint, headersValid) =>
        if !hasEndpoint then Err(TransportNotSupported) else
        match reader.rewrite(provider, m.text, model)
        case None => Err(InvalidMessage)
        case Some(text) =>
          if headersValid then Ok(Prepared(Frozen(reader, published, ProviderRoute(provider)), Socket(Text(text))))
              else Err(ProviderNotAvailable)
  }

  /** A follow-up as it is sent on; `observed` tells whether it was reported as a request. */
  datatype Followup = Followup(result: Result<Message, Error>, observed: bool)

  function PrepareFollowup(f: Frozen, m: Message): Followup {
    if !m.Text? then Followup(Ok(m), false) else
    match f.reader.kind(m.text)
    case None => Followup(Err(InvalidMessage), false)
    case Some(OtherKind) => Followup(Ok(m), false)
    case Some(ResponseCreate) =>
      match f.reader.model(m.text)
      case None => Followup(Err(InvalidMessage), false)
      case Some(name) => Followup(Rerouted(f, m.text, Resolve(f.snapshot.routes, name)), true)
  }

  function Rerouted(f: Frozen, text: string, decision: Decision): Result<Message, Error> {
    match (f.route, decision)
    case (OfficialRoute, Official) => Ok(Text(text))
    case (_, Unavailable) => Err(ModelNotAvailable)
    case (ProviderRoute(current), ThirdParty(provider, model)) =>
      if current != provider then Err(RouteChanged)
      else if current !in f.snapshot.providers then Err(ProviderNotAvailable)
      else
        (match f.reader.rewrite(current, text, model)
         case Some(sent) => Ok(Text(sent))
         case None => Err(InvalidMessage))
    case _ => Err(RouteChanged)
  }

  // The loop.

  datatype Stage = Running | Draining | Force

  /** The shutdown channel as a task sees it; without its sender every wait on it ends. */
  datatype Signal = Signal(stage: Stage, senderGone: bool)

  predicate SessionMustEnd(s: Signal, inFlight: bool) {
    s.senderGone || s.stage == Force || (!inFlight && s.stage == Draining)
  }

  datatype Arrival =
    | FromClient(message: Message)
    | FromUpstream(message: Message)
    | ClientGone
    | ClientFailed
    | UpstreamGone
    | UpstreamFailed
    | Silence

  datatype Sending = Delivered | Abandoned | TimedOut | Broken

  /**
   One turn of the loop: the signal its select saw, what arrived, how forwarding it went, and the
   signal after that.
   */
  datatype Poll = Poll(seen: Signal, arrival: Arrival, sending: Sending, after: Signal)

  /** What has been forwarded: to upstream as received and as sent, or to the client. */
  datatype Entry =
    | ToUpstream(received: Message, sent: Message, starts: bool, seen: Signal)
    | ToClient(message: Message, terminal: bool)

  datatype End = Restarted | Closed | Failed(error: Error)

  datatype Session = Session(sequence: nat, inFlight: bool, log: seq<Entry>, observed: seq<nat>, end: Option<End>)

  const U64_MAX: nat := 0xFFFF_FFFF_FFFF_FFFF

  function Next(sequence: nat): nat { if sequence < U64_MAX then sequence + 1 else U64_MAX }

  function Ended(s: Session, end: End): Session { s.(end := Some(end)) }

  function SendError(sending: Sending): Error {
    match sending
    case Abandoned => Shutdown
    case TimedOut => IdleTimeout
    case _ => TransportFailed
  }

  function ForwardToUpstream(f: Frozen, s: Session, m: Message, p: Poll): Session {
    var starts := StartsRequest(f.reader, m);
    if starts && s.inFlight then Ended(s, Failed(ConcurrentRequest)) else
    var followup := PrepareFollowup(f, m);
    var next := Next(s.sequence);
    var s := if followup.observed then s.(sequence := next, observed := s.observed + [next]) else s;
    match followup.result
    case Err(e) => Ended(s, Failed(e))
    case Ok(sent) =>
      if p.sending.Delivered? then
        s.(log := s.log + [ToUpstream(m, sent, starts, p.seen)], inFlight := s.inFlight || starts)
      else Ended(s, Failed(SendError(p.sending)))
  }

  function ForwardToClient(f: Frozen, s: Session, m: Message, p: Poll): Session {
    var terminal := IsTerminal(f.reader, m);
    if !p.sending.Delivered? then Ended(s, Failed(SendError(p.sending))) else
    var s := s.(log := s.log + [ToClient(m, terminal)], inFlight := s.inFlight && !terminal);
    if terminal && p.after.stage != Running then Ended(s, Restarted) else s
  }

  function Step(f: Frozen, s: Session, p: Poll): Session {
    if s.end.Some? then s else
    if SessionMustEnd(p.seen, s.inFlight) then Ended(s, Restarted) else
    match p.arrival
    case FromClient(Close(_)) => Ended(s, Closed)
    case FromClient(m) => ForwardToUpstream(f, s, m, p)
    case FromUpstream(Close(_)) => Ended(s, Closed)
    case FromUpstream(m) => ForwardToClient(f, s, m, p)
    case ClientGone => Ended(s, Closed)
    case ClientFailed => Ended(s, Failed(TransportFailed))
    case UpstreamFailed => Ended(s, Failed(TransportFailed))
    case UpstreamGone => Ended(s, Failed(TransportFailed))
    case Silence => Ended(s, Failed(IdleTimeout))
  }

  function Run(f: Frozen, s: Session, polls: seq<Poll>): Session {
    if polls == [] then s else Step(f, Run(f, s, polls[..|polls| - 1]), polls[|polls| - 1])
  }

  /** The session as it enters the loop: the first request is already in flight. */
  function Start(f: Frozen, first: Message, sent: Message, seen: Signal): Session {
    Session(1, true, [ToUpstream(first, sent, true, seen)], [1], None)
  }

  // Laws.

  /** The last request or terminal event in the log is a request. */
  predicate Busy(log: seq<Entry>) {
    log != [] &&
    match log[|log| - 1]
    case ToUpstream(_, _, starts, _) => starts || Busy(log[..|log| - 1])
    case ToClient(_, terminal) => !terminal && Busy(log[..|log| - 1])
  }

  predicate StartsAt(log: seq<Entry>, k: int) { 0 <= k < |log| && log[k].ToUpstream? && log[k].starts }

  predicate TerminalAt(log: seq<Entry>, k: int) { 0 <= k < |log| && log[k].ToClient? && log[k].terminal }

  /** Between any two requests the client was sent a terminal event. */
  ghost predicate OneAtATime(log: seq<Entry>) {
    forall i, j :: i < j && StartsAt(log, i) && StartsAt(log, j) ==> exists k :: i < k < j && TerminalAt(log, k)
  }

  /** Every request has been followed by a terminal event. */
  ghost predicate Answered(log: seq<Entry>) {
    forall i :: StartsAt(log, i) ==> AnsweredAfter(log, i)
  }

  ghost predicate AnsweredAfter(log: seq<Entry>, i: int) { exists k :: i < k && TerminalAt(log, k) }

  lemma {:induction false} IdleIffAnswered(log: seq<Entry>)
    ensures !Busy(log) <==> Answered(log)
  {
    if log != [] {
      var n := |log| - 1;
      var init, last := log[..n], log[n];
      IdleIffAnswered(init);
      assert forall k :: k != n ==>
          (StartsAt(log, k) <==> StartsAt(init, k)) && (TerminalAt(log, k) <==> TerminalAt(init, k));
      if TerminalAt(log, n) {
        forall i | StartsAt(log, i) ensures AnsweredAfter(log, i) {
          assert i < n && TerminalAt(log, n);
        }
      } else if StartsAt(log, n) {
        assert !AnsweredAfter(log, n);
      } else {
        forall i ensures AnsweredAfter(log, i) <==> AnsweredAfter(init, i) {
          if AnsweredAfter(log, i) {
            var k :| i < k && TerminalAt(log, k);
            assert TerminalAt(init, k);
          }
          if AnsweredAfter(init, i) {
            var k :| i < k && TerminalAt(init, k);
            assert TerminalAt(log, k);
          }
        }
        assert StartsAt(log, n) == StartsAt(init, n) == false;
      }
    }
  }

  /** A text request on the frozen route of the frozen snapshot, as it must be sent. */
  predicate OnRoute(f: Frozen, text: string, sent: Message) {
    && f.reader.model(text).Some?
    && var decision := Resolve(f.snapshot.routes, f.reader.model(text).value);
       match f.route
       case OfficialRoute => decision == Official && sent == Text(text)
       case ProviderRoute(p) =>
         && decision.ThirdParty? && decision.provider == p && p in f.snapshot.providers
         && f.reader.rewrite(p, text, decision.model).Some?
         && sent == Text(f.reader.rewrite(p, text, decision.model).value)
  }

  predicate EntryOnRoute(f: Frozen, e: Entry) {
    e.ToUpstream? ==>
      if e.received.Text? && (e.starts || StartsRequest(f.reader, e.received)) then OnRoute(f, e.received.text, e.sent)
      else e.sent == e.received
  }

  /** The relay starts a request only while it sees the service running. */
  predicate EntrySeesRunning(e: Entry) { e.ToUpstream? && e.starts ==> e.seen == Signal(Running, false) }

  ghost predicate Inv(f: Frozen, s: Session) {
    && (s.end.None? ==> s.inFlight == Busy(s.log))
    && OneAtATime(s.log)
    && (forall k :: 0 <= k < |s.log| ==> EntryOnRoute(f, s.log[k]))
    && (forall k :: 0 <= k < |s.log| ==> EntrySeesRunning(s.log[k]))
    && s.observed != [] && s.observed[|s.observed| - 1] == s.sequence
    && (forall k :: 0 <= k < |s.observed| ==> s.observed[k] == if k < U64_MAX then k + 1 else U64_MAX)
  }

  lemma AppendKeepsOneAtATime(log: seq<Entry>, e: Entry)
    requires OneAtATime(log) && (e.ToUpstream? && e.starts ==> !Busy(log))
    ensures OneAtATime(log + [e])
  {
    var longer := log + [e];
    IdleIffAnswered(log);
    assert forall k :: k != |log| ==>
        (StartsAt(longer, k) <==> StartsAt(log, k)) && (TerminalAt(longer, k) <==> TerminalAt(log, k));
    forall i, j | i < j && StartsAt(longer, i) && StartsAt(longer, j)
      ensures exists k :: i < k < j && TerminalAt(longer, k)
    {
      if j == |log| {
        assert AnsweredAfter(log, i);
        var k :| i < k && TerminalAt(log, k);
        assert TerminalAt(longer, k);
      } else {
        var k :| i < k < j && TerminalAt(log, k);
        assert TerminalAt(longer, k);
      }
    }
  }

  lemma AppendBusy(log: seq<Entry>, e: Entry)
    ensures e.ToUpstream? ==> Busy(log + [e]) == (e.starts || Busy(log))
    ensures e.ToClient? ==> Busy(log + [e]) == (!e.terminal && Busy(log))
  {
    assert (log + [e])[..|log|] == log;
  }

  lemma FollowupIsOnRoute(f: Frozen, m: Message, seen: Signal, inFlight: bool)
    requires !SessionMustEnd(seen, inFlight) && !(StartsRequest(f.reader, m) && inFlight)
    ensures var sent := PrepareFollowup(f, m).result;
            sent.Ok? ==>
              var e := ToUpstream(m, sent.value, StartsRequest(f.reader, m), seen);
              EntryOnRoute(f, e) && EntrySeesRunning(e)
  {
  }

  lemma StepKeepsInv(f: Frozen, s: Session, p: Poll)
    requires Inv(f, s)
    ensures Inv(f, Step(f, s, p))
  {
    if s.end.None? && !SessionMustEnd(p.seen, s.inFlight) && p.arrival.FromClient? && !p.arrival.message.Close? {
      ClientStepKeepsInv(f, s, p.arrival.message, p);
    } else if s.end.None? && !SessionMustEnd(p.seen, s.inFlight) && p.arrival.FromUpstream?
        && !p.arrival.message.Close? {
      UpstreamStepKeepsInv(f, s, p.arrival.message, p);
    }
    hide OneAtATime, Busy, EntryOnRoute, EntrySeesRunning, ForwardToUpstream, ForwardToClient;
  }

  lemma ClientStepKeepsInv(f: Frozen, s: Session, m: Message, p: Poll)
    requires Inv(f, s) && s.end.None? && !SessionMustEnd(p.seen, s.inFlight)
    ensures Inv(f, ForwardToUpstream(f, s, m, p))
  {
    hide OneAtATime, Busy, EntryOnRoute, EntrySeesRunning, PrepareFollowup, StartsRequest;
    var starts := StartsRequest(f.reader, m);
    var sent := PrepareFollowup(f, m).result;
    if sent.Ok? && p.sending.Delivered? && !(starts && s.inFlight) {
      FollowupIsOnRoute(f, m, p.seen, s.inFlight);
      var e := ToUpstream(m, sent.value, starts, p.seen);
      AppendKeepsOneAtATime(s.log, e);
      AppendBusy(s.log, e);
    }
  }

  lemma ToClientIsFree(f: Frozen, e: Entry)
    requires e.ToClient?
    ensures EntryOnRoute(f, e) && EntrySeesRunning(e)
  {
  }

  lemma UpstreamStepKeepsInv(f: Frozen, s: Session, m: Message, p: Poll)
    requires Inv(f, s) && s.end.None?
    ensures Inv(f, ForwardToClient(f, s, m, p))
  {
    hide OneAtATime, Busy, IsTerminal, EntryOnRoute, EntrySeesRunning;
    var e := ToClient(m, IsTerminal(f.reader, m));
    AppendKeepsOneAtATime(s.log, e);
    AppendBusy(s.log, e);
    ToClientIsFree(f, e);
  }

  lemma {:induction false} RunKeepsInv(f: Frozen, s: Session, polls: seq<Poll>)
    requires Inv(f, s)
    ensures Inv(f, Run(f, s, polls))
  {
    if polls != [] {
      hide Inv, Step;
      RunKeepsInv(f, s, polls[..|polls| - 1]);
      StepKeepsInv(f, Run(f, s, polls[..|polls| - 1]), polls[|polls| - 1]);
    }
  }

  lemma StartIsLawful(reader: Reader, published: Snapshot, officialUrl: bool, first: Message)
    ensures var prepared := PrepareFirst(reader, published, officialUrl, first);
            prepared.Ok? && prepared.value.upstream.Socket? ==>
              prepared.value.frozen.snapshot == published
              && var sent := prepared.value.upstream.message;
                 Inv(prepared.value.frozen, Start(prepared.value.frozen, first, sent, Signal(Running, false)))
  {
    var prepared := PrepareFirst(reader, published, officialUrl, first);
    if prepared.Ok? && prepared.value.upstream.Socket? {
      var s := Start(prepared.value.frozen, first, prepared.value.upstream.message, Signal(Running, false));
      AppendBusy([], s.log[0]);
      assert [] + s.log == s.log;
    }
  }

  /**
   Main law, over every interleaving of both peers, shutdown and configuration reloads: between two
   forwarded requests a terminal event was forwarded; every forwarded text request resolves to the
   session's route in the snapshot its first message loaded, and is sent as that route prescribes;
   a request is only forwarded in a turn that saw the service running; and the observed requests are
   numbered from one without a gap (up to the counter's width).
   */
  lemma RelayIsSafe(reader: Reader, published: Snapshot, officialUrl: bool, first: Message, polls: seq<Poll>)
    ensures var prepared := PrepareFirst(reader, published, officialUrl, first);
            prepared.Ok? && prepared.value.upstream.Socket? ==>
              var f := prepared.value.frozen;
              var s := Run(f, Start(f, first, prepared.value.upstream.message, Signal(Running, false)), polls);
              && f.snapshot == published
              && OneAtATime(s.log)
              && (forall k :: 0 <= k < |s.log| ==> EntryOnRoute(f, s.log[k]) && EntrySeesRunning(s.log[k]))
              && (forall k :: 0 <= k < |s.observed| ==>
                    s.observed[k] == if k < 0xFFFF_FFFF_FFFF_FFFF then k + 1 else 0xFFFF_FFFF_FFFF_FFFF)
  {
    hide OneAtATime, EntryOnRoute, EntrySeesRunning, PrepareFirst;
    StartIsLawful(reader, published, officialUrl, first);
    var prepared := PrepareFirst(reader, published, officialUrl, first);
    if prepared.Ok? && prepared.value.upstream.Socket? {
      var f := prepared.value.frozen;
      RunKeepsInv(f, Start(f, first, prepared.value.upstream.message, Signal(Running, false)), polls);
    }
  }

  /**
   A binary, ping or pong frame that reads as a request starts one, and reaches the upstream as it came:
   no route check, no rewriting, and nothing is observed.
   */
  lemma PayloadRequestSkipsTheRoute(f: Frozen, s: Session, p: Poll, bytes: string)
    requires s.end.None? && !s.inFlight && p.seen == Signal(Running, false) && p.sending.Delivered?
    requires p.arrival == FromClient(Payload(bytes, true)) && f.reader.kind(bytes) == Some(ResponseCreate)
    ensures var m := Payload(bytes, true); var next := Step(f, s, p);
            && next.inFlight && next.end.None?
            && next.log == s.log + [ToUpstream(m, m, true, p.seen)]
            && next.observed == s.observed && next.sequence == s.sequence
  {
  }

  // Draining.

  /** Nothing forces the session to end, and a send is abandoned only under force. */
  predicate Graceful(p: Poll) {
    && p.seen.stage != Force && !p.seen.senderGone && p.after.stage != Force && !p.after.senderGone
    && (p.sending.Abandoned? ==> p.after.stage == Force || p.after.senderGone)
  }

  predicate GracefulEnd(s: Session) {
    match s.end
    case None => s.inFlight == Busy(s.log)
    case Some(Restarted) => !Busy(s.log)
    case Some(Failed(e)) => e != Shutdown
    case Some(Closed) => true
  }

  lemma GracefulStep(f: Frozen, s: Session, p: Poll)
    requires GracefulEnd(s) && Graceful(p)
    ensures GracefulEnd(Step(f, s, p))
  {
    hide Rerouted, Resolve, IsTerminal, StartsRequest;
    if p.arrival.FromUpstream? {
      AppendBusy(s.log, ToClient(p.arrival.message, IsTerminal(f.reader, p.arrival.message)));
    } else if p.arrival.FromClient? {
      var sent := PrepareFollowup(f, p.arrival.message).result;
      FollowupNeverShutsDown(f, p.arrival.message);
      if sent.Ok? {
        AppendBusy(s.log, ToUpstream(p.arrival.message, sent.value, StartsRequest(f.reader, p.arrival.message),
            p.seen));
      }
    }
    hide Busy, PrepareFollowup;
  }

  lemma FollowupNeverShutsDown(f: Frozen, m: Message)
    ensures PrepareFollowup(f, m).result.Err? ==> PrepareFollowup(f, m).result.error != Shutdown
  {
  }

  /** Main law: draining alone never ends a session between a forwarded request and its terminal event. */
  lemma {:induction false} DrainingNeverCutsAResponse(f: Frozen, s: Session, polls: seq<Poll>)
    requires GracefulEnd(s) && forall k :: 0 <= k < |polls| ==> Graceful(polls[k])
    ensures var end := Run(f, s, polls);
            && GracefulEnd(end)
            && (end.end == Some(Restarted) ==> Answered(end.log))
    decreases |polls|
  {
    hide Step, GracefulEnd, Graceful;
    if polls != [] {
      DrainingNeverCutsAResponse(f, s, polls[..|polls| - 1]);
      GracefulStep(f, Run(f, s, polls[..|polls| - 1]), polls[|polls| - 1]);
    }
    RestartedIsAnswered(Run(f, s, polls));
  }

  lemma RestartedIsAnswered(s: Session)
    requires GracefulEnd(s)
    ensures s.end == Some(Restarted) ==> Answered(s.log)
  {
    IdleIffAnswered(s.log);
  }

  /** Without the hypothesis it can: a lost shutdown sender ends a session whose request is still unanswered. */
  lemma LostSenderCutsAResponse(f: Frozen, s: Session, p: Poll)
    requires Inv(f, s) && s.end.None? && s.inFlight && p.seen.senderGone
    ensures Step(f, s, p) == s.(end := Some(Restarted)) && !Answered(Step(f, s, p).log)
  {
    IdleIffAnswered(s.log);
  }

  /** And exactly then, or under force: a turn ends a session with its request unanswered as a restart. */
  lemma RestartCutsIffForcedOrLost(f: Frozen, s: Session, p: Poll)
    requires Inv(f, s) && s.end.None?
    ensures var next := Step(f, s, p);
            next.end == Some(Restarted) && !Answered(next.log) <==>
              s.inFlight && (p.seen.senderGone || p.seen.stage == Force)
  {
    IdleIffAnswered(s.log);
    hide Rerouted, Resolve, IsTerminal, StartsRequest, Busy, Answered;
    if p.arrival.FromUpstream? {
      var e := ToClient(p.arrival.message, IsTerminal(f.reader, p.arrival.message));
      AppendBusy(s.log, e);
      IdleIffAnswered(s.log + [e]);
    }
  }

  // Many sessions, and configurations published while they run.

  datatype Opened = Opened(frozen: Frozen, session: Session)

  datatype Server = Server(published: Snapshot, sessions: seq<Opened>)

  /** A configuration is published, a client's first message arrives, or a session takes a turn. */
  datatype ServerEvent = Publish(snapshot: Snapshot) | Open(first: Message) | Turn(id: nat, poll: Poll)

  function ServerStep(reader: Reader, officialUrl: bool, s: Server, e: ServerEvent): Server {
    match e
    case Publish(snapshot) => s.(published := snapshot)
    case Open(first) =>
      var prepared := PrepareFirst(reader, s.published, officialUrl, first);
      if prepared.Ok? && prepared.value.upstream.Socket? then
        var f := prepared.value.frozen;
        var session := Start(f, first, prepared.value.upstream.message, Signal(Running, false));
        s.(sessions := s.sessions + [Opened(f, session)])
      else s
    case Turn(id, poll) =>
      if id < |s.sessions| then
        var o := s.sessions[id];
        s.(sessions := s.sessions[id := o.(session := Step(o.frozen, o.session, poll))])
      else s
  }

  function ServerRun(reader: Reader, officialUrl: bool, s: Server, events: seq<ServerEvent>): Server {
    if events == [] then s
    else ServerStep(reader, officialUrl, ServerRun(reader, officialUrl, s, events[..|events| - 1]),
        events[|events| - 1])
  }

  /** The turns session `id` takes. */
  function TurnsOf(events: seq<ServerEvent>, id: nat): seq<Poll> {
    if events == [] then []
    else
      var last := events[|events| - 1];
      TurnsOf(events[..|events| - 1], id) + if last.Turn? && last.id == id then [last.poll] else []
  }

  /** Sessions do not disturb each other, and nothing published reaches an open one. */
  lemma {:induction false} SessionsRunOnTheirOwn(reader: Reader, officialUrl: bool, s: Server,
      events: seq<ServerEvent>, id: nat)
    requires id < |s.sessions|
    ensures var end := ServerRun(reader, officialUrl, s, events);
            && |s.sessions| <= |end.sessions|
            && end.sessions[id] == Opened(s.sessions[id].frozen,
                Run(s.sessions[id].frozen, s.sessions[id].session, TurnsOf(events, id)))
  {
    if events != [] {
      hide Step, PrepareFirst;
      var init, last := events[..|events| - 1], events[|events| - 1];
      SessionsRunOnTheirOwn(reader, officialUrl, s, init, id);
      if last.Turn? && last.id == id {
        assert (TurnsOf(init, id) + [last.poll])[..|TurnsOf(init, id)|] == TurnsOf(init, id);
      } else {
        assert TurnsOf(init, id) + [] == TurnsOf(init, id);
      }
    }
  }

  /**
   Main law: a session lives on the configuration that was published when its first message came. However
   configurations are published and other sessions run before and after, it is the run of its own turns
   on that snapshot, and safe on it.
   */
  lemma SessionKeepsItsSnapshot(reader: Reader, officialUrl: bool, s: Server, before: seq<ServerEvent>, first: Message,
                                after: seq<ServerEvent>)
    ensures var state := ServerRun(reader, officialUrl, s, before);
            var entered := ServerStep(reader, officialUrl, state, Open(first));
            var end := ServerRun(reader, officialUrl, entered, after);
            var id := |state.sessions|;
            |entered.sessions| > id ==>
              && |end.sessions| > id
              && end.sessions[id].frozen.snapshot == state.published
              && end.sessions[id].session == Run(end.sessions[id].frozen, entered.sessions[id].session,
                  TurnsOf(after, id))
              && OneAtATime(end.sessions[id].session.log)
              && forall k :: 0 <= k < |end.sessions[id].session.log| ==>
                   EntryOnRoute(end.sessions[id].frozen, end.sessions[id].session.log[k])
  {
    hide Step, Run, OneAtATime, EntryOnRoute, EntrySeesRunning, PrepareFirst, ServerRun;
    var state := ServerRun(reader, officialUrl, s, before);
    var entered := ServerStep(reader, officialUrl, state, Open(first));
    if |entered.sessions| > |state.sessions| {
      SessionsRunOnTheirOwn(reader, officialUrl, entered, after, |state.sessions|);
      RelayIsSafe(reader, state.published, officialUrl, first, TurnsOf(after, |state.sessions|));
    }
  }

  /** On a provider's route, every text request that was forwarded named an enabled model of that provider. */
  lemma RequestsNameEnabledModels(f: Frozen, doc: Document, text: string, sent: Message)
    requires f.snapshot.routes == RoutesOf(doc.providers) && f.route.ProviderRoute? && OnRoute(f, text, sent)
    ensures exists m: ModelId ::
              && Enables(doc.providers, Route(f.route.id, m))
              && f.reader.model(text) == Some(CatalogName(f.route.id, m))
              && f.reader.rewrite(f.route.id, text, m) == Some(sent.text)
  {
    var name := f.reader.model(text).value;
    RoutingIsExact(doc, name);
    var m := Resolve(f.snapshot.routes, name).model;
    assert Resolve(f.snapshot.routes, name) == ThirdParty(f.route.id, m);
    hide Enables, Resolve, RoutesOf;
  }

  // The loop as it runs.

  method RelayMessages(f: Frozen, first: Message, sentFirst: Message, seenFirst: Signal, polls: seq<Poll>)
      returns (s: Session)
    ensures s == Run(f, Start(f, first, sentFirst, seenFirst), polls)
  {
    hide PrepareFollowup, StartsRequest, IsTerminal, Busy;
    var sequence, inFlight := 1, true;
    var log, observed := [ToUpstream(first, sentFirst, true, seenFirst)], [1];
    var end: Option<End> := None;
    var k := 0;
    while k < |polls|
      invariant 0 <= k <= |polls|
      invariant Session(sequence, inFlight, log, observed, end)
          == Run(f, Start(f, first, sentFirst, seenFirst), polls[..k])
      invariant end.None?
    {
      var p := polls[k];
      assert polls[..k + 1][..k] == polls[..k];
      k := k + 1;
      if SessionMustEnd(p.seen, inFlight) {
        end := Some(Restarted);
        break;
      }
      match p.arrival {
        case FromClient(m) =>
          if m.Close? {
            end := Some(Closed);
            break;
          }
          var starts := StartsRequest(f.reader, m);
          if starts && inFlight {
            end := Some(Failed(ConcurrentRequest));
            break;
          }
          var followup := PrepareFollowup(f, m);
          if followup.observed {
            sequence := Next(sequence);
            observed := observed + [sequence];
          }
          if followup.result.Err? {
            end := Some(Failed(followup.result.error));
            break;
          }
          if !p.sending.Delivered? {
            end := Some(Failed(SendError(p.sending)));
            break;
          }
          log := log + [ToUpstream(m, followup.result.value, starts, p.seen)];
          if starts {
            inFlight := true;
          }
        case FromUpstream(m) =>
          if m.Close? {
            end := Some(Closed);
            break;
          }
          var terminal := IsTerminal(f.reader, m);
          if !p.sending.Delivered? {
            end := Some(Failed(SendError(p.sending)));
            break;
          }
          log := log + [ToClient(m, terminal)];
          if terminal {
            inFlight := false;
            if p.after.stage != Running {
              end := Some(Restarted);
              break;
            }
          }
        case ClientGone => end := Some(Closed); break;
        case Silence => end := Some(Failed(IdleTimeout)); break;
        case _ => end := Some(Failed(TransportFailed)); break;
      }
    }
    s := Session(sequence, inFlight, log, observed, end);
    if end.Some? {
      RunStaysEnded(f, Start(f, first, sentFirst, seenFirst), polls, k);
    } else {
      assert polls[..k] == polls;
    }
  }

  lemma {:induction false} RunStaysEnded(f: Frozen, s: Session, polls: seq<Poll>, k: nat)
    requires k <= |polls| && Run(f, s, polls[..k]).end.Some?
    ensures Run(f, s, polls) == Run(f, s, polls[..k])
    decreases |polls|
  {
    if k == |polls| {
      assert polls[..k] == polls;
    } else {
      var init := polls[..|polls| - 1];
      assert init[..k] == polls[..k];
      RunStaysEnded(f, s, init, k);
    }
  }
}
