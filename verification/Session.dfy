/** The whole system: local applications, their SOCKS sessions, the local server, the two message
    pipes of the link, and the far end. Every interleaving of its atomic steps is a run.

    Assumed of the environment: a peer port is never 0; the interval timer leaves at least its interval
    between two ticks; the link neither loses nor reorders messages; a reader yields no empty chunk;
    the items of one local connection come in the order the SOCKS parser lets them come. A uuid (a
    local port) may be reused at any time. */
module Session {
  import opened Bytes
  import opened Messages
  import SocksMessages
  import SocksRequests
  import SocksSession
  import LocalServer
  import ProxySide

  datatype Mail = Submit(m: Message) | Beat

  /** A session with its input: the parser's phase and the mailbox; and with its history: what was ever
      forwarded to it, what it has handled, when it took its request and when it last handled an
      outcome. */
  datatype Actor = Actor(
    s: SocksSession.State,
    phase: SocksRequests.Phase,
    inbox: seq<ConnectorResponse>,
    running: bool,
    panicked: bool,
    arrived: seq<ConnectorResponse>,
    handled: seq<ConnectorResponse>,
    askedAt: Option<nat>,
    toldAt: Option<nat>)

  datatype Status = Serving | RoutingFailed | Overflowed

  /** Requests posted to the local server, messages it wrote to the link, replies it took from the
      link; uuids for which data was sent before success was handled; heartbeats posted since the last
      echo and when the last was; when the last echo was taken and when a heartbeat was last handled. */
  datatype History = History(
    requested: seq<Message>,
    submitted: seq<Message>,
    received: seq<Message>,
    hasty: set<u16>,
    sinceEcho: nat,
    lastPost: nat,
    lastEcho: nat,
    lastBeat: nat)

  /** `server.writer` and `far.s.outbox` are the two pipes of the link. */
  datatype System = System(
    server: LocalServer.State,
    status: Status,
    mailbox: seq<Mail>,
    actors: seq<Actor>,
    far: ProxySide.Run,
    now: nat,
    lastTick: nat,
    log: History)

  const INIT := System(
    LocalServer.START, Serving, [], [], ProxySide.START, 0, 0, History([], [], [], {}, 0, 0, 0, 0))

  datatype Event =
    | Accept(port: u16)
    | AppItem(c: nat, item: SocksMessages.SocksRequest)
    | AppClosed(c: nat)
    | SessionMail(c: nat)
    | Tick
    | ServerMail
    | DeliverRequest(w: ProxySide.WriteOutcome)
    | DeliverReply
    | Far(e: ProxySide.Event)
    | Wait(d: nat)

  /** Which events can happen. */
  predicate Possible(s: System, e: Event) {
    match e
    case Accept(port) => s.status.Serving? && port != 0
    case AppItem(c, item) =>
      c < |s.actors| && s.actors[c].running && SocksRequests.Accept(s.actors[c].phase, item).Some?
    case AppClosed(c) => c < |s.actors| && s.actors[c].running
    case SessionMail(c) => c < |s.actors| && s.actors[c].running && s.actors[c].inbox != []
    case Tick => s.status.Serving? && s.now - s.lastTick >= LocalServer.HEARTBEAT_INTERVAL
    case ServerMail => s.status.Serving? && s.mailbox != []
    case DeliverRequest(_) => s.server.writer != [] && s.far.s.fault.NoFault?
    case DeliverReply => s.status.Serving? && s.far.s.outbox != []
    case Far(f) => !f.Consume? && !f.Flush? && ProxySide.Possible(s.far.s, f)
    case Wait(_) => true
  }

  function FreshActor(port: u16): Actor {
    Actor(SocksSession.Fresh(port), SocksRequests.NEGOTIATION, [], true, false, [], [], None, None)
  }

  /** A new session; the table entry of a reused port is overwritten. */
  function OnAccept(s: System, port: u16): System {
    s.(server := LocalServer.OnConnected(s.server, port, |s.actors|),
       actors := s.actors + [FreshActor(port)])
  }

  /** What an item makes a session send to the local server, while that runs. */
  function Posts(t: SocksSession.Ipv6Text, s: System, c: nat, item: SocksMessages.SocksRequest): seq<Message>
    requires c < |s.actors|
  {
    match SocksSession.OnRequest(t, s.actors[c].s, item, s.now).1
    case Some(m) => if s.status.Serving? then [m] else []
    case None => []
  }

  function OnAppItem(t: SocksSession.Ipv6Text, s: System, c: nat, item: SocksMessages.SocksRequest): System
    requires Possible(s, AppItem(c, item))
  {
    var a := s.actors[c];
    var client := SocksSession.OnRequest(t, a.s, item, s.now).0;
    var a' := a.(s := client, phase := SocksRequests.Accept(a.phase, item).value,
                 askedAt := if item.Target? then Some(s.now) else a.askedAt);
    var posts := Posts(t, s, c, item);
    s.(actors := s.actors[c := a'],
       mailbox := s.mailbox + (if posts == [] then [] else [Submit(posts[0])]),
       log := s.log.(
         requested := s.log.requested + posts,
         hasty := if item.Data? && Success !in a.handled then s.log.hasty + {a.s.uuid} else s.log.hasty))
  }

  function OnSessionMail(s: System, c: nat): System
    requires Possible(s, SessionMail(c))
  {
    var a := s.actors[c];
    var (client, reaction) := SocksSession.OnConnector(a.s, a.inbox[0], s.now);
    var a' := a.(s := client, inbox := a.inbox[1..], running := reaction.Continue?,
                 panicked := reaction.UnwrapPanic?,
                 handled := if reaction.UnwrapPanic? then a.handled else a.handled + [a.inbox[0]],
                 toldAt := if (a.inbox[0].Success? || a.inbox[0].Failed?) && !reaction.UnwrapPanic?
                           then Some(s.now) else a.toldAt);
    s.(actors := s.actors[c := a'])
  }

  function OnTick(s: System): System {
    if LocalServer.TickPosts(s.server, s.now) then
      s.(mailbox := s.mailbox + [Beat], lastTick := s.now,
         log := s.log.(sinceEcho := s.log.sinceEcho + 1, lastPost := s.now))
    else s.(lastTick := s.now)
  }

  function OnServerMail(s: System): System
    requires s.mailbox != []
  {
    var s' := s.(mailbox := s.mailbox[1..]);
    match s.mailbox[0]
    case Submit(m) =>
      s'.(server := LocalServer.OnRequest(s.server, m), log := s.log.(submitted := s.log.submitted + [m]))
    case Beat =>
      var (server, effect) := LocalServer.OnHeartbeat(s.server, s.now);
      if effect.OverflowPanic? then
        s'.(server := server, status := Overflowed, log := s.log.(lastBeat := s.now))
      else
        s'.(server := server,
            log := s.log.(submitted := s.log.submitted + server.writer[|s.server.writer|..], lastBeat := s.now))
  }

  function OnDeliverRequest(s: System, w: ProxySide.WriteOutcome): System
    requires s.server.writer != []
  {
    s.(server := s.server.(writer := s.server.writer[1..]),
       far := ProxySide.Next(s.far, ProxySide.Consume(s.server.writer[0], w)))
  }

  /** A message sent to a stopped session is dropped. */
  function Forwarded(actors: seq<Actor>, c: nat, msg: ConnectorResponse): seq<Actor> {
    if c < |actors| then
      var a := actors[c];
      actors[c := a.(arrived := a.arrived + [msg], inbox := if a.running then a.inbox + [msg] else a.inbox)]
    else actors
  }

  function OnDeliverReply(s: System): System
    requires s.far.s.outbox != []
  {
    var m := s.far.s.outbox[0];
    var (server, effect) := LocalServer.OnResponse(s.server, m, s.now);
    s.(server := server,
       far := ProxySide.Next(s.far, ProxySide.Flush),
       status := if effect.RoutingPanic? then RoutingFailed else s.status,
       actors := if effect.Forward? then Forwarded(s.actors, effect.client, effect.msg) else s.actors,
       log := s.log.(received := s.log.received + [m],
                     sinceEcho := if m.uuid == 0 && m.transfer.Heartbeat? then 0 else s.log.sinceEcho,
                     lastEcho := if m.uuid == 0 && m.transfer.Heartbeat? then s.now else s.log.lastEcho))
  }

  function Step(t: SocksSession.Ipv6Text, s: System, e: Event): System
    requires Possible(s, e)
  {
    match e
    case Accept(port) => OnAccept(s, port)
    case AppItem(c, item) => OnAppItem(t, s, c, item)
    case AppClosed(c) => s.(actors := s.actors[c := s.actors[c].(running := false)])
    case SessionMail(c) => OnSessionMail(s, c)
    case Tick => OnTick(s)
    case ServerMail => OnServerMail(s)
    case DeliverRequest(w) => OnDeliverRequest(s, w)
    case DeliverReply => OnDeliverReply(s)
    case Far(f) => s.(far := ProxySide.Next(s.far, f))
    case Wait(d) => s.(now := s.now + d)
  }

  /** One step; an event that cannot happen changes nothing. */
  function Next(t: SocksSession.Ipv6Text, s: System, e: Event): System {
    if Possible(s, e) then Step(t, s, e) else s
  }

  function Exec(t: SocksSession.Ipv6Text, es: seq<Event>): System {
    if es == [] then INIT else Next(t, Exec(t, es[..|es| - 1]), es[|es| - 1])
  }

  lemma ExecSnoc(t: SocksSession.Ipv6Text, es: seq<Event>, e: Event)
    ensures Exec(t, es + [e]) == Next(t, Exec(t, es), e)
  {
    assert (es + [e])[..|es|] == es;
  }

  /** No other session of the run had the uuid of session `c`. */
  predicate Alone(s: System, c: nat) {
    c < |s.actors| ==>
      forall j :: 0 <= j < |s.actors| && j != c ==> s.actors[j].s.uuid != s.actors[c].s.uuid
  }
}
