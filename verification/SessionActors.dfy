/** The SOCKS sessions over every run: what they have recorded, received and delivered. */
module SessionActors {
  import opened Bytes
  import opened Messages
  import opened Sequences
  import opened Session
  import SocksMessages
  import SocksRequests
  import SocksSession
  import LocalServer
  import ProxySide
  import ProxyRuns
  import SessionLinks
  import SessionRouting

  function ReceivedIn(): ConnectorResponse -> seq<byte> {
    (msg: ConnectorResponse) => if msg.Received? then msg.data else []
  }

  /** The data among messages forwarded to a session. */
  function ReceivedData(q: seq<ConnectorResponse>): seq<byte> {
    FlatMap(ReceivedIn(), q)
  }

  function PayloadIn(): SocksMessages.SocksResponse -> seq<byte> {
    (r: SocksMessages.SocksResponse) => if r.Payload? then r.data else []
  }

  /** The data among the responses written to the application. */
  function Delivered(q: seq<SocksMessages.SocksResponse>): seq<byte> {
    FlatMap(PayloadIn(), q)
  }

  function CodeIn(): SocksMessages.SocksResponse -> seq<byte> {
    (r: SocksMessages.SocksResponse) => if r.Reply? then [r.response.response.Code()] else []
  }

  /** The reply codes written to the application. */
  function CodesTold(q: seq<SocksMessages.SocksResponse>): seq<byte> {
    FlatMap(CodeIn(), q)
  }

  function VerdictIn(): ConnectorResponse -> seq<byte> {
    (msg: ConnectorResponse) => if msg.Success? then [0] else if msg.Failed? then [5] else []
  }

  /** The reply codes of section 6 of RFC 1928 that messages call for: 0 succeeded, 5 refused. */
  function Verdicts(q: seq<ConnectorResponse>): seq<byte> {
    FlatMap(VerdictIn(), q)
  }

  function ReadyFor(u: u16): Actor -> seq<Actor> {
    (a: Actor) => if a.s.uuid == u && a.phase == SocksRequests.READY then [a] else []
  }

  /** The sessions of a uuid that have sent their request. */
  function ReadySessions(actors: seq<Actor>, u: u16): seq<Actor> {
    FlatMap(ReadyFor(u), actors)
  }

  function ArrivalFor(u: u16): Message -> seq<ConnectorResponse> {
    (m: Message) =>
      if m.uuid == u && LocalServer.Translate(m.transfer).Some?
      then [LocalServer.Translate(m.transfer).value] else []
  }

  /** What replies mean to the session of a uuid. */
  function Arrivals(q: seq<Message>, u: u16): seq<ConnectorResponse> {
    FlatMap(ArrivalFor(u), q)
  }

  // ---- One session ----

  /** The time from the request to the outcome last handled. */
  function RoundTrip(a: Actor): Option<int> {
    match (a.askedAt, a.toldAt)
    case (Some(asked), Some(told)) => Some(told as int - asked as int)
    case _ => None
  }

  /** The request is recorded once it has been sent; what has been handled has been counted and written. */
  predicate ActorOk(a: Actor) {
    && (a.phase == SocksRequests.READY <==> a.s.connectRequestRecord.Some?)
    && (a.phase == SocksRequests.READY <==> a.s.targetAddress.Some?)
    && a.s.connectRequestRecord == a.askedAt && a.s.connectRtt == RoundTrip(a)
    && (a.toldAt.Some? ==> a.askedAt.Some?)
    && (if a.running then a.arrived == a.handled + a.inbox else a.handled <= a.arrived)
    && a.s.recvBytes == |ReceivedData(a.handled)|
    && Delivered(a.s.writer) == ReceivedData(a.handled)
    && CodesTold(a.s.writer) == Verdicts(a.handled)
  }

  predicate ActorsOk(s: System) {
    forall c :: 0 <= c < |s.actors| ==> ActorOk(s.actors[c])
  }

  lemma DataSnoc(writer: seq<SocksMessages.SocksResponse>, r: SocksMessages.SocksResponse,
                 handled: seq<ConnectorResponse>, msg: ConnectorResponse)
    ensures Delivered(writer + [r]) == Delivered(writer) + PayloadIn()(r)
    ensures ReceivedData(handled + [msg]) == ReceivedData(handled) + ReceivedIn()(msg)
    ensures CodesTold(writer + [r]) == CodesTold(writer) + CodeIn()(r)
    ensures Verdicts(handled + [msg]) == Verdicts(handled) + VerdictIn()(msg)
  {
    FlatMapSnoc(PayloadIn(), writer, r);
    FlatMapSnoc(ReceivedIn(), handled, msg);
    FlatMapSnoc(CodeIn(), writer, r);
    FlatMapSnoc(VerdictIn(), handled, msg);
  }

  lemma ItemKeepsActorOk(t: SocksSession.Ipv6Text, s: System, c: nat, item: SocksMessages.SocksRequest)
    requires Possible(s, AppItem(c, item)) && ActorOk(s.actors[c])
    ensures ActorOk(OnAppItem(t, s, c, item).actors[c])
  {
    DataSnoc(s.actors[c].s.writer, SocksMessages.MethodSelected(5, 0), [], Aborted);
  }

  /** A message that is answered with `r`, or with nothing. */
  lemma HandledKeepsActorOk(a: Actor, a': Actor, r: SocksMessages.SocksResponse)
    requires a.running && a.inbox != [] && ActorOk(a)
    requires PayloadIn()(r) == ReceivedIn()(a.inbox[0]) && CodeIn()(r) == VerdictIn()(a.inbox[0])
    requires a' == a.(s := a'.s, inbox := a.inbox[1..], running := a'.running,
                         panicked := a'.panicked, handled := a.handled + [a.inbox[0]], toldAt := a'.toldAt)
    requires a'.s.connectRtt == RoundTrip(a') && (a'.toldAt.Some? ==> a.askedAt.Some?)
    requires a'.s == a.s.(connectRtt := a'.s.connectRtt, recvBytes := a.s.recvBytes + |ReceivedIn()(a.inbox[0])|,
                          writer := a'.s.writer)
    requires a'.s.writer == a.s.writer + [r] || (a'.s.writer == a.s.writer && a.inbox[0].Aborted?)
    ensures ActorOk(a')
  {
    assert a.inbox == [a.inbox[0]] + a.inbox[1..];
    DataSnoc(a.s.writer, r, a.handled, a.inbox[0]);
  }

  lemma MailKeepsActorOk(s: System, c: nat)
    requires Possible(s, SessionMail(c)) && ActorOk(s.actors[c])
    ensures ActorOk(OnSessionMail(s, c).actors[c])
  {
    var a, a' := s.actors[c], OnSessionMail(s, c).actors[c];
    if !a'.panicked {
      var r := match a.inbox[0]
        case Success => SocksSession.SUCCEEDED
        case Failed => SocksSession.REFUSED
        case Received(data) => SocksMessages.Payload(data)
        case Aborted => SocksMessages.MethodSelected(5, 0);
      HandledKeepsActorOk(a, a', r);
    }
  }

  lemma ForwardKeepsActorsOk(actors: seq<Actor>, c: nat, msg: ConnectorResponse)
    requires forall i :: 0 <= i < |actors| ==> ActorOk(actors[i])
    ensures forall i :: 0 <= i < |actors| ==> ActorOk(Forwarded(actors, c, msg)[i])
  {
  }

  lemma ItemKeepsActorsOk(t: SocksSession.Ipv6Text, s: System, c: nat, item: SocksMessages.SocksRequest)
    requires Possible(s, AppItem(c, item)) && ActorsOk(s)
    ensures ActorsOk(OnAppItem(t, s, c, item))
  {
    ItemKeepsActorOk(t, s, c, item);
    assert OnAppItem(t, s, c, item).actors == s.actors[c := OnAppItem(t, s, c, item).actors[c]];
  }

  lemma MailKeepsActorsOk(s: System, c: nat)
    requires Possible(s, SessionMail(c)) && ActorsOk(s)
    ensures ActorsOk(OnSessionMail(s, c))
  {
    MailKeepsActorOk(s, c);
    assert OnSessionMail(s, c).actors == s.actors[c := OnSessionMail(s, c).actors[c]];
  }

  lemma ReplyKeepsActorsOk(s: System)
    requires Possible(s, DeliverReply) && ActorsOk(s)
    ensures ActorsOk(OnDeliverReply(s))
  {
    var effect := LocalServer.OnResponse(s.server, s.far.s.outbox[0], s.now).1;
    if effect.Forward? {
      ForwardKeepsActorsOk(s.actors, effect.client, effect.msg);
    }
  }

  lemma ActorsOkStep(t: SocksSession.Ipv6Text, s: System, e: Event)
    requires Possible(s, e) && ActorsOk(s)
    ensures ActorsOk(Next(t, s, e))
  {
    match e
    case AppItem(c, item) => ItemKeepsActorsOk(t, s, c, item);
    case SessionMail(c) => MailKeepsActorsOk(s, c);
    case DeliverReply => ReplyKeepsActorsOk(s);
    case Accept(port) => AcceptKeepsActorsOk(s, port);
    case AppClosed(c) => assert ActorOk(Next(t, s, e).actors[c]);
    case _ => assert Next(t, s, e).actors == s.actors;
  }

  lemma AcceptKeepsActorsOk(s: System, port: u16)
    requires ActorsOk(s)
    ensures ActorsOk(OnAccept(s, port))
  {
  }

  /** Only a session that has recorded its request can survive every reply. */
  lemma UnwrapStepExactly(s: System, c: nat)
    requires Possible(s, SessionMail(c)) && ActorOk(s.actors[c])
    ensures OnSessionMail(s, c).actors[c].panicked
      <==> (s.actors[c].inbox[0].Success? || s.actors[c].inbox[0].Failed?)
           && s.actors[c].phase != SocksRequests.READY
  {
  }

  // ---- Requests are sent by ready sessions, once each ----

  /** For each uuid, at most one request per session that is ready. */
  predicate OneRequestEach(s: System, u: u16) {
    |ProxyRuns.Requests(s.log.requested, u)| <= |ReadySessions(s.actors, u)|
  }

  lemma FlatMapUpdate<T, U>(f: T -> seq<U>, q: seq<T>, i: nat, x: T)
    requires i < |q|
    ensures |FlatMap(f, q[i := x])| + |f(q[i])| == |FlatMap(f, q)| + |f(x)|
  {
    FlatMapRemoveAt(f, q, i);
    FlatMapRemoveAt(f, q[i := x], i);
    assert RemoveAt(q, i) == RemoveAt(q[i := x], i);
  }

  lemma ItemRequests(t: SocksSession.Ipv6Text, s: System, c: nat, item: SocksMessages.SocksRequest, u: u16)
    requires Possible(s, AppItem(c, item)) && OneRequestEach(s, u)
    ensures OneRequestEach(OnAppItem(t, s, c, item), u)
  {
    var s' := OnAppItem(t, s, c, item);
    FlatMapUpdate(ReadyFor(u), s.actors, c, s'.actors[c]);
    var (client, request) := SocksSession.OnRequest(t, s.actors[c].s, item, s.now);
    if request.Some? && s.status.Serving? {
      FlatMapSnoc(ProxyRuns.RequestFor(u), s.log.requested, request.value);
    } else {
      assert s.log.requested + [] == s.log.requested;
    }
  }

  /** An update that keeps uuid and phase keeps the ready sessions. */
  lemma ReadyKept(actors: seq<Actor>, c: nat, a: Actor, u: u16)
    requires c < |actors| && a.s.uuid == actors[c].s.uuid && a.phase == actors[c].phase
    ensures |ReadySessions(actors[c := a], u)| == |ReadySessions(actors, u)|
  {
    FlatMapUpdate(ReadyFor(u), actors, c, a);
  }

  lemma OneRequestEachStep(t: SocksSession.Ipv6Text, s: System, e: Event, u: u16)
    requires Possible(s, e) && OneRequestEach(s, u)
    ensures OneRequestEach(Next(t, s, e), u)
  {
    var s' := Next(t, s, e);
    match e
    case Accept(port) => FlatMapSnoc(ReadyFor(u), s.actors, s'.actors[|s.actors|]);
    case AppItem(c, item) => ItemRequests(t, s, c, item, u);
    case AppClosed(c) => ReadyKept(s.actors, c, s'.actors[c], u);
    case SessionMail(c) => ReadyKept(s.actors, c, s'.actors[c], u);
    case DeliverReply =>
      var effect := LocalServer.OnResponse(s.server, s.far.s.outbox[0], s.now).1;
      if effect.Forward? && effect.client < |s.actors| {
        ReadyKept(s.actors, effect.client, s'.actors[effect.client], u);
      }
    case _ =>
  }

  lemma {:induction false} NoneReady(actors: seq<Actor>, u: u16)
    requires forall i :: 0 <= i < |actors| ==> actors[i].s.uuid != u
    ensures ReadySessions(actors, u) == []
  {
    if actors != [] {
      NoneReady(actors[1..], u);
    }
  }

  /** The ready sessions of an unshared uuid are its session, if it is ready. */
  lemma OnlyReady(s: System, c: nat)
    requires Alone(s, c) && c < |s.actors|
    ensures |ReadySessions(s.actors, s.actors[c].s.uuid)| == if s.actors[c].phase == SocksRequests.READY then 1 else 0
  {
    var u := s.actors[c].s.uuid;
    FlatMapRemoveAt(ReadyFor(u), s.actors, c);
    NoneReady(RemoveAt(s.actors, c), u);
  }

  lemma AloneBefore(t: SocksSession.Ipv6Text, s: System, e: Event, c: nat)
    requires Possible(s, e) && Alone(Next(t, s, e), c)
    ensures Alone(s, c)
  {
    if c < |s.actors| {
      SessionRouting.UuidsKept(t, s, e, c);
      forall j | 0 <= j < |s.actors| && j != c ensures s.actors[j].s.uuid != s.actors[c].s.uuid {
        SessionRouting.UuidsKept(t, s, e, j);
      }
    }
  }

  // ---- Replies reach the session they are for ----

  /** A session whose uuid is unshared has been forwarded exactly the replies of its uuid. */
  predicate Addressed(s: System, c: nat) {
    c < |s.actors| ==> s.actors[c].arrived == Arrivals(s.log.received, s.actors[c].s.uuid)
  }

  lemma {:induction false} NoArrivals(keys: set<u16>, q: seq<Message>, u: u16)
    requires u !in keys && forall m :: m in q ==> SessionRouting.GoodDown(keys, m)
    ensures Arrivals(q, u) == []
  {
    if q != [] {
      assert q[0] in q;
      NoArrivals(keys, q[1..], u);
    }
  }

  lemma ArrivedKept(t: SocksSession.Ipv6Text, s: System, e: Event, c: nat)
    requires Possible(s, e) && !e.Accept? && !e.DeliverReply?
    ensures Next(t, s, e).log.received == s.log.received && |Next(t, s, e).actors| == |s.actors|
    ensures c < |s.actors| ==>
      var a, a' := s.actors[c], Next(t, s, e).actors[c];
      a'.arrived == a.arrived && a'.s.uuid == a.s.uuid
  {
  }

  lemma AddressedStep(t: SocksSession.Ipv6Text, s: System, e: Event, c: nat)
    requires Possible(s, e) && Alone(Next(t, s, e), c) && Addressed(s, c)
    requires SessionRouting.Routed(s) && SessionLinks.Linked(s)
    ensures Addressed(Next(t, s, e), c)
  {
    match e
    case Accept(port) =>
      if c == |s.actors| {
        NewSessionUnaddressed(t, s, port);
      }
    case DeliverReply =>
      AloneBefore(t, s, e, c);
      ReplyAddressed(s, c);
    case _ => ArrivedKept(t, s, e, c);
  }

  lemma NewSessionUnaddressed(t: SocksSession.Ipv6Text, s: System, port: u16)
    requires Possible(s, Accept(port)) && Alone(Next(t, s, Accept(port)), |s.actors|)
    requires SessionRouting.Routed(s) && SessionLinks.Linked(s)
    ensures Arrivals(s.log.received, port) == []
  {
    var s' := Next(t, s, Accept(port));
    forall i | 0 <= i < |s.actors| ensures s.actors[i].s.uuid != port {
      SessionRouting.UuidsKept(t, s, Accept(port), i);
      assert s'.actors[i].s.uuid != s'.actors[|s.actors|].s.uuid;
    }
    forall m | m in s.log.received ensures SessionRouting.GoodDown(s.server.clients.Keys, m) {
      assert m in s.far.log.enqueued;
    }
    NoArrivals(s.server.clients.Keys, s.log.received, port);
  }

  lemma ReplyAddressed(s: System, c: nat)
    requires Possible(s, DeliverReply) && Alone(s, c) && Addressed(s, c)
    requires SessionRouting.Routed(s) && SessionLinks.Linked(s)
    ensures Addressed(OnDeliverReply(s), c)
  {
    if c < |s.actors| {
      var m := s.far.s.outbox[0];
      var u := s.actors[c].s.uuid;
      SessionRouting.NextReplyRoutes(s);
      FlatMapSnoc(ArrivalFor(u), s.log.received, m);
      assert u in s.server.clients;
      if m.uuid == u {
        assert s.server.clients[u] == c;
      } else if m.uuid != 0 {
        assert s.actors[s.server.clients[m.uuid]].s.uuid == m.uuid;
      }
    }
  }

  // ---- Success is only ever reported of an inserted connection ----

  predicate SuccessSeen(s: System) {
    forall c :: 0 <= c < |s.actors| && (Success in s.actors[c].inbox || Success in s.actors[c].handled)
      ==> ProxySide.Inserted(s.actors[c].s.uuid) in s.far.log.table
  }

  /** Data is sent up for connected uuids, or hastily. */
  predicate Explained(s: System, m: Message) {
    m.transfer.Data? ==> m.uuid in s.log.hasty || ProxySide.Inserted(m.uuid) in s.far.log.table
  }

  predicate DataExplained(s: System) {
    && (forall i :: 0 <= i < |s.mailbox| && s.mailbox[i].Submit? ==> Explained(s, s.mailbox[i].m))
    && (forall m :: m in s.log.submitted ==> Explained(s, m))
  }

  lemma TableGrows(r: ProxySide.Run, e: ProxySide.Event, op: ProxySide.TableOp)
    requires op in r.log.table
    ensures op in ProxySide.Next(r, e).log.table
  {
  }

  lemma FarTableGrows(t: SocksSession.Ipv6Text, s: System, e: Event, op: ProxySide.TableOp)
    requires Possible(s, e) && op in s.far.log.table
    ensures op in Next(t, s, e).far.log.table
  {
    match e
    case Far(f) => TableGrows(s.far, f, op);
    case DeliverRequest(w) => TableGrows(s.far, ProxySide.Consume(s.server.writer[0], w), op);
    case DeliverReply => TableGrows(s.far, ProxySide.Flush, op);
    case _ =>
  }

  lemma SuccessSeenStep(t: SocksSession.Ipv6Text, s: System, e: Event)
    requires Possible(s, e) && SuccessSeen(s)
    requires SessionRouting.Routed(s) && SessionLinks.Linked(s) && ProxyRuns.SuccessImpliesInserted(s.far)
    ensures SuccessSeen(Next(t, s, e))
  {
    var s' := Next(t, s, e);
    forall c | 0 <= c < |s'.actors| && (Success in s'.actors[c].inbox || Success in s'.actors[c].handled)
      ensures ProxySide.Inserted(s'.actors[c].s.uuid) in s'.far.log.table
    {
      if c < |s.actors| {
        SessionRouting.UuidsKept(t, s, e, c);
        SuccessWasThere(t, s, e, c);
        FarTableGrows(t, s, e, ProxySide.Inserted(s.actors[c].s.uuid));
      }
    }
  }

  /** A success seen after a step was seen before it, or has just been delivered. */
  lemma SuccessWasThere(t: SocksSession.Ipv6Text, s: System, e: Event, c: nat)
    requires Possible(s, e) && SuccessSeen(s) && c < |s.actors|
    requires SessionRouting.Routed(s) && SessionLinks.Linked(s) && ProxyRuns.SuccessImpliesInserted(s.far)
    requires var a' := Next(t, s, e).actors[c]; Success in a'.inbox || Success in a'.handled
    ensures ProxySide.Inserted(s.actors[c].s.uuid) in s.far.log.table
  {
    if e.DeliverReply? {
      SuccessDelivered(s, c);
    }
  }

  lemma SuccessDelivered(s: System, c: nat)
    requires Possible(s, DeliverReply) && SuccessSeen(s) && c < |s.actors|
    requires SessionRouting.Routed(s) && SessionLinks.Linked(s) && ProxyRuns.SuccessImpliesInserted(s.far)
    requires var a' := OnDeliverReply(s).actors[c]; Success in a'.inbox || Success in a'.handled
    ensures ProxySide.Inserted(s.actors[c].s.uuid) in s.far.log.table
  {
    SessionRouting.NextReplyRoutes(s);
  }

  lemma DataExplainedStep(t: SocksSession.Ipv6Text, s: System, e: Event)
    requires Possible(s, e) && DataExplained(s) && SuccessSeen(s)
    ensures DataExplained(Next(t, s, e))
  {
    var s' := Next(t, s, e);
    forall m | Explained(s, m) ensures Explained(s', m) {
      if ProxySide.Inserted(m.uuid) in s.far.log.table {
        FarTableGrows(t, s, e, ProxySide.Inserted(m.uuid));
      }
    }
    if e.AppItem? && s'.mailbox != s.mailbox {
      var i := |s.mailbox|;
      assert s'.mailbox[..i] == s.mailbox;
      assert Explained(s', s'.mailbox[i].m);
    }
  }

  // ---- What is dialled was asked for ----

  /** An address sent up is the recorded target of a session of that uuid. */
  predicate Asked(s: System, uuid: u16, t: Transfer) {
    t.RequestAddr? ==>
      exists c :: 0 <= c < |s.actors| && s.actors[c].s.uuid == uuid && s.actors[c].s.targetAddress == Some(t.addr)
  }

  predicate RequestsAsked(s: System) {
    && (forall i :: 0 <= i < |s.mailbox| && s.mailbox[i].Submit? ==>
          Asked(s, s.mailbox[i].m.uuid, s.mailbox[i].m.transfer))
    && (forall m :: m in s.log.submitted ==> Asked(s, m.uuid, m.transfer))
  }

  /** So is what is being dialled, and what the sockets were dialled for. */
  predicate DialsAsked(s: System) {
    && (forall i :: 0 <= i < |s.far.s.dials| ==>
          Asked(s, s.far.s.dials[i].uuid, RequestAddr(s.far.s.dials[i].addr)))
    && (forall i :: 0 <= i < |s.far.log.sockets| ==>
          Asked(s, s.far.log.sockets[i].uuid, RequestAddr(s.far.log.sockets[i].addr)))
  }

  /** A session that has recorded a target keeps it. */
  lemma TargetKept(t: SocksSession.Ipv6Text, s: System, e: Event, c: nat)
    requires Possible(s, e) && c < |s.actors| && ActorOk(s.actors[c]) && s.actors[c].s.targetAddress.Some?
    ensures var s' := Next(t, s, e);
      c < |s'.actors| && s'.actors[c].s.targetAddress == s.actors[c].s.targetAddress
  {
  }

  lemma AskedKept(t: SocksSession.Ipv6Text, s: System, e: Event, uuid: u16, x: Transfer)
    requires Possible(s, e) && ActorsOk(s) && Asked(s, uuid, x)
    ensures Asked(Next(t, s, e), uuid, x)
  {
    if x.RequestAddr? {
      var c :| 0 <= c < |s.actors| && s.actors[c].s.uuid == uuid && s.actors[c].s.targetAddress == Some(x.addr);
      TargetKept(t, s, e, c);
      SessionRouting.UuidsKept(t, s, e, c);
    }
  }

  lemma AllAskedKept(t: SocksSession.Ipv6Text, s: System, e: Event)
    requires Possible(s, e) && ActorsOk(s)
    ensures forall uuid, x :: Asked(s, uuid, x) ==> Asked(Next(t, s, e), uuid, x)
  {
    forall uuid, x | Asked(s, uuid, x) ensures Asked(Next(t, s, e), uuid, x) {
      AskedKept(t, s, e, uuid, x);
    }
  }

  /** The far end dials only what it is asked for. */
  lemma DialsConsumed(r: ProxySide.Run, e: ProxySide.Event)
    requires ProxySide.Possible(r.s, e)
    ensures forall i :: 0 <= i < |ProxySide.Next(r, e).s.dials| ==>
      var d := ProxySide.Next(r, e).s.dials[i];
      d in r.s.dials
      || (e.Consume? && e.m.transfer.RequestAddr? && d == ProxySide.Dial(e.m.uuid, e.m.transfer.addr))
    ensures forall i :: 0 <= i < |ProxySide.Next(r, e).log.sockets| ==>
      ProxySide.Next(r, e).log.sockets[i] in r.log.sockets + r.s.dials
  {
  }

  lemma ItemAsked(t: SocksSession.Ipv6Text, s: System, c: nat, item: SocksMessages.SocksRequest)
    requires Possible(s, AppItem(c, item)) && item.Target?
    ensures var s' := OnAppItem(t, s, c, item);
      forall i :: |s.mailbox| <= i < |s'.mailbox| ==>
        s'.mailbox[i].Submit? && Asked(s', s'.mailbox[i].m.uuid, s'.mailbox[i].m.transfer)
  {
    var s' := OnAppItem(t, s, c, item);
    assert s'.actors[c].s.uuid == s.actors[c].s.uuid;
  }

  lemma MailMoves(s: System)
    requires Possible(s, ServerMail)
    ensures OnServerMail(s).mailbox == s.mailbox[1..]
    ensures forall m :: m in OnServerMail(s).log.submitted && m !in s.log.submitted ==>
      s.mailbox[0] == Submit(m) || m.transfer.Heartbeat?
  {
  }

  lemma RequestsAskedStep(t: SocksSession.Ipv6Text, s: System, e: Event)
    requires Possible(s, e) && ActorsOk(s) && RequestsAsked(s)
    ensures RequestsAsked(Next(t, s, e))
  {
    AllAskedKept(t, s, e);
    if e.AppItem? && e.item.Target? {
      ItemAsked(t, s, e.c, e.item);
    } else if e.ServerMail? {
      MailMoves(s);
    }
  }

  lemma DialsAskedStep(t: SocksSession.Ipv6Text, s: System, e: Event)
    requires Possible(s, e) && ActorsOk(s) && DialsAsked(s) && RequestsAsked(s) && SessionLinks.Linked(s)
    ensures DialsAsked(Next(t, s, e))
  {
    AllAskedKept(t, s, e);
    if e.Far? {
      DialsConsumed(s.far, e.e);
    } else if e.DeliverRequest? {
      assert s.server.writer[0] in s.log.submitted;
      DialsConsumed(s.far, ProxySide.Consume(s.server.writer[0], e.w));
    } else {
      DialsSame(t, s, e);
    }
  }

  lemma DialsSame(t: SocksSession.Ipv6Text, s: System, e: Event)
    requires Possible(s, e) && !e.Far? && !e.DeliverRequest?
    ensures Next(t, s, e).far.s.dials == s.far.s.dials && Next(t, s, e).far.log.sockets == s.far.log.sockets
  {
  }
}
