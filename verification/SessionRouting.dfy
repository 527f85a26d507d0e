/** Routing over every run, with uuids reused at will: who may be addressed by what. */
module SessionRouting {
  import opened Bytes
  import opened Messages
  import opened Session
  import SocksSession
  import SocksMessages
  import LocalServer
  import ProxySide
  import SessionLinks

  /** A request on its way up: a heartbeat of uuid 0, or an address or some data of a known session. */
  predicate GoodUp(keys: set<u16>, m: Message) {
    MadeByNew(m) &&
    if m.transfer.Heartbeat? then m.uuid == 0
    else m.uuid in keys && (m.transfer.RequestAddr? || (m.transfer.Data? && m.transfer.data != []))
  }

  /** A reply on its way down: a heartbeat of uuid 0, or data or a response for a known session. */
  predicate GoodDown(keys: set<u16>, m: Message) {
    MadeByNew(m) &&
    if m.transfer.Heartbeat? then m.uuid == 0
    else m.uuid in keys && (m.transfer.Data? || m.transfer.Response?)
  }

  /** The far end knows only known sessions, and was never sent a response. */
  predicate FarRouted(keys: set<u16>, r: ProxySide.Run) {
    && (forall i :: 0 <= i < |r.s.dials| ==> r.s.dials[i].uuid in keys)
    && (forall i :: 0 <= i < |r.s.readers| ==> r.s.readers[i].uuid in keys)
    && r.s.connections.Keys <= keys
    && (forall i :: 0 <= i < |r.s.mailbox| ==>
          GoodDown(keys, r.s.mailbox[i].Reply()) && !r.s.mailbox[i].Reply().transfer.Heartbeat?
          && (r.s.mailbox[i].Established? ==> r.s.mailbox[i].uuid in keys))
    && (forall m :: m in r.log.enqueued ==> GoodDown(keys, m))
    && r.s.fault != ProxySide.UnexpectedResponse
  }

  /** The client table points at sessions of that uuid, and knows every session. */
  predicate TableRouted(s: System) {
    && 0 !in s.server.clients
    && (forall u :: u in s.server.clients ==>
          s.server.clients[u] < |s.actors| && s.actors[s.server.clients[u]].s.uuid == u)
    && (forall c :: 0 <= c < |s.actors| ==> s.actors[c].s.uuid in s.server.clients)
  }

  /** Everything sent up is good. */
  predicate TrafficRouted(s: System) {
    var keys := s.server.clients.Keys;
    && (forall i :: 0 <= i < |s.mailbox| && s.mailbox[i].Submit? ==>
          GoodUp(keys, s.mailbox[i].m) && !s.mailbox[i].m.transfer.Heartbeat?)
    && (forall m :: m in s.log.submitted ==> GoodUp(keys, m))
  }

  predicate NearRouted(s: System) {
    TableRouted(s) && TrafficRouted(s) && s.status != RoutingFailed
  }

  predicate Routed(s: System) {
    NearRouted(s) && FarRouted(s.server.clients.Keys, s.far)
  }

  lemma FarRoutedGrows(keys: set<u16>, more: set<u16>, r: ProxySide.Run)
    requires FarRouted(keys, r) && keys <= more
    ensures FarRouted(more, r)
  {
  }

  lemma FarRoutedMail(keys: set<u16>, r: ProxySide.Run)
    requires r.s.mailbox != [] && r.s.fault.NoFault? && FarRouted(keys, r)
    ensures FarRouted(keys, ProxySide.Next(r, ProxySide.HandleNext))
  {
    var mail := r.s.mailbox[0];
    assert GoodDown(keys, mail.Reply());
  }

  lemma FarRoutedStep(keys: set<u16>, r: ProxySide.Run, e: ProxySide.Event)
    requires ProxySide.Possible(r.s, e) && FarRouted(keys, r)
    requires e.Consume? ==> GoodUp(keys, e.m)
    ensures FarRouted(keys, ProxySide.Next(r, e))
  {
    match e
    case HandleNext => FarRoutedMail(keys, r);
    case Consume(m, w) => FarRoutedRequest(keys, r, m, w);
    case DialDone(i, outcome) => FarRoutedDial(keys, r, i, outcome);
    case _ =>
  }

  lemma FarRoutedRequest(keys: set<u16>, r: ProxySide.Run, m: Message, w: ProxySide.WriteOutcome)
    requires ProxySide.Possible(r.s, ProxySide.Consume(m, w)) && FarRouted(keys, r) && GoodUp(keys, m)
    ensures FarRouted(keys, ProxySide.Next(r, ProxySide.Consume(m, w)))
  {
  }

  lemma FarRoutedDial(keys: set<u16>, r: ProxySide.Run, i: nat, outcome: ProxySide.DialOutcome)
    requires ProxySide.Possible(r.s, ProxySide.DialDone(i, outcome)) && FarRouted(keys, r)
    ensures FarRouted(keys, ProxySide.Next(r, ProxySide.DialDone(i, outcome)))
  {
  }

  /** The server can always route the next reply. */
  lemma NextReplyRoutes(s: System)
    requires s.far.s.outbox != [] && Routed(s) && SessionLinks.Linked(s)
    ensures var m := s.far.s.outbox[0];
      && GoodDown(s.server.clients.Keys, m)
      && LocalServer.OnResponse(s.server, m, s.now).1 ==
         if m.uuid == 0 then LocalServer.Nothing
         else LocalServer.Forward(s.server.clients[m.uuid], LocalServer.Translate(m.transfer).value)
  {
  }

  lemma ConsumedIsGood(s: System)
    requires s.server.writer != [] && NearRouted(s) && SessionLinks.Linked(s)
    ensures GoodUp(s.server.clients.Keys, s.server.writer[0])
  {
  }

  /** No step but a new session changes who the sessions are. */
  lemma UuidsKept(t: SocksSession.Ipv6Text, s: System, e: Event, c: nat)
    requires Possible(s, e) && c < |s.actors|
    ensures var s' := Next(t, s, e);
      && |s'.actors| == |s.actors| + (if e.Accept? then 1 else 0) && c < |s'.actors|
      && s'.actors[c].s.uuid == s.actors[c].s.uuid
  {
  }

  lemma TableRoutedStep(t: SocksSession.Ipv6Text, s: System, e: Event)
    requires Possible(s, e) && TableRouted(s)
    ensures TableRouted(Next(t, s, e))
  {
    var s' := Next(t, s, e);
    if e.Accept? {
      assert s'.actors == s.actors + [s'.actors[|s.actors|]];
    } else {
      ClientsKept(t, s, e);
      forall c | 0 <= c < |s.actors| ensures s'.actors[c].s.uuid == s.actors[c].s.uuid {
        UuidsKept(t, s, e, c);
      }
    }
  }

  lemma ClientsKept(t: SocksSession.Ipv6Text, s: System, e: Event)
    requires Possible(s, e) && !e.Accept?
    ensures Next(t, s, e).server.clients == s.server.clients && |Next(t, s, e).actors| == |s.actors|
  {
  }

  lemma TrafficItem(t: SocksSession.Ipv6Text, s: System, c: nat, item: SocksMessages.SocksRequest)
    requires Possible(s, AppItem(c, item)) && TableRouted(s) && TrafficRouted(s)
    ensures TrafficRouted(OnAppItem(t, s, c, item))
  {
    assert s.actors[c].s.uuid in s.server.clients;
  }

  lemma TrafficMail(s: System)
    requires Possible(s, ServerMail) && TrafficRouted(s)
    ensures TrafficRouted(OnServerMail(s))
  {
  }

  lemma TrafficReply(s: System)
    requires Possible(s, DeliverReply) && TrafficRouted(s)
    ensures TrafficRouted(OnDeliverReply(s))
  {
    assert OnDeliverReply(s).server.clients == s.server.clients;
  }

  lemma TrafficRoutedStep(t: SocksSession.Ipv6Text, s: System, e: Event)
    requires Possible(s, e) && TableRouted(s) && TrafficRouted(s)
    ensures TrafficRouted(Next(t, s, e))
  {
    match e
    case AppItem(c, item) => TrafficItem(t, s, c, item);
    case ServerMail => TrafficMail(s);
    case DeliverReply => TrafficReply(s);
    case _ =>
  }

  lemma RoutedStep(t: SocksSession.Ipv6Text, s: System, e: Event)
    requires Possible(s, e) && Routed(s) && SessionLinks.Linked(s)
    ensures Routed(Next(t, s, e))
  {
    TableRoutedStep(t, s, e);
    TrafficRoutedStep(t, s, e);
    FarRoutedInStep(t, s, e);
    if e.DeliverReply? {
      NextReplyRoutes(s);
    }
  }

  lemma FarRoutedInStep(t: SocksSession.Ipv6Text, s: System, e: Event)
    requires Possible(s, e) && Routed(s) && SessionLinks.Linked(s)
    ensures FarRouted(Next(t, s, e).server.clients.Keys, Next(t, s, e).far)
  {
    var keys := s.server.clients.Keys;
    match e
    case Far(f) => FarRoutedStep(keys, s.far, f);
    case DeliverRequest(w) =>
      ConsumedIsGood(s);
      FarRoutedStep(keys, s.far, ProxySide.Consume(s.server.writer[0], w));
    case DeliverReply =>
      ClientsKept(t, s, e);
      FarRoutedStep(keys, s.far, ProxySide.Flush);
    case Accept(port) => FarRoutedGrows(keys, Next(t, s, e).server.clients.Keys, s.far);
    case _ =>
  }
}
