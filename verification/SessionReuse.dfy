/** When a session of a reused port is safe: an outcome of an old dial must not reach it. */
module SessionReuse {
  import opened Bytes
  import opened Messages
  import opened Sequences
  import opened Session
  import SocksMessages
  import SocksRequests
  import SocksSession
  import LocalServer
  import opened ProxyRuns
  import SessionLinks
  import SessionRouting
  import opened SessionActors
  import opened SessionTheorems

  /** A message whose handling unwraps the recorded request. */
  predicate Tells(msg: ConnectorResponse) {
    msg.Success? || msg.Failed?
  }

  /** A uuid's table entry is its latest session. */
  predicate LatestEntry(s: System) {
    forall c :: 0 <= c < |s.actors| ==>
      s.actors[c].s.uuid in s.server.clients && c <= s.server.clients[s.actors[c].s.uuid]
  }

  /** Session `j` of the port can still send its request. */
  predicate Unsettled(s: System, port: u16, j: nat) {
    && j < |s.actors| && s.actors[j].s.uuid == port && s.actors[j].running
    && s.actors[j].phase != SocksRequests.READY
  }

  /** No session before `c` will send a request for the port any more. */
  predicate Settled(s: System, port: u16, c: nat) {
    forall j: nat :: j < c ==> !Unsettled(s, port, j)
  }

  /** Every request of the port has had its outcome received. */
  predicate Answered(s: System, port: u16) {
    |Requests(s.log.requested, port)| == |Outcomes(s.log.received, port)|
  }

  /** Session `c` of the port is not told an outcome before it is ready. */
  predicate Safe(s: System, port: u16, c: nat) {
    && c < |s.actors| && s.actors[c].s.uuid == port && !s.actors[c].panicked
    && Settled(s, port, c)
    && (s.actors[c].phase != SocksRequests.READY ==>
          && (forall i :: 0 <= i < |s.actors[c].inbox| ==> !Tells(s.actors[c].inbox[i]))
          && (port in s.server.clients && s.server.clients[port] == c ==> Answered(s, port)))
  }

  // ---- Steps ----

  lemma LatestEntryStep(t: SocksSession.Ipv6Text, s: System, e: Event)
    requires Possible(s, e) && LatestEntry(s)
    ensures LatestEntry(Next(t, s, e))
  {
    var s' := Next(t, s, e);
    forall c | 0 <= c < |s'.actors|
      ensures s'.actors[c].s.uuid in s'.server.clients && c <= s'.server.clients[s'.actors[c].s.uuid]
    {
      if c < |s.actors| {
        SessionRouting.UuidsKept(t, s, e, c);
      }
      ClientsChange(t, s, e);
    }
  }

  lemma ClientsChange(t: SocksSession.Ipv6Text, s: System, e: Event)
    requires Possible(s, e)
    ensures Next(t, s, e).server.clients
      == if e.Accept? then s.server.clients[e.port := |s.actors|] else s.server.clients
    ensures e.Accept? ==> Next(t, s, e).actors == s.actors + [Next(t, s, e).actors[|s.actors|]]
                          && Next(t, s, e).actors[|s.actors|].s.uuid == e.port
    ensures !e.Accept? ==> |Next(t, s, e).actors| == |s.actors|
  {
  }

  /** A session that is stopped or ready stays so. */
  lemma SettledStep(t: SocksSession.Ipv6Text, s: System, e: Event, port: u16, c: nat)
    requires Possible(s, e) && Settled(s, port, c) && c <= |s.actors|
    ensures Settled(Next(t, s, e), port, c)
  {
    forall j: nat | j < c
      ensures !Unsettled(Next(t, s, e), port, j)
    {
      assert !Unsettled(s, port, j);
      SessionRouting.UuidsKept(t, s, e, j);
      if !s.actors[j].running || s.actors[j].phase == SocksRequests.READY {
        OneSettledStep(t, s, e, j);
      }
    }
  }

  lemma OneSettledStep(t: SocksSession.Ipv6Text, s: System, e: Event, j: nat)
    requires Possible(s, e) && j < |s.actors|
    requires !s.actors[j].running || s.actors[j].phase == SocksRequests.READY
    ensures var s' := Next(t, s, e);
      j < |s'.actors| && (!s'.actors[j].running || s'.actors[j].phase == SocksRequests.READY)
  {
  }

  lemma SafeItem(t: SocksSession.Ipv6Text, s: System, k: nat, item: SocksMessages.SocksRequest, port: u16, c: nat)
    requires Possible(s, AppItem(k, item)) && Safe(s, port, c) && LatestEntry(s)
    ensures Safe(OnAppItem(t, s, k, item), port, c)
  {
    var s' := OnAppItem(t, s, k, item);
    assert s' == Next(t, s, AppItem(k, item));
    SettledStep(t, s, AppItem(k, item), port, c);
    SessionRouting.UuidsKept(t, s, AppItem(k, item), c);
    if s'.actors[c].phase != SocksRequests.READY && port in s.server.clients && s.server.clients[port] == c {
      var (client, request) := SocksSession.OnRequest(t, s.actors[k].s, item, s.now);
      assert k < c ==> !Unsettled(s, port, k);
      assert item.Target? ==> s.actors[k].s.uuid != port;
      if request.Some? && s.status.Serving? {
        FlatMapSnoc(RequestFor(port), s.log.requested, request.value);
      } else {
        assert s.log.requested + [] == s.log.requested;
      }
    }
  }

  lemma SafeMail(t: SocksSession.Ipv6Text, s: System, k: nat, port: u16, c: nat)
    requires Possible(s, SessionMail(k)) && Safe(s, port, c) && ActorOk(s.actors[c])
    ensures Safe(OnSessionMail(s, k), port, c)
  {
    assert OnSessionMail(s, k) == Next(t, s, SessionMail(k));
    SettledStep(t, s, SessionMail(k), port, c);
    if k == c {
      UnwrapStepExactly(s, c);
    }
  }

  /** While every request of the port is answered, the next reply is not one of its outcomes. */
  lemma AnsweredNoOutcome(s: System, port: u16)
    requires s.far.s.outbox != [] && SessionLinks.Linked(s) && Counted(s, port) && Answered(s, port)
    ensures OutcomeFor(port)(s.far.s.outbox[0]) == []
  {
    RequestsSomewhere(s, port);
  }

  /** What a reply does to one session. */
  lemma ReplyInbox(s: System, c: nat)
    requires Possible(s, DeliverReply) && c < |s.actors|
    requires SessionLinks.Linked(s) && SessionRouting.Routed(s)
    ensures var s', m, a := OnDeliverReply(s), s.far.s.outbox[0], s.actors[c];
      && c < |s'.actors| && s'.server.clients == s.server.clients
      && s'.actors[c].s == a.s && s'.actors[c].phase == a.phase
      && s'.actors[c].running == a.running && s'.actors[c].panicked == a.panicked
      && (m.uuid == a.s.uuid && s.server.clients[m.uuid] == c && a.running
          ==> LocalServer.Translate(m.transfer).Some?
              && s'.actors[c].inbox == a.inbox + [LocalServer.Translate(m.transfer).value])
      && (!(m.uuid == a.s.uuid && s.server.clients[m.uuid] == c && a.running) ==> s'.actors[c].inbox == a.inbox)
  {
    SessionRouting.NextReplyRoutes(s);
  }

  lemma SafeReply(t: SocksSession.Ipv6Text, s: System, port: u16, c: nat)
    requires Possible(s, DeliverReply) && Safe(s, port, c)
    requires SessionLinks.Linked(s) && SessionRouting.Routed(s)
    requires Answered(s, port) ==> OutcomeFor(port)(s.far.s.outbox[0]) == []
    ensures Safe(OnDeliverReply(s), port, c)
  {
    assert OnDeliverReply(s) == Next(t, s, DeliverReply);
    SettledStep(t, s, DeliverReply, port, c);
    ReplyInbox(s, c);
    FlatMapSnoc(OutcomeFor(port), s.log.received, s.far.s.outbox[0]);
  }

  lemma SafeAccept(t: SocksSession.Ipv6Text, s: System, p: u16, port: u16, c: nat)
    requires Possible(s, Accept(p)) && Safe(s, port, c)
    ensures Safe(OnAccept(s, p), port, c)
  {
    assert OnAccept(s, p) == Next(t, s, Accept(p));
    SettledStep(t, s, Accept(p), port, c);
    assert OnAccept(s, p).actors[c] == s.actors[c];
  }

  /** Events that reach no session's mailbox and send no request. */
  lemma SafeElsewhere(t: SocksSession.Ipv6Text, s: System, e: Event, port: u16, c: nat)
    requires Possible(s, e) && Safe(s, port, c)
    requires !e.Accept? && !e.AppItem? && !e.SessionMail? && !e.DeliverReply?
    ensures Safe(Next(t, s, e), port, c)
  {
    SettledStep(t, s, e, port, c);
    SessionRouting.UuidsKept(t, s, e, c);
    ClientsChange(t, s, e);
  }

  lemma SafeStep(t: SocksSession.Ipv6Text, s: System, e: Event, port: u16, c: nat)
    requires Possible(s, e) && Safe(s, port, c) && LatestEntry(s) && ActorOk(s.actors[c])
    requires SessionLinks.Linked(s) && SessionRouting.Routed(s) && Counted(s, port)
    ensures Safe(Next(t, s, e), port, c)
  {
    match e
    case Accept(p) => SafeAccept(t, s, p, port, c);
    case AppItem(k, item) => SafeItem(t, s, k, item, port, c);
    case SessionMail(k) => SafeMail(t, s, k, port, c);
    case DeliverReply =>
      if Answered(s, port) {
        AnsweredNoOutcome(s, port);
      }
      SafeReply(t, s, port, c);
    case _ => SafeElsewhere(t, s, e, port, c);
  }

  lemma SafeFresh(t: SocksSession.Ipv6Text, s: System, port: u16)
    requires Possible(s, Accept(port)) && Answered(s, port) && Settled(s, port, |s.actors|)
    ensures Safe(Next(t, s, Accept(port)), port, |s.actors|)
  {
    SettledStep(t, s, Accept(port), port, |s.actors|);
  }

  lemma {:induction false} RunsHaveLatestEntry(t: SocksSession.Ipv6Text, es: seq<Event>)
    ensures LatestEntry(Exec(t, es))
  {
    if es != [] {
      RunsHaveLatestEntry(t, es[..|es| - 1]);
      if Possible(Exec(t, es[..|es| - 1]), es[|es| - 1]) {
        LatestEntryStep(t, Exec(t, es[..|es| - 1]), es[|es| - 1]);
      }
    }
  }

  // ---- When a session panics ----

  /** In every reachable state, a session panics on its next message exactly if that is an outcome and
      it has not sent its request. */
  lemma {:induction false} UnwrapExactly(t: SocksSession.Ipv6Text, es: seq<Event>, c: nat)
    requires Possible(Exec(t, es), SessionMail(c))
    ensures Exec(t, es + [SessionMail(c)]).actors[c].panicked
      <==> Tells(Exec(t, es).actors[c].inbox[0]) && Exec(t, es).actors[c].phase != SocksRequests.READY
  {
    RunsAreSound(t, es, 0, 0);
    UnwrapStepExactly(Exec(t, es), c);
    ExecSnoc(t, es, SessionMail(c));
  }

  predicate PanicsAfter(t: SocksSession.Ipv6Text, es: seq<Event>, c: nat) {
    c < |Exec(t, es).actors| && Exec(t, es).actors[c].panicked
  }

  lemma SafeNext(t: SocksSession.Ipv6Text, es: seq<Event>, e: Event, port: u16, c: nat)
    requires Safe(Exec(t, es), port, c)
    ensures Safe(Next(t, Exec(t, es), e), port, c)
  {
    RunsAreSound(t, es, port, 0);
    RunsHaveLatestEntry(t, es);
    if Possible(Exec(t, es), e) {
      SafeStep(t, Exec(t, es), e, port, c);
    }
  }

  /** If every request of the port has been answered and its older sessions can send no other, a new
      session of the port never panics, whatever happens after, further reuse included. */
  lemma {:induction false} NewSessionSafe(t: SocksSession.Ipv6Text, es: seq<Event>, port: u16, more: seq<Event>)
    requires Possible(Exec(t, es), Accept(port))
    requires Answered(Exec(t, es), port) && Settled(Exec(t, es), port, |Exec(t, es).actors|)
    ensures Safe(Exec(t, es + [Accept(port)] + more), port, |Exec(t, es).actors|)
    ensures !PanicsAfter(t, es + [Accept(port)] + more, |Exec(t, es).actors|)
  {
    var all := es + [Accept(port)] + more;
    var front, e := all[..|all| - 1], all[|all| - 1];
    if more == [] {
      assert front == es && e == Accept(port);
      SafeFresh(t, Exec(t, es), port);
    } else {
      assert front == es + [Accept(port)] + more[..|more| - 1] && e == more[|more| - 1];
      NewSessionSafe(t, es, port, more[..|more| - 1]);
      SafeNext(t, front, e, port, |Exec(t, es).actors|);
    }
  }

  // ---- The first session of a port ----

  lemma {:induction false} UuidsOfPrefix(t: SocksSession.Ipv6Text, es: seq<Event>, k: nat, j: nat)
    requires k <= |es| && j < |Exec(t, es[..k]).actors|
    ensures j < |Exec(t, es).actors| && Exec(t, es).actors[j].s.uuid == Exec(t, es[..k]).actors[j].s.uuid
  {
    if k == |es| {
      assert es[..k] == es;
    } else {
      var front := es[..|es| - 1];
      assert front[..k] == es[..k];
      UuidsOfPrefix(t, front, k, j);
      if Possible(Exec(t, front), es[|es| - 1]) {
        SessionRouting.UuidsKept(t, Exec(t, front), es[|es| - 1], j);
      }
    }
  }

  /** Every session was accepted at some point of the run. */
  lemma {:induction false} AcceptOf(t: SocksSession.Ipv6Text, es: seq<Event>, c: nat) returns (k: nat)
    requires c < |Exec(t, es).actors|
    ensures k < |es| && es[k] == Accept(Exec(t, es).actors[c].s.uuid)
    ensures Possible(Exec(t, es[..k]), es[k]) && |Exec(t, es[..k]).actors| == c
  {
    var front, e := es[..|es| - 1], es[|es| - 1];
    if c < |Exec(t, front).actors| {
      k := AcceptOf(t, front, c);
      assert front[..k] == es[..k];
      if Possible(Exec(t, front), e) {
        SessionRouting.UuidsKept(t, Exec(t, front), e, c);
      }
    } else {
      k := |es| - 1;
      ClientsChange(t, Exec(t, front), e);
    }
  }

  /** A port that no session has had yet has nothing to answer. */
  lemma NewPortAnswered(s: System, port: u16)
    requires SessionLinks.Linked(s) && Counted(s, port)
    requires forall j :: 0 <= j < |s.actors| ==> s.actors[j].s.uuid != port
    ensures Answered(s, port)
  {
    NoneReady(s.actors, port);
    RequestsSomewhere(s, port);
  }

  lemma NewPortIsAnswered(t: SocksSession.Ipv6Text, es: seq<Event>, port: u16)
    requires forall j :: 0 <= j < |Exec(t, es).actors| ==> Exec(t, es).actors[j].s.uuid != port
    ensures Answered(Exec(t, es), port)
  {
    RunsAreSound(t, es, port, 0);
    NewPortAnswered(Exec(t, es), port);
  }

  /** In particular the first session of a port never panics, however often the port is reused. */
  lemma {:induction false} FirstSessionNeverPanics(t: SocksSession.Ipv6Text, es: seq<Event>, c: nat)
    requires c < |Exec(t, es).actors|
    requires forall j :: 0 <= j < c ==> Exec(t, es).actors[j].s.uuid != Exec(t, es).actors[c].s.uuid
    ensures !Exec(t, es).actors[c].panicked
  {
    var port := Exec(t, es).actors[c].s.uuid;
    var k := AcceptOf(t, es, c);
    forall j | 0 <= j < c ensures Exec(t, es[..k]).actors[j].s.uuid != port {
      UuidsOfPrefix(t, es, k, j);
    }
    NewPortIsAnswered(t, es[..k], port);
    NewSessionSafe(t, es[..k], port, es[k + 1..]);
    assert es[..k] + [Accept(port)] + es[k + 1..] == es;
  }
}
