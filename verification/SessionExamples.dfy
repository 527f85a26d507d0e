/** Runs that show where the conditions of the main results come from. */
module SessionExamples {
  import opened Bytes
  import opened Messages
  import opened Session
  import SocksMessages
  import SocksRequests
  import SocksSession
  import LocalServer
  import ProxySide
  import ProxyRuns
  import SessionTheorems
  import PanicReachable

  const PORT: u16 := 7

  ghost predicate Reachable(t: SocksSession.Ipv6Text, s: System) {
    exists es :: Exec(t, es) == s
  }

  lemma ReachStep(t: SocksSession.Ipv6Text, s: System, e: Event)
    requires Reachable(t, s)
    ensures Reachable(t, Next(t, s, e))
  {
    var es :| Exec(t, es) == s;
    assert (es + [e])[..|es|] == es;
    assert Exec(t, es + [e]) == Next(t, s, e);
  }

  /** What the runs below need to know of a state in which every session has the same uuid; the
      fields of a session are those of the newest. */
  datatype View = View(
    sessions: nat,
    phase: SocksRequests.Phase,
    inbox: seq<ConnectorResponse>,
    handled: seq<ConnectorResponse>,
    up: seq<Mail>,
    writer: seq<Message>,
    dials: nat,
    readers: nat,
    mail: seq<ProxySide.Mail>,
    outbox: seq<Message>,
    connected: bool,
    sockets: nat,
    hasty: set<u16>,
    table: seq<ProxySide.TableOp>)

  predicate At(s: System, v: View) {
    && NearAt(s, v) && FarAt(s.far, v)
  }

  predicate NearAt(s: System, v: View) {
    && s.status.Serving? && v.sessions >= 1 && |s.actors| == v.sessions
    && s.server.clients == map[PORT := v.sessions - 1]
    && s.mailbox == v.up && s.server.writer == v.writer && s.log.hasty == v.hasty
    && var a := s.actors[v.sessions - 1];
       && a.s.uuid == PORT && a.phase == v.phase && a.running && !a.panicked
       && a.inbox == v.inbox && a.handled == v.handled
       && (a.s.connectRequestRecord.Some? <==> v.phase == SocksRequests.READY)
  }

  predicate FarAt(far: ProxySide.Run, v: View) {
    var f := far.s;
    && f.fault.NoFault? && |f.dials| == v.dials && (v.dials == 1 ==> f.dials[0].uuid == PORT)
    && |f.readers| == v.readers && (v.readers == 1 ==> f.readers[0].uuid == PORT)
    && f.mailbox == v.mail && f.outbox == v.outbox && f.nextSocket == v.sockets
    && (PORT in f.connections <==> v.connected)
    && far.log.table == v.table
  }

  const ACCEPTED :=
    View(1, SocksRequests.NEGOTIATION, [], [], [], [], 0, 0, [], [], false, 0, {}, [])

  lemma Accepted(t: SocksSession.Ipv6Text) returns (s: System)
    ensures Reachable(t, s) && At(s, ACCEPTED)
  {
    assert Exec(t, []) == INIT;
    s := Next(t, INIT, Accept(PORT));
    ReachStep(t, INIT, Accept(PORT));
  }

  lemma Greets(t: SocksSession.Ipv6Text, s: System, v: View) returns (s': System)
    requires Reachable(t, s) && At(s, v) && v.phase == SocksRequests.NEGOTIATION
    ensures Reachable(t, s') && At(s', v.(phase := SocksRequests.WORKING))
  {
    var e := AppItem(v.sessions - 1, PanicReachable.GREETING);
    ReachStep(t, s, e);
    s' := Next(t, s, e);
    assert s'.mailbox == s.mailbox;
  }

  lemma TargetItem(t: SocksSession.Ipv6Text, s: System, c: nat, r: SocksMessages.TargetRequest)
    returns (s': System, a': Actor, request: Message)
    requires c < |s.actors| && s.actors[c].running && s.actors[c].phase == SocksRequests.WORKING && s.status.Serving?
    ensures s' == Next(t, s, AppItem(c, SocksMessages.Target(r)))
    ensures s' == s.(actors := s.actors[c := a'], mailbox := s.mailbox + [Submit(request)],
                     log := s.log.(requested := s.log.requested + [request]))
    ensures a'.s.uuid == s.actors[c].s.uuid && a'.phase == SocksRequests.READY
    ensures a'.s.connectRequestRecord.Some? && a' == s.actors[c].(s := a'.s, phase := a'.phase, askedAt := a'.askedAt)
    ensures request.uuid == s.actors[c].s.uuid && request.transfer.RequestAddr?
  {
    var item := SocksMessages.Target(r);
    s' := OnAppItem(t, s, c, item);
    a' := s'.actors[c];
    request := SocksSession.OnRequest(t, s.actors[c].s, item, s.now).1.value;
  }

  lemma TargetView(s: System, s': System, v: View, a: Actor, request: Message)
    requires At(s, v) && s' == s.(actors := s.actors[v.sessions - 1 := a], mailbox := s.mailbox + [Submit(request)],
                                  log := s.log.(requested := s.log.requested + [request]))
    requires a.s.uuid == PORT && a.phase == SocksRequests.READY && a.s.connectRequestRecord.Some?
    requires a == s.actors[v.sessions - 1].(s := a.s, phase := a.phase, askedAt := a.askedAt)
    ensures At(s', v.(phase := SocksRequests.READY, up := v.up + [Submit(request)]))
  {
  }

  lemma AsksForTarget(t: SocksSession.Ipv6Text, s: System, v: View, r: SocksMessages.TargetRequest)
    returns (s': System, request: Message)
    requires Reachable(t, s) && At(s, v) && v.phase == SocksRequests.WORKING
    ensures Reachable(t, s') && request.uuid == PORT && request.transfer.RequestAddr?
    ensures At(s', v.(phase := SocksRequests.READY, up := v.up + [Submit(request)]))
  {
    ReachStep(t, s, AppItem(v.sessions - 1, SocksMessages.Target(r)));
    var a';
    s', a', request := TargetItem(t, s, v.sessions - 1, r);
    TargetView(s, s', v, a', request);
  }

  lemma SendsData(t: SocksSession.Ipv6Text, s: System, v: View, data: seq<byte>) returns (s': System)
    requires Reachable(t, s) && At(s, v) && v.phase == SocksRequests.READY && data != []
    ensures Reachable(t, s')
    ensures At(s', v.(up := v.up + [Submit(New(PORT, Transfer.Data(data)))],
                      hasty := if Success in v.handled then v.hasty else v.hasty + {PORT}))
  {
    var e := AppItem(v.sessions - 1, SocksMessages.Data(data));
    ReachStep(t, s, e);
    s' := Next(t, s, e);
  }

  lemma ServerForwards(t: SocksSession.Ipv6Text, s: System, v: View) returns (s': System)
    requires Reachable(t, s) && At(s, v) && v.up != [] && v.up[0].Submit?
    ensures Reachable(t, s') && At(s', v.(up := v.up[1..], writer := v.writer + [v.up[0].m]))
  {
    ReachStep(t, s, ServerMail);
    s' := Next(t, s, ServerMail);
  }

  lemma Dials(t: SocksSession.Ipv6Text, s: System, v: View) returns (s': System)
    requires Reachable(t, s) && At(s, v) && v.dials == 0
    requires v.writer != [] && v.writer[0].uuid == PORT && v.writer[0].transfer.RequestAddr?
    ensures Reachable(t, s') && At(s', v.(writer := v.writer[1..], dials := 1))
  {
    var e := DeliverRequest(ProxySide.WriteFailed);
    ReachStep(t, s, e);
    s' := Next(t, s, e);
  }

  lemma FarSteps(t: SocksSession.Ipv6Text, s: System, f: ProxySide.Event) returns (s': System)
    requires Reachable(t, s) && Possible(s, Far(f))
    ensures Reachable(t, s') && s' == s.(far := ProxySide.Next(s.far, f))
  {
    ReachStep(t, s, Far(f));
    s' := Next(t, s, Far(f));
  }

  lemma DialSucceeds(t: SocksSession.Ipv6Text, s: System, v: View) returns (s': System)
    requires Reachable(t, s) && At(s, v) && v.dials == 1 && v.readers == 0 && v.mail == []
    ensures Reachable(t, s')
    ensures At(s', v.(dials := 0, readers := 1, mail := [ProxySide.Established(PORT, v.sockets)],
                      sockets := v.sockets + 1))
  {
    var f := ProxySide.DialDone(0, ProxySide.Connected);
    assert Possible(s, Far(f));
    s' := FarSteps(t, s, f);
    DialView(s.far, v);
    FarMoves(s, ProxySide.Next(s.far, f), v,
             v.(dials := 0, readers := 1, mail := [ProxySide.Established(PORT, v.sockets)], sockets := v.sockets + 1));
  }

  lemma FarMoves(s: System, far: ProxySide.Run, v: View, v': View)
    requires NearAt(s, v) && FarAt(far, v')
    requires v' == v.(dials := v'.dials, readers := v'.readers, mail := v'.mail, sockets := v'.sockets)
    ensures At(s.(far := far), v')
  {
  }

  lemma DialView(far: ProxySide.Run, v: View)
    requires FarAt(far, v) && v.dials == 1 && v.readers == 0 && v.mail == []
    ensures FarAt(ProxySide.Next(far, ProxySide.DialDone(0, ProxySide.Connected)),
                  v.(dials := 0, readers := 1, mail := [ProxySide.Established(PORT, v.sockets)],
                     sockets := v.sockets + 1))
  {
  }

  lemma FarEstablishes(t: SocksSession.Ipv6Text, s: System, v: View, socket: nat) returns (s': System)
    requires Reachable(t, s) && At(s, v) && v.mail == [ProxySide.Established(PORT, socket)]
    ensures Reachable(t, s')
    ensures At(s', v.(mail := [], outbox := v.outbox + [New(PORT, Response(Succeeded))], connected := true,
                      table := v.table + [ProxySide.Inserted(PORT)]))
  {
    var e := Far(ProxySide.HandleNext);
    ReachStep(t, s, e);
    s' := Next(t, s, e);
  }

  lemma ReplyArrives(t: SocksSession.Ipv6Text, s: System, v: View) returns (s': System)
    requires Reachable(t, s) && At(s, v) && v.outbox == [New(PORT, Response(Succeeded))]
    ensures Reachable(t, s') && At(s', v.(outbox := [], inbox := v.inbox + [Success]))
  {
    ReachStep(t, s, DeliverReply);
    s' := Next(t, s, DeliverReply);
  }

  lemma SessionLearns(t: SocksSession.Ipv6Text, s: System, v: View) returns (s': System)
    requires Reachable(t, s) && At(s, v) && v.inbox == [Success] && v.phase == SocksRequests.READY
    ensures Reachable(t, s') && At(s', v.(inbox := [], handled := v.handled + [Success]))
  {
    var e := SessionMail(v.sessions - 1);
    ReachStep(t, s, e);
    s' := Next(t, s, e);
  }

  lemma ReaderFails(t: SocksSession.Ipv6Text, s: System, v: View) returns (s': System)
    requires Reachable(t, s) && At(s, v) && v.readers == 1 && v.mail == []
    ensures Reachable(t, s') && At(s', v.(readers := 0, mail := [ProxySide.Dead(PORT)]))
  {
    var f := ProxySide.ReadError(0);
    s' := FarSteps(t, s, f);
    ErrorView(s.far, v);
    FarMoves(s, ProxySide.Next(s.far, f), v, v.(readers := 0, mail := [ProxySide.Dead(PORT)]));
  }

  lemma ErrorView(far: ProxySide.Run, v: View)
    requires FarAt(far, v) && v.readers == 1 && v.mail == []
    ensures FarAt(ProxySide.Next(far, ProxySide.ReadError(0)), v.(readers := 0, mail := [ProxySide.Dead(PORT)]))
  {
  }

  lemma FarRemoves(t: SocksSession.Ipv6Text, s: System, v: View) returns (s': System)
    requires Reachable(t, s) && At(s, v) && v.mail == [ProxySide.Dead(PORT)]
    ensures Reachable(t, s')
    ensures At(s', v.(mail := [], outbox := v.outbox + [New(PORT, Response(Abort))], connected := false,
                      table := v.table + [ProxySide.Removed(PORT)]))
  {
    var e := Far(ProxySide.HandleNext);
    ReachStep(t, s, e);
    s' := Next(t, s, e);
  }

  /** Data for a uuid that is not connected. */
  lemma DataPanics(t: SocksSession.Ipv6Text, s: System, v: View) returns (s': System)
    requires Reachable(t, s) && At(s, v) && !v.connected
    requires v.writer != [] && v.writer[0].uuid == PORT && v.writer[0].transfer.Data?
    ensures Reachable(t, s') && s'.far.s.fault == ProxySide.UnroutedData(PORT)
    ensures |s'.actors| == v.sessions && s'.log.hasty == v.hasty && s'.far.log.table == v.table
  {
    var e := DeliverRequest(ProxySide.Wrote(0));
    ReachStep(t, s, e);
    s' := Next(t, s, e);
  }

  /** The port is accepted again, whether or not its old session has ended. */
  lemma PortReused(t: SocksSession.Ipv6Text, s: System, v: View) returns (s': System)
    requires Reachable(t, s) && At(s, v)
    ensures Reachable(t, s')
    ensures At(s', v.(sessions := v.sessions + 1, phase := SocksRequests.NEGOTIATION, inbox := [], handled := []))
  {
    ReachStep(t, s, Accept(PORT));
    s' := Next(t, s, Accept(PORT));
  }

  lemma SessionPanics(t: SocksSession.Ipv6Text, s: System, v: View) returns (s': System)
    requires Reachable(t, s) && At(s, v) && v.inbox == [Success] && v.phase != SocksRequests.READY
    ensures Reachable(t, s') && |s'.actors| == v.sessions && s'.actors[v.sessions - 1].panicked
  {
    var e := SessionMail(v.sessions - 1);
    ReachStep(t, s, e);
    s' := Next(t, s, e);
  }

  // ---- The runs ----

  const DIALLING := ACCEPTED.(phase := SocksRequests.READY, dials := 1)

  lemma Asking(t: SocksSession.Ipv6Text) returns (s: System, request: Message)
    ensures Reachable(t, s) && request.uuid == PORT && request.transfer.RequestAddr?
    ensures At(s, ACCEPTED.(phase := SocksRequests.READY, up := [Submit(request)]))
  {
    s := Accepted(t);
    s := Greets(t, s, ACCEPTED);
    s, request := AsksForTarget(t, s, ACCEPTED.(phase := SocksRequests.WORKING), PanicReachable.TARGET.request);
  }

  lemma Dialling(t: SocksSession.Ipv6Text) returns (s: System)
    ensures Reachable(t, s) && At(s, DIALLING)
  {
    var request;
    s, request := Asking(t);
    var v := ACCEPTED.(phase := SocksRequests.READY);
    s := ServerForwards(t, s, v.(up := [Submit(request)]));
    s := Dials(t, s, v.(writer := [request]));
  }

  /** With a reused port, the success of an old dial reaches the new session, which panics. */
  lemma ReusePanicsSession(t: SocksSession.Ipv6Text)
    ensures exists s :: Reachable(t, s) && |s.actors| == 2 && s.actors[1].panicked
  {
    var s := Dialling(t);
    s := PortReused(t, s, DIALLING);
    var v := DIALLING.(sessions := 2, phase := SocksRequests.NEGOTIATION);
    s := DialSucceeds(t, s, v);
    v := v.(dials := 0, readers := 1, mail := [ProxySide.Established(PORT, 0)], sockets := 1);
    s := FarEstablishes(t, s, v, 0);
    v := v.(mail := [], outbox := [New(PORT, Response(Succeeded))], connected := true,
            table := [ProxySide.Inserted(PORT)]);
    s := ReplyArrives(t, s, v);
    s := SessionPanics(t, s, v.(outbox := [], inbox := [Success]));
  }

  const CONNECTED := DIALLING.(dials := 0, readers := 1, sockets := 1, connected := true, handled := [Success],
    table := [ProxySide.Inserted(PORT)])

  lemma Connects(t: SocksSession.Ipv6Text) returns (s: System)
    ensures Reachable(t, s) && At(s, CONNECTED)
  {
    s := Dialling(t);
    s := DialSucceeds(t, s, DIALLING);
    var v := CONNECTED.(handled := []);
    s := FarEstablishes(t, s, v.(mail := [ProxySide.Established(PORT, 0)], connected := false, table := []), 0);
    s := ReplyArrives(t, s, v.(outbox := [New(PORT, Response(Succeeded))]));
    s := SessionLearns(t, s, v.(inbox := [Success]));
  }

  const DATA := New(PORT, Transfer.Data([1, 2]))

  lemma DataInFlight(t: SocksSession.Ipv6Text) returns (s: System)
    ensures Reachable(t, s) && At(s, CONNECTED.(writer := [DATA]))
  {
    s := Connects(t);
    s := SendsData(t, s, CONNECTED, [1, 2]);
    s := ServerForwards(t, s, CONNECTED.(up := [Submit(DATA)]));
  }

  /** A reader error races with data in flight: a patient application, no reuse, and still a panic. */
  lemma RemovalRacesWithData(t: SocksSession.Ipv6Text)
    ensures exists s :: Reachable(t, s) && s.log.hasty == {} && |s.actors| == 1
                        && s.far.s.fault == ProxySide.UnroutedData(PORT)
  {
    var s := DataInFlight(t);
    var v := CONNECTED.(writer := [DATA]);
    s := ReaderFails(t, s, v);
    v := v.(readers := 0);
    s := FarRemoves(t, s, v.(mail := [ProxySide.Dead(PORT)]));
    s := DataPanics(t, s, v.(outbox := [New(PORT, Response(Abort))], connected := false,
                             table := v.table + [ProxySide.Removed(PORT)]));
  }

  /** A socket that takes one byte of two loses the other, without any panic. */
  lemma ShortWriteLoses(t: SocksSession.Ipv6Text)
    ensures exists s :: Reachable(t, s) && s.log.hasty == {} && |s.actors| == 1 && s.far.s.fault.NoFault?
                        && |ProxySide.WrittenFor(s.far.log, PORT)| < |ProxyRuns.DataOf(s.far.log.consumed, PORT)|
  {
    var s := DataInFlight(t);
    var e := DeliverRequest(ProxySide.Wrote(1));
    ReachStep(t, s, e);
    var s' := Next(t, s, e);
    assert PORT in s'.far.log.torn;
    var es :| Exec(t, es) == s';
    SessionTheorems.UpstreamConserved(t, es, PORT);
  }

  /** An application that does not wait for success reaches the panic before any connection exists. */
  lemma HastePanics(t: SocksSession.Ipv6Text)
    ensures exists s :: Reachable(t, s) && s.far.log.table == [] && |s.actors| == 1
                        && s.far.s.fault == ProxySide.UnroutedData(PORT)
  {
    var s := Dialling(t);
    s := SendsData(t, s, DIALLING, [1, 2]);
    var v := DIALLING.(hasty := {PORT});
    s := ServerForwards(t, s, v.(up := [Submit(DATA)]));
    s := DataPanics(t, s, v.(writer := [DATA]));
  }

  // ---- Four heartbeats without an echo ----

  /** Ticks are due, and the last echo was taken at `echo`. */
  predicate Ticking(s: System, echo: nat, posts: nat) {
    && s.status.Serving? && s.server.hb == echo && s.log.sinceEcho == posts && s.now - s.lastTick >= 5_000
  }

  lemma Ticks(t: SocksSession.Ipv6Text, s: System, echo: nat, posts: nat) returns (s': System)
    requires Reachable(t, s) && Ticking(s, echo, posts) && s.now - echo <= 15_000
    ensures Reachable(t, s') && Ticking(s', echo, posts + 1) && s'.now == s.now + 5_000
  {
    ReachStep(t, s, Tick);
    s' := Next(t, s, Tick);
    ReachStep(t, s', Wait(5_000));
    s' := Next(t, s', Wait(5_000));
  }

  /** The first heartbeat, posted after five seconds, comes back after ten. */
  lemma FirstBeat(t: SocksSession.Ipv6Text) returns (s: System)
    ensures Reachable(t, s) && s.mailbox == [Beat] && s.server == LocalServer.START && s.far == ProxySide.START
    ensures s.status.Serving? && s.now == s.lastTick == 5_000
  {
    assert Exec(t, []) == INIT;
    ReachStep(t, INIT, Wait(5_000));
    s := Next(t, INIT, Wait(5_000));
    ReachStep(t, s, Tick);
    s := Next(t, s, Tick);
  }

  lemma BeatNumbered(t: SocksSession.Ipv6Text, s: System) returns (s': System)
    requires Reachable(t, s) && s.mailbox == [Beat] && s.server == LocalServer.START && s.status.Serving?
    ensures Reachable(t, s') && s'.server.writer == [New(0, Heartbeat(1))] && s'.far == s.far
    ensures s'.status.Serving? && s'.now == s.now && s'.lastTick == s.lastTick
  {
    ReachStep(t, s, ServerMail);
    PanicReachable.NextByName(t, s, ServerMail);
    s' := Next(t, s, ServerMail);
    BeatWritten(s);
  }

  lemma BeatWritten(s: System)
    requires s.mailbox == [Beat] && s.server == LocalServer.START
    ensures var s' := OnServerMail(s);
      && s'.server.writer == [New(0, Heartbeat(1))] && s'.far == s.far
      && s'.status == s.status && s'.now == s.now && s'.lastTick == s.lastTick
  {
  }

  lemma FirstEcho(t: SocksSession.Ipv6Text) returns (s: System)
    ensures Reachable(t, s) && s.now == 10_000 && Ticking(s, 10_000, 0)
  {
    s := FirstBeat(t);
    s := BeatNumbered(t, s);
    var e := DeliverRequest(ProxySide.Wrote(0));
    ReachStep(t, s, e);
    PanicReachable.NextByName(t, s, e);
    s := Next(t, s, e);
    s := EchoTaken(t, s, New(0, Heartbeat(1)));
  }

  lemma EchoTaken(t: SocksSession.Ipv6Text, s: System, beat: Message) returns (s': System)
    requires Reachable(t, s) && s.far.s.outbox == [beat] && beat.uuid == 0 && beat.transfer.Heartbeat?
    requires s.status.Serving? && s.now == s.lastTick == 5_000
    ensures Reachable(t, s') && s'.now == 10_000 && Ticking(s', 10_000, 0)
  {
    ReachStep(t, s, Wait(5_000));
    s' := Next(t, s, Wait(5_000));
    ReachStep(t, s', DeliverReply);
    s' := Next(t, s', DeliverReply);
  }

  /** The four of the bound do happen. */
  lemma FourHeartbeatsHappen(t: SocksSession.Ipv6Text)
    ensures exists s :: Reachable(t, s) && s.log.sinceEcho == 4
  {
    var s := FirstEcho(t);
    s := Ticks(t, s, 10_000, 0);
    s := Ticks(t, s, 10_000, 1);
    s := Ticks(t, s, 10_000, 2);
    s := Ticks(t, s, 10_000, 3);
  }
}
