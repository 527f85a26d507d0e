/** A new session for which the condition holds panics in some continuation: the events that do it. */
module PanicReachable {
  import opened Bytes
  import opened Messages
  import opened Sequences
  import opened Session
  import SocksMessages
  import SocksRequests
  import SocksSession
  import LocalServer
  import ProxySide
  import opened ProxyRuns
  import SessionLinks
  import SessionRouting
  import opened SessionActors
  import opened SessionTheorems
  import opened SessionReuse
  import opened PanicCondition

  // ---- An outcome on its way panics the session ----

  /** Session `c` is the one the port stands for, and has sent no request. */
  predicate Awaits(s: System, port: u16, c: nat) {
    && s.status.Serving? && port in s.server.clients && s.server.clients[port] == c
    && c < |s.actors| && s.actors[c].s.uuid == port && s.actors[c].running
    && s.actors[c].phase != SocksRequests.READY
  }

  /** The first thing to reach it will be an outcome. */
  predicate Doomed(s: System, port: u16, c: nat) {
    Awaits(s, port, c) &&
    var words := Told(s.actors[c].inbox) + Coming(s.far.s, port);
    words != [] && words[0].Outcome?
  }

  function Distance(s: System, c: nat): nat
    requires c < |s.actors|
  {
    3 * |s.far.s.mailbox| + 2 * |s.far.s.outbox| + |s.actors[c].inbox|
  }

  /** The session has panicked, or is doomed and nearer to it. */
  predicate Nearer(s: System, s': System, port: u16, c: nat)
    requires c < |s.actors|
  {
    c < |s'.actors| && (s'.actors[c].panicked || (Doomed(s', port, c) && Distance(s', c) < Distance(s, c)))
  }

  lemma DoomedMail(s: System, port: u16, c: nat)
    requires Doomed(s, port, c) && s.actors[c].inbox != [] && ActorOk(s.actors[c])
    ensures Possible(s, SessionMail(c)) && Nearer(s, OnSessionMail(s, c), port, c)
  {
    UnwrapStepExactly(s, c);
    var inbox := s.actors[c].inbox;
    assert Told(inbox) == WordIn()(inbox[0]) + Told(inbox[1..]);
  }

  lemma DoomedReply(s: System, port: u16, c: nat)
    requires Doomed(s, port, c) && s.actors[c].inbox == [] && s.far.s.outbox != []
    requires SessionLinks.Linked(s) && SessionRouting.Routed(s)
    ensures Possible(s, DeliverReply) && Nearer(s, OnDeliverReply(s), port, c)
  {
    var m := s.far.s.outbox[0];
    ReplyInbox(s, c);
    SessionRouting.NextReplyRoutes(s);
    FlushedComing(s.far.s, port);
    if m.uuid == port {
      TranslateWord(m);
      FlatMapSnoc(WordIn(), [], LocalServer.Translate(m.transfer).value);
    }
  }

  lemma DoomedHandled(s: System, port: u16, c: nat)
    requires Doomed(s, port, c) && s.actors[c].inbox == [] && s.far.s.outbox == []
    ensures Possible(s, Far(ProxySide.HandleNext))
    ensures Nearer(s, s.(far := ProxySide.Next(s.far, ProxySide.HandleNext)), port, c)
  {
    HandledComing(s.far.s, port);
  }

  lemma NextByName(t: SocksSession.Ipv6Text, s: System, e: Event)
    ensures Possible(s, e) && e.SessionMail? ==> Next(t, s, e) == OnSessionMail(s, e.c)
    ensures Possible(s, e) && e.DeliverReply? ==> Next(t, s, e) == OnDeliverReply(s)
    ensures Possible(s, e) && e.DeliverRequest? ==> Next(t, s, e) == OnDeliverRequest(s, e.w)
    ensures Possible(s, e) && e.ServerMail? ==> Next(t, s, e) == OnServerMail(s)
    ensures Possible(s, e) && e.Far? ==> Next(t, s, e) == s.(far := ProxySide.Next(s.far, e.e))
  {
  }

  /** The next event on the way of the outcome. */
  lemma DoomedStep(t: SocksSession.Ipv6Text, s: System, port: u16, c: nat) returns (e: Event)
    requires Doomed(s, port, c) && ActorOk(s.actors[c])
    requires SessionLinks.Linked(s) && SessionRouting.Routed(s)
    ensures Nearer(s, Next(t, s, e), port, c)
  {
    if s.actors[c].inbox != [] {
      e := SessionMail(c);
      DoomedMail(s, port, c);
    } else if s.far.s.outbox != [] {
      e := DeliverReply;
      DoomedReply(s, port, c);
    } else {
      e := Far(ProxySide.HandleNext);
      DoomedHandled(s, port, c);
    }
    NextByName(t, s, e);
  }

  lemma DoomedNext(t: SocksSession.Ipv6Text, es: seq<Event>, port: u16, c: nat) returns (e: Event)
    requires Doomed(Exec(t, es), port, c)
    ensures Nearer(Exec(t, es), Exec(t, es + [e]), port, c)
  {
    RunsAreSound(t, es, port, 0);
    e := DoomedStep(t, Exec(t, es), port, c);
    ExecSnoc(t, es, e);
  }

  /** Some continuation of the run panics session `c`. */
  ghost predicate SomeRunPanics(t: SocksSession.Ipv6Text, es: seq<Event>, c: nat) {
    exists more :: PanicsAfter(t, es + more, c)
  }

  lemma PanicsNow(t: SocksSession.Ipv6Text, es: seq<Event>, c: nat)
    requires PanicsAfter(t, es, c)
    ensures SomeRunPanics(t, es, c)
  {
    assert es + [] == es;
  }

  lemma PanicsLater(t: SocksSession.Ipv6Text, es: seq<Event>, e: Event, c: nat)
    requires SomeRunPanics(t, es + [e], c)
    ensures SomeRunPanics(t, es, c)
  {
    var more :| PanicsAfter(t, es + [e] + more, c);
    assert es + [e] + more == es + ([e] + more);
  }

  lemma {:induction false} DoomedPanics(t: SocksSession.Ipv6Text, es: seq<Event>, port: u16, c: nat)
    requires c < |Exec(t, es).actors| && Doomed(Exec(t, es), port, c)
    ensures SomeRunPanics(t, es, c)
    decreases Distance(Exec(t, es), c)
  {
    var e := DoomedNext(t, es, port, c);
    if PanicsAfter(t, es + [e], c) {
      PanicsNow(t, es + [e], c);
    } else {
      DoomedPanics(t, es + [e], port, c);
    }
    PanicsLater(t, es, e, c);
  }

  // ---- A dial of the port can time out ----

  lemma {:induction false} DialExists(dials: seq<ProxySide.Dial>, u: u16) returns (i: nat)
    requires Dialing(dials, u) != []
    ensures i < |dials| && dials[i].uuid == u
  {
    if dials[0].uuid == u {
      i := 0;
    } else {
      i := DialExists(dials[1..], u);
      i := i + 1;
    }
  }

  /** Session `c` awaits an outcome and none of the port is near: the outcome of a dial will be first. */
  predicate Waits(s: System, port: u16, c: nat) {
    && Awaits(s, port, c) && Told(s.actors[c].inbox) == []
    && s.far.s.fault.NoFault? && Coming(s.far.s, port) == []
  }

  /** Session `c` waits while the port is being dialled. */
  predicate Dials(s: System, port: u16, c: nat) {
    Waits(s, port, c) && Dialing(s.far.s.dials, port) != []
  }

  lemma TimeoutComes(f: ProxySide.State, port: u16, i: nat)
    requires f.fault.NoFault? && Coming(f, port) == [] && i < |f.dials| && f.dials[i].uuid == port
    ensures var f' := ProxySide.OnDialed(f, i, ProxySide.TimedOut);
      f'.fault.NoFault? && Coming(f', port) == [Outcome]
  {
    FarComing(f, ProxySide.DialDone(i, ProxySide.TimedOut), port);
  }

  lemma TimeoutDooms(s: System, port: u16, c: nat, i: nat)
    requires Waits(s, port, c) && i < |s.far.s.dials| && s.far.s.dials[i].uuid == port
    ensures var f := ProxySide.DialDone(i, ProxySide.TimedOut);
      Possible(s, Far(f)) && Doomed(s.(far := ProxySide.Next(s.far, f)), port, c)
  {
    TimeoutComes(s.far.s, port, i);
  }

  lemma DialingPanics(t: SocksSession.Ipv6Text, es: seq<Event>, port: u16, c: nat)
    requires Dials(Exec(t, es), port, c)
    ensures SomeRunPanics(t, es, c)
  {
    var i := DialExists(Exec(t, es).far.s.dials, port);
    var e := Far(ProxySide.DialDone(i, ProxySide.TimedOut));
    TimeoutDooms(Exec(t, es), port, c, i);
    NextByName(t, Exec(t, es), e);
    ExecSnoc(t, es, e);
    DoomedPanics(t, es + [e], port, c);
    PanicsLater(t, es, e, c);
  }

  // ---- A request of the port can get through ----

  /** The prospect is what the far end has, but for dials completed already. */
  predicate Realises(f: ProxySide.State, p: Prospect) {
    && f.connections.Keys == p.connected && f.mailbox == p.mail
    && forall u :: u in p.dialing ==> u in ProspectOf(f).dialing || u in AfterMail(p.connected, p.mail)
  }

  /** The next request of the port is `n` places away, and the way is free. */
  predicate Passing(s: System, port: u16, c: nat, p: Prospect, n: nat) {
    && Waits(s, port, c) && Realises(s.far.s, p)
    && n < |Upward(s)| && Asks(Upward(s)[n], port)
    && (forall i :: 0 <= i < n ==> !Asks(Upward(s)[i], port))
    && WayIsFree(s, p, n)
  }

  lemma BeatAhead(q: seq<Mail>)
    requires q != [] && q[0].Beat?
    ensures BeatsWaiting(q) > 0
  {
  }

  lemma WayAfterServerMail(s: System, port: u16, p: Prospect, n: nat)
    requires Possible(s, ServerMail) && s.server.writer == [] && n < |Upward(s)| && WayIsFree(s, p, n)
    requires Asks(Upward(s)[n], port)
    ensures var s' := OnServerMail(s);
      && s'.status == s.status && s'.far == s.far && |Upward(s')| == |Upward(s)| && WayIsFree(s', p, n)
      && forall i :: 0 <= i < |Upward(s)| ==> Asks(Upward(s')[i], port) == Asks(Upward(s)[i], port)
  {
    assert Upward(s)[0] == s.mailbox[0];
    if s.mailbox[0].Beat? {
      BeatAhead(Upward(s)[..n]);
    }
    MailUpward(s);
    WayAfterMail(s, p, n);
  }

  lemma PassMail(s: System, port: u16, c: nat, p: Prospect, n: nat)
    requires Passing(s, port, c, p, n) && s.server.writer == []
    ensures Possible(s, ServerMail) && Passing(OnServerMail(s), port, c, p, n)
  {
    WayAfterServerMail(s, port, p, n);
    MailKeepsSessions(s);
  }

  lemma MailKeepsSessions(s: System)
    requires Possible(s, ServerMail)
    ensures OnServerMail(s).actors == s.actors && OnServerMail(s).server.clients == s.server.clients
  {
  }

  /** A step of the far end alone. */
  lemma PassFar(s: System, f: ProxySide.Event, port: u16, c: nat, p: Prospect, p': Prospect, n: nat)
    requires Passing(s, port, c, p, n) && ProxySide.Possible(s.far.s, f) && !f.Consume? && !f.Flush?
    requires NewWords(s.far.s, f, port) == [] && Realises(ProxySide.Step(s.far.s, f), p')
    requires CanTake(p', Load(Upward(s)[..n]))
    ensures Possible(s, Far(f)) && Passing(s.(far := ProxySide.Next(s.far, f)), port, c, p', n)
  {
    FarComing(s.far.s, f, port);
    assert Upward(s.(far := ProxySide.Next(s.far, f))) == Upward(s);
  }

  lemma PassHandle(s: System, port: u16, c: nat, p: Prospect, n: nat)
    requires Passing(s, port, c, p, n) && n > 0 && s.server.writer != [] && p.mail != []
    requires s.server.writer[0].transfer.Data? && s.server.writer[0].uuid !in p.connected
    ensures Possible(s, Far(ProxySide.HandleNext))
    ensures Passing(s.(far := ProxySide.Next(s.far, ProxySide.HandleNext)), port, c, Handle(p), n)
  {
    FirstLoad(s, n);
    HandleRealises(s.far.s, p);
    PassFar(s, ProxySide.HandleNext, port, c, p, Handle(p), n);
  }

  lemma HandleRealises(f: ProxySide.State, p: Prospect)
    requires Realises(f, p) && p.mail != []
    ensures Realises(ProxySide.OnMail(f), Handle(p))
  {
  }

  lemma FirstLoad(s: System, n: nat)
    requires 0 < n <= |Upward(s)| && s.server.writer != [] && s.server.writer[0].transfer.Data?
    ensures var load := Load(Upward(s)[..n]);
      load != [] && load[0] == s.server.writer[0]
  {
    assert Upward(s)[..n] == [Submit(s.server.writer[0])] + Upward(s)[1..n];
    LoadAhead(s.server.writer[0], Upward(s)[1..n]);
  }

  lemma PassDial(s: System, port: u16, c: nat, p: Prospect, n: nat) returns (f: ProxySide.Event, p': Prospect)
    requires Passing(s, port, c, p, n) && n > 0 && s.server.writer != [] && p.mail == []
    requires s.server.writer[0].transfer.Data? && s.server.writer[0].uuid !in p.connected
    requires Dialing(s.far.s.dials, port) == []
    ensures f.DialDone?
    ensures Possible(s, Far(f)) && Passing(s.(far := ProxySide.Next(s.far, f)), port, c, p', n)
  {
    var u := s.server.writer[0].uuid;
    FirstLoad(s, n);
    var i := DialOfProspect(s.far.s, p, u);
    NotDialing(s.far.s.dials, port, i);
    f := ProxySide.DialDone(i, ProxySide.Connected);
    p' := p.(mail := [ProxySide.Established(u, s.far.s.nextSocket)]);
    DialSettles(p, u, s.far.s.nextSocket, Load(Upward(s)[..n]));
    DialRealises(s.far.s, p, i);
    PassFar(s, f, port, c, p, p', n);
  }

  lemma DialOfProspect(f: ProxySide.State, p: Prospect, u: u16) returns (i: nat)
    requires Realises(f, p) && p.mail == [] && u !in p.connected && u in p.dialing
    ensures i < |f.dials| && f.dials[i].uuid == u
  {
    assert u in ProspectOf(f).dialing;
    i :| 0 <= i < |f.dials| && f.dials[i].uuid == u;
  }

  /** Completing the dial now or when the mail is handled comes to the same. */
  lemma DialSettles(p: Prospect, u: u16, socket: ProxySide.Socket, q: seq<Message>)
    requires p.mail == [] && u !in p.connected && u in p.dialing
    requires q != [] && q[0].uuid == u && q[0].transfer.Data? && CanTake(p, q)
    ensures CanTake(p.(mail := [ProxySide.Established(u, socket)]), q)
  {
    assert Handle(p.(mail := [ProxySide.Established(u, socket)])) == p.(connected := p.connected + {u});
  }

  lemma DialRealises(f: ProxySide.State, p: Prospect, i: nat)
    requires Realises(f, p) && p.mail == [] && f.fault.NoFault? && i < |f.dials|
    ensures var mail := ProxySide.Established(f.dials[i].uuid, f.nextSocket);
      Realises(ProxySide.OnDialed(f, i, ProxySide.Connected), p.(mail := [mail]))
  {
    var mail := ProxySide.Established(f.dials[i].uuid, f.nextSocket);
    var f' := ProxySide.OnDialed(f, i, ProxySide.Connected);
    AfterMailSnoc(p.connected, [], mail);
    assert [mail] == [] + [mail];
    forall u | u in ProspectOf(f).dialing && u != f.dials[i].uuid ensures u in ProspectOf(f').dialing {
      var j :| 0 <= j < |f.dials| && f.dials[j].uuid == u;
      assert f'.dials[if j < i then j else j - 1] == f.dials[j];
    }
  }

  const TAKEN := ProxySide.Wrote(0)

  lemma ConsumedRealises(f: ProxySide.State, m: Message, p: Prospect, q: seq<Message>) returns (p': Prospect)
    requires f.fault.NoFault? && Realises(f, p)
    requires CanTake(p, (if m.transfer.Heartbeat? then [] else [m]) + q)
    requires m.transfer.Data? ==> m.uuid in p.connected
    ensures var f' := ProxySide.OnRequest(f, m, TAKEN);
      f'.fault.NoFault? && Realises(f', p') && CanTake(p', q)
  {
    p' := p;
    if m.transfer.Heartbeat? {
      assert [] + q == q;
    } else {
      assert ([m] + q)[1..] == q;
    }
    if m.transfer.RequestAddr? {
      p' := p.(dialing := p.dialing + {m.uuid});
      var f' := ProxySide.OnRequest(f, m, TAKEN);
      assert f'.dials[|f.dials|].uuid == m.uuid;
      assert forall i :: 0 <= i < |f.dials| ==> f'.dials[i] == f.dials[i];
    }
  }

  lemma RequestAhead(s: System, n: nat)
    requires Possible(s, DeliverRequest(TAKEN)) && 0 < n <= |Upward(s)|
    ensures var m, s' := s.server.writer[0], OnDeliverRequest(s, TAKEN);
      && |Upward(s')| == |Upward(s)| - 1
      && Load(Upward(s)[..n]) == (if m.transfer.Heartbeat? then [] else [m]) + Load(Upward(s')[..n - 1])
      && BeatsWaiting(Upward(s)[..n]) == BeatsWaiting(Upward(s')[..n - 1])
      && s'.server.hbIndex == s.server.hbIndex
  {
    var s' := OnDeliverRequest(s, TAKEN);
    RequestUpward(s, TAKEN);
    assert Upward(s)[..n] == [Submit(s.server.writer[0])] + Upward(s')[..n - 1];
    LoadAhead(s.server.writer[0], Upward(s')[..n - 1]);
  }

  lemma WayAfterRequest(s: System, p: Prospect, n: nat) returns (p': Prospect)
    requires Possible(s, DeliverRequest(TAKEN)) && Realises(s.far.s, p)
    requires 0 < n <= |Upward(s)| && WayIsFree(s, p, n)
    requires s.server.writer[0].transfer.Data? ==> s.server.writer[0].uuid in p.connected
    ensures var s' := OnDeliverRequest(s, TAKEN);
      && s'.far.s.fault.NoFault? && Realises(s'.far.s, p')
      && |Upward(s')| == |Upward(s)| - 1 && WayIsFree(s', p', n - 1)
  {
    var s' := OnDeliverRequest(s, TAKEN);
    RequestAhead(s, n);
    RequestUpward(s, TAKEN);
    p' := ConsumedRealises(s.far.s, s.server.writer[0], p, Load(Upward(s')[..n - 1]));
  }

  lemma WaitsAfterRequest(s: System, port: u16, c: nat)
    requires Possible(s, DeliverRequest(TAKEN)) && Waits(s, port, c)
    requires OnDeliverRequest(s, TAKEN).far.s.fault.NoFault?
    ensures Waits(OnDeliverRequest(s, TAKEN), port, c)
  {
    RequestUpward(s, TAKEN);
    ConsumedComing(s.far.s, s.server.writer[0], TAKEN, port);
  }

  lemma AsksAfterRequest(s: System, port: u16)
    requires Possible(s, DeliverRequest(TAKEN))
    ensures var q, q' := Upward(s), Upward(OnDeliverRequest(s, TAKEN));
      |q'| + 1 == |q| && forall i :: 0 < i < |q| ==> Asks(q'[i - 1], port) == Asks(q[i], port)
  {
    RequestUpward(s, TAKEN);
  }

  lemma PassRequest(s: System, port: u16, c: nat, p: Prospect, n: nat) returns (p': Prospect)
    requires Passing(s, port, c, p, n) && n > 0 && s.server.writer != []
    requires s.server.writer[0].transfer.Data? ==> s.server.writer[0].uuid in p.connected
    ensures Possible(s, DeliverRequest(TAKEN)) && Passing(OnDeliverRequest(s, TAKEN), port, c, p', n - 1)
  {
    p' := WayAfterRequest(s, p, n);
    WaitsAfterRequest(s, port, c);
    AsksAfterRequest(s, port);
    var q, q' := Upward(s), Upward(OnDeliverRequest(s, TAKEN));
    forall i | 0 <= i < n - 1 ensures !Asks(q'[i], port) {
      assert Asks(q'[i + 1 - 1], port) == Asks(q[i + 1], port);
    }
    assert Asks(q'[n - 1], port) == Asks(q[n], port);
  }

  /** How far the next request of the port is from the far end. */
  function Height(s: System): nat {
    2 * |s.mailbox| + |s.server.writer|
  }

  /** A step towards it: of the messages ahead, else of the dials, else of the far end's mail. */
  predicate Lower(s: System, s': System) {
    || Height(s') < Height(s)
    || (Height(s') == Height(s) && |s'.far.s.dials| < |s.far.s.dials|)
    || (Height(s') == Height(s) && |s'.far.s.dials| == |s.far.s.dials| && |s'.far.s.mailbox| < |s.far.s.mailbox|)
  }

  /** The next request of the port is still passing, and nearer to the far end. */
  ghost predicate Advances(s: System, s': System, port: u16, c: nat) {
    Lower(s, s') && exists p, n: nat :: Passing(s', port, c, p, n)
  }

  lemma PassMailStep(s: System, port: u16, c: nat, p: Prospect, n: nat)
    requires Passing(s, port, c, p, n) && s.server.writer == []
    ensures Possible(s, ServerMail) && Advances(s, OnServerMail(s), port, c)
  {
    PassMail(s, port, c, p, n);
    MailLowers(s);
  }

  lemma MailLowers(s: System)
    requires Possible(s, ServerMail) && OnServerMail(s).status.Serving?
    ensures Lower(s, OnServerMail(s))
  {
  }

  lemma PassRequestStep(s: System, port: u16, c: nat, p: Prospect, n: nat)
    requires Passing(s, port, c, p, n) && n > 0 && s.server.writer != []
    requires s.server.writer[0].transfer.Data? ==> s.server.writer[0].uuid in p.connected
    ensures Possible(s, DeliverRequest(TAKEN)) && Advances(s, OnDeliverRequest(s, TAKEN), port, c)
  {
    var p' := PassRequest(s, port, c, p, n);
  }

  lemma FarLowers(s: System, f: ProxySide.Event)
    requires ProxySide.Possible(s.far.s, f) && (f.HandleNext? || f.DialDone?)
    ensures Lower(s, s.(far := ProxySide.Next(s.far, f)))
  {
  }

  lemma PassConnectStep(s: System, port: u16, c: nat, p: Prospect, n: nat) returns (f: ProxySide.Event)
    requires Passing(s, port, c, p, n) && n > 0 && s.server.writer != []
    requires Dialing(s.far.s.dials, port) == []
    requires s.server.writer[0].transfer.Data? && s.server.writer[0].uuid !in p.connected
    ensures Possible(s, Far(f)) && Advances(s, s.(far := ProxySide.Next(s.far, f)), port, c)
  {
    if p.mail != [] {
      f := ProxySide.HandleNext;
      PassHandle(s, port, c, p, n);
    } else {
      var p';
      f, p' := PassDial(s, port, c, p, n);
    }
    FarLowers(s, f);
  }

  lemma PassStep(t: SocksSession.Ipv6Text, s: System, port: u16, c: nat, p: Prospect, n: nat) returns (e: Event)
    requires Passing(s, port, c, p, n) && Dialing(s.far.s.dials, port) == []
    requires n > 0 || s.server.writer == []
    ensures Advances(s, Next(t, s, e), port, c)
  {
    if s.server.writer == [] {
      e := ServerMail;
      PassMailStep(s, port, c, p, n);
    } else if s.server.writer[0].transfer.Data? && s.server.writer[0].uuid !in p.connected {
      var f := PassConnectStep(s, port, c, p, n);
      e := Far(f);
    } else {
      e := DeliverRequest(TAKEN);
      PassRequestStep(s, port, c, p, n);
    }
    NextByName(t, s, e);
  }

  lemma PassedDials(s: System, port: u16, c: nat, p: Prospect)
    requires Passing(s, port, c, p, 0) && s.server.writer != []
    ensures Possible(s, DeliverRequest(TAKEN)) && Dials(OnDeliverRequest(s, TAKEN), port, c)
  {
    var m := s.server.writer[0];
    assert Upward(s)[0] == Submit(m);
    ConsumedComing(s.far.s, m, TAKEN, port);
    FlatMapSnoc(DialFor(port), s.far.s.dials, ProxySide.Dial(m.uuid, m.transfer.addr));
  }

  lemma PassedNext(t: SocksSession.Ipv6Text, es: seq<Event>, port: u16, c: nat, p: Prospect) returns (e: Event)
    requires Passing(Exec(t, es), port, c, p, 0) && Exec(t, es).server.writer != []
    ensures Dials(Exec(t, es + [e]), port, c)
  {
    e := DeliverRequest(TAKEN);
    PassedDials(Exec(t, es), port, c, p);
    NextByName(t, Exec(t, es), e);
    ExecSnoc(t, es, e);
  }

  lemma PassedPanics(t: SocksSession.Ipv6Text, es: seq<Event>, port: u16, c: nat, p: Prospect)
    requires Passing(Exec(t, es), port, c, p, 0) && Exec(t, es).server.writer != []
    ensures SomeRunPanics(t, es, c)
  {
    var e := PassedNext(t, es, port, c, p);
    DialingPanics(t, es + [e], port, c);
    PanicsLater(t, es, e, c);
  }

  lemma PassNext(t: SocksSession.Ipv6Text, es: seq<Event>, port: u16, c: nat, p: Prospect, n: nat)
    returns (e: Event)
    requires Passing(Exec(t, es), port, c, p, n) && Dialing(Exec(t, es).far.s.dials, port) == []
    requires n > 0 || Exec(t, es).server.writer == []
    ensures Advances(Exec(t, es), Exec(t, es + [e]), port, c)
  {
    e := PassStep(t, Exec(t, es), port, c, p, n);
    ExecSnoc(t, es, e);
  }

  lemma {:induction false} PassingPanics(t: SocksSession.Ipv6Text, es: seq<Event>, port: u16, c: nat, p: Prospect,
                                         n: nat)
    requires Passing(Exec(t, es), port, c, p, n)
    ensures SomeRunPanics(t, es, c)
    decreases Height(Exec(t, es)), |Exec(t, es).far.s.dials|, |Exec(t, es).far.s.mailbox|
  {
    if Dialing(Exec(t, es).far.s.dials, port) != [] {
      DialingPanics(t, es, port, c);
    } else if n == 0 && Exec(t, es).server.writer != [] {
      PassedPanics(t, es, port, c, p);
    } else {
      var e := PassNext(t, es, port, c, p, n);
      var p', n': nat :| Passing(Exec(t, es + [e]), port, c, p', n');
      PassingPanics(t, es + [e], port, c, p', n');
      PanicsLater(t, es, e, c);
    }
  }

  // ---- An older session can still ask ----

  const GREETING := SocksMessages.Negotiation(5, 1, [0])
  const TARGET := SocksMessages.Target(SocksMessages.TargetRequest(
    5, SocksMessages.CONNECT, 0, SocksMessages.IpV4, SocksMessages.IPV4([127, 0, 0, 1]), 80))

  lemma UnsettledGreets(t: SocksSession.Ipv6Text, s: System, port: u16, c: nat, j: nat)
    requires Waits(s, port, c) && Unsettled(s, port, j) && j != c
    requires s.actors[j].phase == SocksRequests.NEGOTIATION
    ensures Possible(s, AppItem(j, GREETING))
    ensures var s' := OnAppItem(t, s, j, GREETING);
      && Waits(s', port, c) && Unsettled(s', port, j) && s'.actors[j].phase == SocksRequests.WORKING
      && s'.far == s.far && s'.server == s.server && s'.mailbox == s.mailbox
  {
    assert s.mailbox + [] == s.mailbox;
  }

  lemma UnsettledAsks(t: SocksSession.Ipv6Text, s: System, port: u16, c: nat, j: nat)
    requires Waits(s, port, c) && Unsettled(s, port, j) && j != c
    requires s.actors[j].phase == SocksRequests.WORKING
    ensures Possible(s, AppItem(j, TARGET))
    ensures var s' := OnAppItem(t, s, j, TARGET);
      && Waits(s', port, c) && s'.far == s.far && s'.server == s.server
      && |s'.mailbox| == |s.mailbox| + 1 && s.mailbox <= s'.mailbox && Asks(s'.mailbox[|s.mailbox|], port)
  {
  }

  lemma UpwardGrows(s: System, s': System)
    requires s'.server == s.server && s.mailbox <= s'.mailbox
    ensures var n := |Upward(s)|;
      && n <= |Upward(s')| && Upward(s')[..n] == Upward(s) == Upward(s)[..n]
      && (forall i :: 0 <= i < n ==> Upward(s')[i] == Upward(s)[i])
      && (forall i :: |s.mailbox| <= i < |s'.mailbox| ==> Upward(s')[n - |s.mailbox| + i] == s'.mailbox[i])
  {
  }

  lemma AskedPasses(t: SocksSession.Ipv6Text, s: System, port: u16, c: nat, j: nat)
    requires Waits(s, port, c) && Unsettled(s, port, j) && j != c
    requires s.actors[j].phase == SocksRequests.WORKING
    requires forall i :: 0 <= i < |Upward(s)| ==> !Asks(Upward(s)[i], port)
    requires WayIsFree(s, ProspectOf(s.far.s), |Upward(s)|)
    ensures Passing(OnAppItem(t, s, j, TARGET), port, c, ProspectOf(s.far.s), |Upward(s)|)
  {
    UnsettledAsks(t, s, port, c, j);
    UpwardGrows(s, OnAppItem(t, s, j, TARGET));
  }

  lemma AskingPanics(t: SocksSession.Ipv6Text, es: seq<Event>, port: u16, c: nat, j: nat)
    requires var s := Exec(t, es);
      && Waits(s, port, c) && Unsettled(s, port, j) && j != c
      && s.actors[j].phase == SocksRequests.WORKING
      && (forall i :: 0 <= i < |Upward(s)| ==> !Asks(Upward(s)[i], port))
      && WayIsFree(s, ProspectOf(s.far.s), |Upward(s)|)
    ensures SomeRunPanics(t, es, c)
  {
    var s, e := Exec(t, es), AppItem(j, TARGET);
    AskedPasses(t, s, port, c, j);
    ExecSnoc(t, es, e);
    PassingPanics(t, es + [e], port, c, ProspectOf(s.far.s), |Upward(s)|);
    PanicsLater(t, es, e, c);
  }

  lemma UnsettledPanics(t: SocksSession.Ipv6Text, es: seq<Event>, port: u16, c: nat, j: nat)
    requires var s := Exec(t, es);
      && Waits(s, port, c) && Unsettled(s, port, j) && j != c
      && (forall i :: 0 <= i < |Upward(s)| ==> !Asks(Upward(s)[i], port))
      && WayIsFree(s, ProspectOf(s.far.s), |Upward(s)|)
    ensures SomeRunPanics(t, es, c)
  {
    var s, e := Exec(t, es), AppItem(j, GREETING);
    if s.actors[j].phase == SocksRequests.NEGOTIATION {
      UnsettledGreets(t, s, port, c, j);
      ExecSnoc(t, es, e);
      assert Upward(Exec(t, es + [e])) == Upward(s);
      assert WayIsFree(Exec(t, es + [e]), ProspectOf(s.far.s), |Upward(s)|);
      AskingPanics(t, es + [e], port, c, j);
      PanicsLater(t, es, e, c);
    } else {
      AskingPanics(t, es, port, c, j);
    }
  }
}
