/** A new session for which the condition does not hold never panics, whatever happens. */
module PanicUnreachable {
  import opened Bytes
  import opened Messages
  import opened Sequences
  import opened Session
  import SocksMessages
  import SocksRequests
  import SocksSession
  import LocalServer
  import ProxySide
  import opened ProxyRuns
  import SessionLinks
  import SessionRouting
  import opened SessionActors
  import opened SessionTheorems
  import opened SessionReuse
  import opened PanicCondition

  // ---- No run does better than the prospect ----

  /** The far end has handled `k` mails of the prospect, and nothing has connected a uuid that the
      prospect could not. */
  predicate Within(f: ProxySide.State, p: Prospect, k: nat) {
    && k <= |p.mail| && p.mail[k..] <= f.mailbox
    && (forall i :: |p.mail| - k <= i < |f.mailbox| && f.mailbox[i].Established? ==>
          f.mailbox[i].uuid in p.dialing)
    && (forall i :: 0 <= i < |f.dials| ==> f.dials[i].uuid in p.dialing)
    && f.connections.Keys <= AfterMail(p.connected, p.mail[..k]) + if k == |p.mail| then p.dialing else {}
  }

  lemma WithinAtFirst(f: ProxySide.State)
    ensures Within(f, ProspectOf(f), 0)
  {
  }

  lemma WithinHandled(f: ProxySide.State, p: Prospect, k: nat) returns (k': nat)
    requires f.fault.NoFault? && f.mailbox != [] && Within(f, p, k)
    ensures Within(ProxySide.OnMail(f), p, k')
  {
    k' := k;
    if k < |p.mail| {
      k' := k + 1;
      assert p.mail[..k + 1] == p.mail[..k] + [p.mail[k]];
      AfterMailSnoc(p.connected, p.mail[..k], p.mail[k]);
      assert f.mailbox[0] == p.mail[k];
    }
  }

  lemma WithinFar(f: ProxySide.State, e: ProxySide.Event, p: Prospect, k: nat) returns (k': nat)
    requires ProxySide.Possible(f, e) && !e.Consume? && !e.Flush? && Within(f, p, k)
    ensures Within(ProxySide.Step(f, e), p, k')
  {
    k' := k;
    if e.HandleNext? {
      k' := WithinHandled(f, p, k);
    }
  }

  /** What the far end has connected, the prospect connects, and stays ahead. */
  lemma {:induction false} WithinSettled(f: ProxySide.State, p: Prospect, k: nat, u: u16) returns (k': nat)
    requires Within(f, p, k) && u in f.connections
    ensures Settle(p, u).Some? && Within(f, Settle(p, u).value, k')
    decreases |p.mail|
  {
    if u in p.connected {
      k' := k;
    } else if p.mail != [] {
      assert k > 0;
      assert p.mail[..k][1..] == p.mail[1..][..k - 1] && p.mail[1..][k - 1..] == p.mail[k..];
      k' := WithinSettled(f, Handle(p), k - 1, u);
    } else {
      k' := 0;
    }
  }

  lemma WithinConsumed(f: ProxySide.State, m: Message, w: ProxySide.WriteOutcome, p: Prospect, k: nat,
                       q: seq<Message>)
    returns (p': Prospect, k': nat)
    requires f.fault.NoFault? && Within(f, p, k) && !m.transfer.Heartbeat? && !CanTake(p, [m] + q)
    requires ProxySide.OnRequest(f, m, w).fault.NoFault?
    ensures Within(ProxySide.OnRequest(f, m, w), p', k') && !CanTake(p', q)
  {
    assert ([m] + q)[1..] == q;
    if m.transfer.RequestAddr? {
      p', k' := p.(dialing := p.dialing + {m.uuid}), k;
    } else {
      k' := WithinSettled(f, p, k, m.uuid);
      p' := Settle(p, m.uuid).value;
    }
  }

  // ---- A port whose requests cannot reach the far end ----

  predicate StuckAt(s: System, port: u16, n: nat, p: Prospect, k: nat) {
    && n <= |Upward(s)|
    && (forall i :: 0 <= i < n ==> !Asks(Upward(s)[i], port))
    && !WayIsFree(s, p, n) && Within(s.far.s, p, k)
  }

  ghost predicate Stuck(s: System, port: u16) {
    && s.far.s.fault.NoFault? && Coming(s.far.s, port) == [] && Dialing(s.far.s.dials, port) == []
    && exists n: nat, p, k: nat :: StuckAt(s, port, n, p, k)
  }

  /** Nothing comes down for the port, or an abort comes first. */
  ghost predicate Blocked(s: System, port: u16) {
    var words := Coming(s.far.s, port);
    if words != [] then words[0].Halt? else !s.far.s.fault.NoFault? || Stuck(s, port)
  }

  lemma StuckAtFar(s: System, f: ProxySide.Event, port: u16, n: nat, p: Prospect, k: nat) returns (k': nat)
    requires Possible(s, Far(f)) && StuckAt(s, port, n, p, k)
    ensures StuckAt(s.(far := ProxySide.Next(s.far, f)), port, n, p, k')
  {
    k' := WithinFar(s.far.s, f, p, k);
    assert Upward(s.(far := ProxySide.Next(s.far, f))) == Upward(s);
  }

  /** Without a dial of the port nothing can be posted for it but an abort. */
  lemma DialingFar(f: ProxySide.State, e: ProxySide.Event, u: u16)
    requires ProxySide.Possible(f, e) && !e.Consume? && Dialing(f.dials, u) == []
    ensures Dialing(ProxySide.Step(f, e).dials, u) == []
    ensures NewWords(f, e, u) == [] || NewWords(f, e, u) == [Halt]
  {
    if e.DialDone? {
      NotDialing(f.dials, u, e.i);
      FlatMapRemoveAt(DialFor(u), f.dials, e.i);
    }
  }

  lemma StuckFar(t: SocksSession.Ipv6Text, s: System, f: ProxySide.Event, port: u16)
    requires Possible(s, Far(f)) && NewWords(s.far.s, f, port) == [] && Stuck(s, port)
    ensures Stuck(Next(t, s, Far(f)), port)
  {
    FarComing(s.far.s, f, port);
    DialingFar(s.far.s, f, port);
    var n: nat, p, k: nat :| StuckAt(s, port, n, p, k);
    k := StuckAtFar(s, f, port, n, p, k);
  }

  lemma BlockedFar(t: SocksSession.Ipv6Text, s: System, f: ProxySide.Event, port: u16)
    requires Possible(s, Far(f)) && Blocked(s, port)
    ensures Blocked(Next(t, s, Far(f)), port)
  {
    FarComing(s.far.s, f, port);
    assert Next(t, s, Far(f)).far.s == ProxySide.Step(s.far.s, f);
    if Coming(s.far.s, port) == [] {
      DialingFar(s.far.s, f, port);
      if NewWords(s.far.s, f, port) == [] {
        StuckFar(t, s, f, port);
      }
    }
  }

  /** The local server's mailbox grew at its end. */
  lemma StuckPosted(s: System, s': System, port: u16)
    requires Stuck(s, port)
    requires s'.far.s == s.far.s && s'.server == s.server && s.mailbox <= s'.mailbox
    ensures Stuck(s', port)
  {
    var n: nat, p, k: nat :| StuckAt(s, port, n, p, k);
    assert Upward(s) <= Upward(s');
    assert Upward(s')[..n] == Upward(s)[..n];
    assert StuckAt(s', port, n, p, k);
  }

  lemma BlockedPosted(s: System, s': System, port: u16)
    requires s'.far.s == s.far.s && s'.server == s.server && s.mailbox <= s'.mailbox
    ensures Blocked(s, port) ==> Blocked(s', port)
  {
    if Stuck(s, port) {
      StuckPosted(s, s', port);
    }
  }

  lemma StuckMail(s: System, port: u16)
    requires Possible(s, ServerMail) && Stuck(s, port) && OnServerMail(s).status.Serving?
    ensures Stuck(OnServerMail(s), port)
  {
    var n: nat, p, k: nat :| StuckAt(s, port, n, p, k);
    MailUpward(s);
    WayAfterMail(s, p, n);
    assert StuckAt(OnServerMail(s), port, n, p, k);
  }

  lemma StuckAtRequest(s: System, w: ProxySide.WriteOutcome, port: u16, n: nat, p: Prospect, k: nat)
    returns (p': Prospect, k': nat)
    requires Possible(s, DeliverRequest(w)) && StuckAt(s, port, n, p, k)
    requires OnDeliverRequest(s, w).far.s.fault.NoFault?
    ensures n > 0 && StuckAt(OnDeliverRequest(s, w), port, n - 1, p', k')
  {
    var s', m := OnDeliverRequest(s, w), s.server.writer[0];
    RequestUpward(s, w);
    assert n > 0;
    var rest := Upward(s')[..n - 1];
    assert Upward(s)[..n] == [Submit(m)] + rest;
    assert forall i :: 0 <= i < n - 1 ==> Upward(s')[i] == Upward(s)[i + 1];
    LoadAhead(m, rest);
    if m.transfer.Heartbeat? {
      p', k' := p, k;
      assert Load(Upward(s)[..n]) == Load(rest);
    } else if CanTake(p, [m] + Load(rest)) {
      p', k' := ProspectOf(s'.far.s), 0;
      WithinAtFirst(s'.far.s);
    } else {
      p', k' := WithinConsumed(s.far.s, m, w, p, k, Load(rest));
    }
  }

  lemma DialingRequest(f: ProxySide.State, m: Message, w: ProxySide.WriteOutcome, port: u16)
    requires Dialing(f.dials, port) == [] && !Asks(Submit(m), port)
    ensures Dialing(ProxySide.OnRequest(f, m, w).dials, port) == []
  {
    if m.transfer.RequestAddr? {
      FlatMapSnoc(DialFor(port), f.dials, ProxySide.Dial(m.uuid, m.transfer.addr));
    }
  }

  lemma StuckRequest(s: System, w: ProxySide.WriteOutcome, port: u16)
    requires Possible(s, DeliverRequest(w)) && Stuck(s, port) && OnDeliverRequest(s, w).far.s.fault.NoFault?
    ensures Stuck(OnDeliverRequest(s, w), port)
  {
    var n: nat, p, k: nat :| StuckAt(s, port, n, p, k);
    var p', k' := StuckAtRequest(s, w, port, n, p, k);
    RequestUpward(s, w);
    assert !Asks(Upward(s)[0], port);
    ConsumedComing(s.far.s, s.server.writer[0], w, port);
    DialingRequest(s.far.s, s.server.writer[0], w, port);
  }

  lemma BlockedRequest(s: System, w: ProxySide.WriteOutcome, port: u16)
    requires Possible(s, DeliverRequest(w)) && Blocked(s, port)
    ensures Blocked(OnDeliverRequest(s, w), port)
  {
    ConsumedComing(s.far.s, s.server.writer[0], w, port);
    RequestUpward(s, w);
    if Coming(s.far.s, port) == [] && OnDeliverRequest(s, w).far.s.fault.NoFault? {
      StuckRequest(s, w, port);
    }
  }

  lemma StuckReply(s: System, port: u16)
    requires Possible(s, DeliverReply) && Stuck(s, port)
    ensures Stuck(OnDeliverReply(s), port)
  {
    FlushedComing(s.far.s, port);
    FlushLeaves(s);
    var n: nat, p, k: nat :| StuckAt(s, port, n, p, k);
    assert StuckAt(OnDeliverReply(s), port, n, p, k);
  }

  lemma FlushLeaves(s: System)
    requires Possible(s, DeliverReply)
    ensures var s' := OnDeliverReply(s);
      && s'.far.s == s.far.s.(outbox := s.far.s.outbox[1..])
      && Upward(s') == Upward(s) && s'.server.hbIndex == s.server.hbIndex
  {
  }

  /** While nothing is told, the next reply is not an outcome. */
  lemma BlockedReply(s: System, port: u16)
    requires Possible(s, DeliverReply) && Blocked(s, port)
    ensures var word := WordFor(port)(s.far.s.outbox[0]);
      if word == [] then Blocked(OnDeliverReply(s), port) else word[0].Halt?
  {
    FlushedComing(s.far.s, port);
    if Coming(s.far.s, port) == [] && s.far.s.fault.NoFault? {
      StuckReply(s, port);
    }
  }

  // ---- Sessions that no outcome reaches first ----

  /** Session `c` of the port is stopped before it is told an outcome it did not ask for. */
  ghost predicate Held(s: System, port: u16, c: nat) {
    && c < |s.actors| && s.actors[c].s.uuid == port && !s.actors[c].panicked
    && (s.actors[c].running && s.actors[c].phase != SocksRequests.READY ==>
          var words := Told(s.actors[c].inbox);
          if words != [] then words[0].Halt?
          else port in s.server.clients && s.server.clients[port] == c && s.status.Serving? ==> Blocked(s, port))
  }

  lemma HeldMail(s: System, k: nat, port: u16, c: nat)
    requires Possible(s, SessionMail(k)) && Held(s, port, c) && ActorOk(s.actors[c])
    ensures Held(OnSessionMail(s, k), port, c)
  {
    var s' := OnSessionMail(s, k);
    BlockedPosted(s, s', port);
    if k == c {
      UnwrapStepExactly(s, c);
    }
  }

  lemma HeldReply(s: System, port: u16, c: nat)
    requires Possible(s, DeliverReply) && Held(s, port, c)
    requires SessionLinks.Linked(s) && SessionRouting.Routed(s)
    ensures Held(OnDeliverReply(s), port, c)
  {
    var m := s.far.s.outbox[0];
    var a := s.actors[c];
    ReplyInbox(s, c);
    if a.running && a.phase != SocksRequests.READY {
      if m.uuid == port && s.server.clients[m.uuid] == c {
        TranslateWord(m);
        FlatMapSnoc(WordIn(), a.inbox, LocalServer.Translate(m.transfer).value);
      }
      if Told(a.inbox) == [] && port in s.server.clients && s.server.clients[port] == c {
        BlockedReply(s, port);
      }
    }
  }

  lemma HeldAccept(t: SocksSession.Ipv6Text, s: System, q: u16, port: u16, c: nat)
    requires Possible(s, Accept(q)) && Held(s, port, c)
    ensures Held(Next(t, s, Accept(q)), port, c)
  {
    var s' := Next(t, s, Accept(q));
    assert s'.actors[c] == s.actors[c];
    assert s'.server == s.server.(clients := s'.server.clients);
    BlockedSame(s, s', port);
  }

  lemma BlockedSame(s: System, s': System, port: u16)
    requires s'.far.s == s.far.s && s'.mailbox == s.mailbox
    requires s'.server.writer == s.server.writer && s'.server.hbIndex == s.server.hbIndex
    ensures Blocked(s, port) ==> Blocked(s', port)
  {
    if Stuck(s, port) {
      var n: nat, p, k: nat :| StuckAt(s, port, n, p, k);
      assert Upward(s') == Upward(s);
      assert StuckAt(s', port, n, p, k);
    }
  }

  lemma HeldItem(t: SocksSession.Ipv6Text, s: System, k: nat, item: SocksMessages.SocksRequest, port: u16, c: nat)
    requires Possible(s, AppItem(k, item)) && Held(s, port, c)
    ensures Held(OnAppItem(t, s, k, item), port, c)
  {
    BlockedPosted(s, OnAppItem(t, s, k, item), port);
  }

  lemma HeldServerMail(s: System, port: u16, c: nat)
    requires Possible(s, ServerMail) && Held(s, port, c)
    ensures Held(OnServerMail(s), port, c)
  {
    if OnServerMail(s).status.Serving? && Stuck(s, port) {
      StuckMail(s, port);
    }
  }

  lemma HeldStep(t: SocksSession.Ipv6Text, s: System, e: Event, port: u16, c: nat)
    requires Possible(s, e) && Held(s, port, c) && ActorOk(s.actors[c])
    requires SessionLinks.Linked(s) && SessionRouting.Routed(s)
    ensures Held(Next(t, s, e), port, c)
  {
    match e
    case Accept(q) => HeldAccept(t, s, q, port, c);
    case AppItem(k, item) => HeldItem(t, s, k, item, port, c);
    case SessionMail(k) => HeldMail(s, k, port, c);
    case ServerMail => HeldServerMail(s, port, c);
    case DeliverReply => HeldReply(s, port, c);
    case DeliverRequest(w) => HeldRequest(s, w, port, c);
    case Far(f) => HeldFar(t, s, f, port, c);
    case _ => HeldElsewhere(t, s, e, port, c);
  }

  /** Events of the timer and of other sessions. */
  lemma HeldElsewhere(t: SocksSession.Ipv6Text, s: System, e: Event, port: u16, c: nat)
    requires Possible(s, e) && Held(s, port, c) && (e.AppClosed? || e.Tick? || e.Wait?)
    ensures Held(Next(t, s, e), port, c)
  {
    BlockedPosted(s, Next(t, s, e), port);
  }

  lemma HeldRequest(s: System, w: ProxySide.WriteOutcome, port: u16, c: nat)
    requires Possible(s, DeliverRequest(w)) && Held(s, port, c)
    ensures Held(OnDeliverRequest(s, w), port, c)
  {
    if Blocked(s, port) {
      BlockedRequest(s, w, port);
    }
  }

  lemma HeldFar(t: SocksSession.Ipv6Text, s: System, f: ProxySide.Event, port: u16, c: nat)
    requires Possible(s, Far(f)) && Held(s, port, c)
    ensures Held(Next(t, s, Far(f)), port, c)
  {
    if Blocked(s, port) {
      BlockedFar(t, s, f, port);
    }
  }

  lemma HeldNext(t: SocksSession.Ipv6Text, es: seq<Event>, e: Event, port: u16, c: nat)
    requires Held(Exec(t, es), port, c)
    ensures Held(Next(t, Exec(t, es), e), port, c)
  {
    RunsAreSound(t, es, port, 0);
    if Possible(Exec(t, es), e) {
      HeldStep(t, Exec(t, es), e, port, c);
    }
  }

  /** If a port is blocked when it is accepted, the new session is stopped or ready before it is told
      any outcome, whatever happens. */
  lemma {:induction false} BlockedNeverPanics(t: SocksSession.Ipv6Text, es: seq<Event>, port: u16, more: seq<Event>)
    requires Possible(Exec(t, es), Accept(port)) && Blocked(Exec(t, es), port)
    ensures Held(Exec(t, es + [Accept(port)] + more), port, |Exec(t, es).actors|)
    ensures !PanicsAfter(t, es + [Accept(port)] + more, |Exec(t, es).actors|)
  {
    var all := es + [Accept(port)] + more;
    var front, e := all[..|all| - 1], all[|all| - 1];
    if more == [] {
      assert front == es && e == Accept(port);
      BlockedSame(Exec(t, es), Next(t, Exec(t, es), Accept(port)), port);
    } else {
      assert front == es + [Accept(port)] + more[..|more| - 1] && e == more[|more| - 1];
      BlockedNeverPanics(t, es, port, more[..|more| - 1]);
      HeldNext(t, front, e, port, |Exec(t, es).actors|);
    }
  }

  // ---- Without the condition there is no panic ----

  lemma {:induction false} NoWordsNoOutcomes(q: seq<Message>, u: u16)
    requires FlatMap(WordFor(u), q) == []
    ensures Outcomes(q, u) == []
  {
    if q != [] {
      NoWordsNoOutcomes(q[1..], u);
    }
  }

  lemma {:induction false} NoMailNoOutcomes(q: seq<ProxySide.Mail>, u: u16)
    requires FlatMap(MailWordFor(u), q) == []
    ensures WaitingOutcomes(q, u) == []
  {
    if q != [] {
      assert MailWordFor(u)(q[0]) == WordFor(u)(q[0].Reply());
      assert MailOutcomeFor(u)(q[0]) == OutcomeFor(u)(q[0].Reply());
      NoMailNoOutcomes(q[1..], u);
    }
  }

  lemma {:induction false} NoAsksNoRequests(q: seq<Mail>, u: u16)
    requires forall i :: 0 <= i < |q| ==> !Asks(q[i], u)
    ensures FlatMap(SessionLinks.Via(RequestFor(u)), q) == []
  {
    if q != [] {
      assert forall i :: 0 <= i < |q[1..]| ==> q[1..][i] == q[i + 1];
      NoAsksNoRequests(q[1..], u);
    }
  }

  lemma {:induction false} NoneWritten(q: seq<Message>, u: u16)
    requires forall i :: 0 <= i < |q| ==> !Asks(Submit(q[i]), u)
    ensures Requests(q, u) == []
  {
    if q != [] {
      assert forall i :: 0 <= i < |q[1..]| ==> q[1..][i] == q[i + 1];
      NoneWritten(q[1..], u);
    }
  }

  lemma NoneGoingUp(s: System, port: u16)
    requires forall i :: 0 <= i < |Upward(s)| ==> !Asks(Upward(s)[i], port)
    ensures FlatMap(SessionLinks.Via(RequestFor(port)), s.mailbox) == [] && Requests(s.server.writer, port) == []
  {
    assert forall i :: 0 <= i < |s.mailbox| ==> s.mailbox[i] == Upward(s)[|s.server.writer| + i];
    assert forall i :: 0 <= i < |s.server.writer| ==> Submit(s.server.writer[i]) == Upward(s)[i];
    NoAsksNoRequests(s.mailbox, port);
    NoneWritten(s.server.writer, port);
  }

  lemma NoneComingDown(f: ProxySide.State, port: u16)
    requires Coming(f, port) == [] && f.fault.NoFault?
    ensures WaitingOutcomes(f.mailbox, port) == [] && Outcomes(f.outbox, port) == []
  {
    NoWordsNoOutcomes(f.outbox, port);
    NoMailNoOutcomes(f.mailbox, port);
  }

  /** If nothing is dialled, coming or going up for the port, every request of it has been answered. */
  lemma NothingUnanswered(s: System, port: u16)
    requires SessionLinks.Linked(s) && Counted(s, port)
    requires Coming(s.far.s, port) == [] && s.far.s.fault.NoFault? && Dialing(s.far.s.dials, port) == []
    requires forall i :: 0 <= i < |Upward(s)| ==> !Asks(Upward(s)[i], port)
    ensures Answered(s, port)
  {
    NoneComingDown(s.far.s, port);
    NoneGoingUp(s, port);
    RequestsSomewhere(s, port);
  }

  lemma NotPassingBlocks(s: System, port: u16)
    requires !CanPanic(s, port) && !WayIsFree(s, ProspectOf(s.far.s), FirstAsk(Upward(s), port))
    ensures Blocked(s, port)
  {
    var n := FirstAsk(Upward(s), port);
    if Coming(s.far.s, port) == [] && s.far.s.fault.NoFault? {
      WithinAtFirst(s.far.s);
      assert StuckAt(s, port, n, ProspectOf(s.far.s), 0);
    }
  }

  lemma {:induction false} NoPanicOtherwise(t: SocksSession.Ipv6Text, es: seq<Event>, port: u16, more: seq<Event>)
    requires Possible(Exec(t, es), Accept(port)) && !CanPanic(Exec(t, es), port)
    ensures !PanicsAfter(t, es + [Accept(port)] + more, |Exec(t, es).actors|)
  {
    var s := Exec(t, es);
    if Coming(s.far.s, port) != [] || !s.far.s.fault.NoFault?
       || !WayIsFree(s, ProspectOf(s.far.s), FirstAsk(Upward(s), port)) {
      if Coming(s.far.s, port) == [] && s.far.s.fault.NoFault? {
        NotPassingBlocks(s, port);
      }
      BlockedNeverPanics(t, es, port, more);
    } else {
      RunsAreSound(t, es, port, 0);
      NothingUnanswered(s, port);
      NewSessionSafe(t, es, port, more);
    }
  }
}
