/** When a new session of a port can be told an outcome it did not ask for: a condition on the state in
    which it is accepted, and how steps change what the condition speaks of. */
module PanicCondition {
  import opened Bytes
  import opened Messages
  import opened Sequences
  import opened Session
  import LocalServer
  import ProxySide
  import opened ProxyRuns
  import opened SessionReuse

  // ---- What is on its way down to the sessions of a port ----

  /** What can panic a session, and what stops it before that. */
  datatype Word = Outcome | Halt

  function WordFor(u: u16): Message -> seq<Word> {
    (m: Message) =>
      if m.uuid == u && m.transfer.Response? then [if m.transfer.kind == Abort then Halt else Outcome] else []
  }

  function MailWordFor(u: u16): ProxySide.Mail -> seq<Word> {
    (mail: ProxySide.Mail) => WordFor(u)(mail.Reply())
  }

  function WordIn(): ConnectorResponse -> seq<Word> {
    (msg: ConnectorResponse) =>
      match msg
      case Success => [Outcome]
      case Failed => [Outcome]
      case Received(_) => []
      case Aborted => [Halt]
  }

  function Told(inbox: seq<ConnectorResponse>): seq<Word> {
    FlatMap(WordIn(), inbox)
  }

  /** On the link, then in the far end's mailbox, which a panicked far end does not handle any more. */
  function Coming(f: ProxySide.State, port: u16): seq<Word> {
    FlatMap(WordFor(port), f.outbox) + if f.fault.NoFault? then FlatMap(MailWordFor(port), f.mailbox) else []
  }

  // ---- What is on its way up ----

  /** On the link, then in the local server's mailbox. */
  function Upward(s: System): seq<Mail> {
    seq(|s.server.writer|, i requires 0 <= i < |s.server.writer| => Submit(s.server.writer[i])) + s.mailbox
  }

  predicate Asks(mail: Mail, port: u16) {
    mail.Submit? && mail.m.uuid == port && mail.m.transfer.RequestAddr?
  }

  /** The place of the first request of the port, or the end. */
  function FirstAsk(q: seq<Mail>, port: u16): (n: nat)
    ensures n <= |q| && (n < |q| ==> Asks(q[n], port))
    ensures forall i :: 0 <= i < n ==> !Asks(q[i], port)
  {
    if q == [] || Asks(q[0], port) then 0 else 1 + FirstAsk(q[1..], port)
  }

  function LoadIn(): Mail -> seq<Message> {
    (mail: Mail) => if mail.Submit? && !mail.m.transfer.Heartbeat? then [mail.m] else []
  }

  /** The messages that are no heartbeats. */
  function Load(q: seq<Mail>): seq<Message> {
    FlatMap(LoadIn(), q)
  }

  function BeatOf(): Mail -> seq<Mail> {
    (mail: Mail) => if mail.Beat? then [mail] else []
  }

  /** How many heartbeats are still to be numbered. */
  function BeatsWaiting(q: seq<Mail>): nat {
    |FlatMap(BeatOf(), q)|
  }

  // ---- Whether the far end can take it ----

  /** What the far end can still connect: its table, its mailbox, and the uuids being dialled. */
  datatype Prospect = Prospect(connected: set<u16>, mail: seq<ProxySide.Mail>, dialing: set<u16>)

  function ProspectOf(f: ProxySide.State): Prospect {
    Prospect(f.connections.Keys, f.mailbox, set d | d in f.dials :: d.uuid)
  }

  function Handled(connected: set<u16>, mail: ProxySide.Mail): set<u16> {
    match mail
    case Answer(_) => connected
    case Established(u, _) => connected + {u}
    case Dead(u) => connected - {u}
  }

  function Handle(p: Prospect): Prospect
    requires p.mail != []
  {
    p.(connected := Handled(p.connected, p.mail[0]), mail := p.mail[1..])
  }

  /** Handles as little mail as possible until the uuid is connected, then completes a dial of it. */
  function Settle(p: Prospect, u: u16): Option<Prospect>
    decreases |p.mail|
  {
    if u in p.connected then Some(p)
    else if p.mail != [] then Settle(Handle(p), u)
    else if u in p.dialing then Some(p.(connected := p.connected + {u}))
    else None
  }

  /** The far end can take these messages without a panic, if every write and the right dials succeed. */
  predicate CanTake(p: Prospect, q: seq<Message>)
    decreases |q|
  {
    q == [] ||
    match q[0].transfer
    case RequestAddr(_) => CanTake(p.(dialing := p.dialing + {q[0].uuid}), q[1..])
    case Data(_) =>
      (match Settle(p, q[0].uuid)
       case Some(p') => CanTake(p', q[1..])
       case None => false)
    case _ => false
  }

  /** What is on its way up ahead of the next request of a port can be taken. */
  predicate WayIsFree(s: System, p: Prospect, n: nat)
    requires n <= |Upward(s)|
  {
    && s.server.hbIndex as int + BeatsWaiting(Upward(s)[..n]) <= 0xFFFF_FFFF
    && CanTake(p, Load(Upward(s)[..n]))
  }

  /** A request of the port is on its way up, or an older session can still send one, and it can reach
      the far end. */
  predicate RequestCanPass(s: System, port: u16) {
    var n := FirstAsk(Upward(s), port);
    && (n < |Upward(s)| || !Settled(s, port, |s.actors|))
    && WayIsFree(s, ProspectOf(s.far.s), n)
  }

  /** The first thing to reach a new session of the port can be an outcome. */
  predicate CanPanic(s: System, port: u16) {
    var words := Coming(s.far.s, port);
    if words != [] then words[0].Outcome?
    else s.far.s.fault.NoFault? && (Dialing(s.far.s.dials, port) != [] || RequestCanPass(s, port))
  }

  // ---- How steps change what is coming ----

  lemma PostedComing(f: ProxySide.State, mail: ProxySide.Mail, port: u16)
    requires f.fault.NoFault?
    ensures Coming(f.(mailbox := f.mailbox + [mail]), port) == Coming(f, port) + WordFor(port)(mail.Reply())
  {
    FlatMapSnoc(MailWordFor(port), f.mailbox, mail);
  }

  lemma HandledMoves(f: ProxySide.State)
    requires f.mailbox != []
    ensures var f' := ProxySide.OnMail(f);
      && f'.outbox == f.outbox + [f.mailbox[0].Reply()] && f'.mailbox == f.mailbox[1..] && f'.fault == f.fault
  {
  }

  lemma HandledComing(f: ProxySide.State, port: u16)
    requires f.fault.NoFault? && f.mailbox != []
    ensures Coming(ProxySide.OnMail(f), port) == Coming(f, port)
  {
    var mail := f.mailbox[0];
    HandledMoves(f);
    FlatMapSnoc(WordFor(port), f.outbox, mail.Reply());
    assert MailWordFor(port)(mail) == WordFor(port)(mail.Reply());
    assert FlatMap(MailWordFor(port), f.mailbox)
      == WordFor(port)(mail.Reply()) + FlatMap(MailWordFor(port), f.mailbox[1..]);
  }

  lemma ConsumedComing(f: ProxySide.State, m: Message, w: ProxySide.WriteOutcome, port: u16)
    requires f.fault.NoFault?
    ensures var f' := ProxySide.OnRequest(f, m, w);
      if f'.fault.NoFault? then Coming(f', port) == Coming(f, port) else Coming(f', port) <= Coming(f, port)
  {
    RequestEchoes(f, m, w);
    if m.transfer.Heartbeat? {
      FlatMapSnoc(WordFor(port), f.outbox, New(m.uuid, m.transfer));
    }
  }

  lemma RequestEchoes(f: ProxySide.State, m: Message, w: ProxySide.WriteOutcome)
    ensures var f' := ProxySide.OnRequest(f, m, w);
      && f'.mailbox == f.mailbox
      && f'.outbox == if m.transfer.Heartbeat? then f.outbox + [New(m.uuid, m.transfer)] else f.outbox
  {
  }

  lemma FlushedComing(f: ProxySide.State, port: u16)
    requires f.outbox != []
    ensures Coming(f, port) == WordFor(port)(f.outbox[0]) + Coming(f.(outbox := f.outbox[1..]), port)
  {
  }

  /** What an event of the far end posts to the sessions of a port. */
  function NewWords(f: ProxySide.State, e: ProxySide.Event, port: u16): seq<Word>
    requires ProxySide.Possible(f, e)
  {
    match e
    case DialDone(i, _) => if f.dials[i].uuid == port then [Outcome] else []
    case ReadError(k) => if f.readers[k].uuid == port then [Halt] else []
    case _ => []
  }

  lemma FarComing(f: ProxySide.State, e: ProxySide.Event, port: u16)
    requires ProxySide.Possible(f, e) && !e.Consume? && !e.Flush?
    ensures var f' := ProxySide.Step(f, e);
      f'.fault.NoFault? && Coming(f', port) == Coming(f, port) + NewWords(f, e, port)
  {
    match e
    case DialDone(i, outcome) =>
      var u := f.dials[i].uuid;
      PostedComing(f, match outcome
                      case Connected => ProxySide.Established(u, f.nextSocket)
                      case TimedOut => ProxySide.Answer(New(u, Response(Timeout)))
                      case Failed => ProxySide.Answer(New(u, Response(ConnectionRefused))), port);
    case ReadBytes(k, data) => PostedComing(f, ProxySide.Answer(New(f.readers[k].uuid, Data(data))), port);
    case ReadError(k) => PostedComing(f, ProxySide.Dead(f.readers[k].uuid), port);
    case HandleNext => HandledComing(f, port);
    case ReadEnd(_) => assert Coming(f, port) + [] == Coming(f, port);
  }

  /** A reply forwarded to a session is the word it was on the link. */
  lemma TranslateWord(m: Message)
    requires LocalServer.Translate(m.transfer).Some?
    ensures WordIn()(LocalServer.Translate(m.transfer).value) == WordFor(m.uuid)(m)
  {
  }

  // ---- How steps change what is on its way up ----

  lemma {:induction false} NotDialing(dials: seq<ProxySide.Dial>, u: u16, i: nat)
    requires Dialing(dials, u) == [] && i < |dials|
    ensures dials[i].uuid != u
  {
    FlatMapRemoveAt(DialFor(u), dials, i);
  }

  /** Numbering a heartbeat changes neither the load nor how many there will be. */
  lemma BeatNumbered(a: seq<Mail>, m: Message, b: seq<Mail>)
    requires m.transfer.Heartbeat?
    ensures Load(a + [Submit(m)] + b) == Load(a + [Beat] + b)
    ensures BeatsWaiting(a + [Submit(m)] + b) + 1 == BeatsWaiting(a + [Beat] + b)
  {
    FlatMapConcat(LoadIn(), a + [Submit(m)], b);
    FlatMapConcat(LoadIn(), a + [Beat], b);
    FlatMapSnoc(LoadIn(), a, Submit(m));
    FlatMapSnoc(LoadIn(), a, Beat);
    FlatMapConcat(BeatOf(), a + [Submit(m)], b);
    FlatMapConcat(BeatOf(), a + [Beat], b);
    FlatMapSnoc(BeatOf(), a, Submit(m));
    FlatMapSnoc(BeatOf(), a, Beat);
  }

  lemma {:induction false} NoBeats(q: seq<Mail>)
    requires forall i :: 0 <= i < |q| ==> q[i].Submit?
    ensures BeatsWaiting(q) == 0
  {
    if q != [] {
      NoBeats(q[1..]);
    }
  }

  /** What handling a message does to what is on its way up: nothing, or a heartbeat is numbered. */
  lemma MailUpward(s: System)
    requires Possible(s, ServerMail)
    ensures var s', q, i := OnServerMail(s), Upward(s), |s.server.writer|;
      && s'.far == s.far
      && (q[i].Submit? ==> s'.server.hbIndex == s.server.hbIndex && Upward(s') == q && s'.status == s.status)
      && (q[i].Beat? && s.server.hbIndex < 0xFFFF_FFFF ==>
            && s'.server.hbIndex == s.server.hbIndex + 1 && s'.status == s.status
            && Upward(s') == q[i := Submit(New(0, Heartbeat(s.server.hbIndex + 1)))])
      && (q[i].Beat? && s.server.hbIndex == 0xFFFF_FFFF ==> s'.status.Overflowed?)
  {
    assert Upward(s)[|s.server.writer|] == s.mailbox[0];
    if s.mailbox[0].Submit? {
      SubmitUpward(s);
    } else if s.server.hbIndex < 0xFFFF_FFFF {
      BeatUpward(s);
    }
  }

  lemma SubmitUpward(s: System)
    requires Possible(s, ServerMail) && s.mailbox[0].Submit?
    ensures Upward(OnServerMail(s)) == Upward(s)
  {
    assert OnServerMail(s).server.writer == s.server.writer + [s.mailbox[0].m];
    assert OnServerMail(s).mailbox == s.mailbox[1..];
  }

  lemma BeatUpward(s: System)
    requires Possible(s, ServerMail) && s.mailbox[0].Beat? && s.server.hbIndex < 0xFFFF_FFFF
    ensures Upward(OnServerMail(s))
      == Upward(s)[|s.server.writer| := Submit(New(0, Heartbeat(s.server.hbIndex + 1)))]
  {
    assert OnServerMail(s).server.writer == s.server.writer + [New(0, Heartbeat(s.server.hbIndex + 1))];
    assert OnServerMail(s).mailbox == s.mailbox[1..];
  }

  /** Whether the way is free does not depend on whether a heartbeat on it has been numbered. */
  lemma WayAfterMail(s: System, p: Prospect, n: nat)
    requires Possible(s, ServerMail) && n <= |Upward(s)| && OnServerMail(s).status.Serving?
    ensures n <= |Upward(OnServerMail(s))|
    ensures s.mailbox[0].Submit? || n > |s.server.writer| ==>
      (WayIsFree(OnServerMail(s), p, n) <==> WayIsFree(s, p, n))
    ensures n <= |s.server.writer| ==>
      Upward(OnServerMail(s))[..n] == Upward(s)[..n] && BeatsWaiting(Upward(s)[..n]) == 0
  {
    var s', q, i := OnServerMail(s), Upward(s), |s.server.writer|;
    MailUpward(s);
    if n <= i {
      NoBeats(q[..n]);
    } else if q[i].Beat? {
      var m := New(0, Heartbeat(s.server.hbIndex + 1));
      assert q[..n] == q[..i] + [Beat] + q[i + 1..n];
      assert Upward(s')[..n] == q[..i] + [Submit(m)] + q[i + 1..n];
      BeatNumbered(q[..i], m, q[i + 1..n]);
    }
  }

  lemma RequestUpward(s: System, w: ProxySide.WriteOutcome)
    requires Possible(s, DeliverRequest(w))
    ensures var s' := OnDeliverRequest(s, w);
      && Upward(s) == [Submit(s.server.writer[0])] + Upward(s')
      && s'.far.s == ProxySide.OnRequest(s.far.s, s.server.writer[0], w) && s'.server.hbIndex == s.server.hbIndex
  {
  }

  lemma LoadAhead(m: Message, q: seq<Mail>)
    ensures Load([Submit(m)] + q) == (if m.transfer.Heartbeat? then [] else [m]) + Load(q)
    ensures BeatsWaiting([Submit(m)] + q) == BeatsWaiting(q)
  {
    FlatMapConcat(LoadIn(), [Submit(m)], q);
    FlatMapConcat(BeatOf(), [Submit(m)], q);
    FlatMapSnoc(LoadIn(), [], Submit(m));
    FlatMapSnoc(BeatOf(), [], Submit(m));
  }

  /** The table after handling some mail. */
  function AfterMail(connected: set<u16>, mail: seq<ProxySide.Mail>): set<u16>
    decreases |mail|
  {
    if mail == [] then connected else AfterMail(Handled(connected, mail[0]), mail[1..])
  }

  lemma {:induction false} AfterMailSnoc(connected: set<u16>, mail: seq<ProxySide.Mail>, last: ProxySide.Mail)
    ensures AfterMail(connected, mail + [last]) == Handled(AfterMail(connected, mail), last)
    decreases |mail|
  {
    if mail == [] {
      assert AfterMail(Handled(connected, last), []) == Handled(connected, last);
    } else {
      AfterMailSnoc(Handled(connected, mail[0]), mail[1..], last);
      assert (mail + [last])[1..] == mail[1..] + [last];
    }
  }
}
