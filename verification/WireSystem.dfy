/** The system over bytes: both pipes of the link carry sealed frames, cut and delivered in pieces of
    any size. Every run of it is, message by message, a run of the system over queues. */
module WireSystem {
  import opened Bytes
  import opened Messages
  import opened Session
  import Aead
  import FrameStream
  import SocksSession
  import ProxySide

  /** The local state, whose own queues to the link are empty, and the two byte pipes. */
  datatype Wired = Wired(s: System, up: FrameStream.Pipe, down: FrameStream.Pipe)

  /** `random` is what the encoder draws if the step sends a message. A poll decodes at most one frame
      and hands its message to the actor. */
  datatype Event =
    | Local(e: Session.Event, random: seq<byte>)
    | CarryUp(n: nat)
    | CarryDown(n: nat)
    | PollUp(w: ProxySide.WriteOutcome, random: seq<byte>)
    | PollDown

  const START := Wired(INIT, FrameStream.EMPTY, FrameStream.EMPTY)

  /** A state with other queues to the link. */
  function WithQueues(s: System, writer: seq<Message>, outbox: seq<Message>): System {
    s.(server := s.server.(writer := writer), far := s.far.(s := s.far.s.(outbox := outbox)))
  }

  /** A step sends at most one message. */
  predicate AllSendable(c: Aead.Cipher, q: seq<Message>, random: seq<byte>) {
    q == [] || (|q| == 1 && FrameStream.Sendable(c, FrameStream.Sent(q[0], random)))
  }

  function SendAll(c: Aead.Cipher, p: FrameStream.Pipe, q: seq<Message>, random: seq<byte>): FrameStream.Pipe
    requires c.Lawful() && AllSendable(c, q, random)
  {
    if q == [] then p else FrameStream.Next(c, p, FrameStream.Send(FrameStream.Sent(q[0], random)))
  }

  /** After an actor has run: its messages are encoded onto the pipes. A message the encoder cannot
      send would end the link, so such a step does not happen here. */
  function Sent(c: Aead.Cipher, w: Wired, s: System, random: seq<byte>): Wired
    requires c.Lawful()
  {
    if AllSendable(c, s.server.writer, random) && AllSendable(c, s.far.s.outbox, random) then
      Wired(WithQueues(s, [], []),
            SendAll(c, w.up, s.server.writer, random),
            SendAll(c, w.down, s.far.s.outbox, random))
    else w
  }

  /** The message the decoder at the end of a pipe yields now, if any. */
  function Arrived(c: Aead.Cipher, p: FrameStream.Pipe): Option<Message>
    requires c.Lawful()
  {
    var p' := FrameStream.Next(c, p, FrameStream.Poll);
    if |p'.received| > |p.received| then Some(p'.received[|p.received|]) else None
  }

  function Next(c: Aead.Cipher, t: SocksSession.Ipv6Text, w: Wired, e: Event): Wired
    requires c.Lawful()
  {
    match e
    case Local(e, random) =>
      if !e.DeliverRequest? && !e.DeliverReply? && Possible(w.s, e)
      then Sent(c, w, Step(t, w.s, e), random) else w
    case CarryUp(n) => w.(up := FrameStream.Next(c, w.up, FrameStream.Carry(n)))
    case CarryDown(n) => w.(down := FrameStream.Next(c, w.down, FrameStream.Carry(n)))
    case PollUp(o, random) => OnPollUp(c, w, o, random)
    case PollDown => OnPollDown(c, w)
  }

  function OnPollUp(c: Aead.Cipher, w: Wired, o: ProxySide.WriteOutcome, random: seq<byte>): Wired
    requires c.Lawful()
  {
    match Arrived(c, w.up)
    case Some(m) =>
      var s := WithQueues(w.s, [m], []);
      if Possible(s, DeliverRequest(o)) && AllSendable(c, OnDeliverRequest(s, o).far.s.outbox, random)
      then Sent(c, w.(up := FrameStream.Next(c, w.up, FrameStream.Poll)), OnDeliverRequest(s, o), random)
      else w
    case None => w
  }

  function OnPollDown(c: Aead.Cipher, w: Wired): Wired
    requires c.Lawful()
  {
    match Arrived(c, w.down)
    case Some(m) =>
      var s := WithQueues(w.s, [], [m]);
      if Possible(s, DeliverReply)
      then w.(s := OnDeliverReply(s), down := FrameStream.Next(c, w.down, FrameStream.Poll))
      else w
    case None => w
  }

  function Exec(c: Aead.Cipher, t: SocksSession.Ipv6Text, es: seq<Event>): Wired
    requires c.Lawful()
  {
    if es == [] then START else Next(c, t, Exec(c, t, es[..|es| - 1]), es[|es| - 1])
  }

  // ---- The queues behind the bytes ----

  function MessagesOf(q: seq<FrameStream.Sent>): seq<Message> {
    seq(|q|, i requires 0 <= i < |q| => q[i].m)
  }

  /** The messages on their way through a pipe. */
  function Queue(p: FrameStream.Pipe): seq<Message>
    requires |p.received| <= |p.sent|
  {
    MessagesOf(FrameStream.Undelivered(p))
  }

  predicate Consistent(c: Aead.Cipher, w: Wired) {
    && FrameStream.IsQueue(c, w.up) && FrameStream.IsQueue(c, w.down)
    && w.s.server.writer == [] && w.s.far.s.outbox == []
  }

  /** The state over queues that a state over bytes stands for. */
  function Abstract(c: Aead.Cipher, w: Wired): System
    requires Consistent(c, w)
  {
    WithQueues(w.s, Queue(w.up), Queue(w.down))
  }

  lemma SendAllEnqueues(c: Aead.Cipher, p: FrameStream.Pipe, q: seq<Message>, random: seq<byte>)
    requires c.Lawful() && FrameStream.IsQueue(c, p) && AllSendable(c, q, random)
    ensures FrameStream.IsQueue(c, SendAll(c, p, q, random))
    ensures Queue(SendAll(c, p, q, random)) == Queue(p) + q
  {
    if q == [] {
      assert Queue(p) + q == Queue(p);
    } else {
      var sent := FrameStream.Sent(q[0], random);
      FrameStream.SendEnqueues(c, p, sent);
      var undelivered := FrameStream.Undelivered(p);
      assert MessagesOf(undelivered + [sent]) == MessagesOf(undelivered) + [sent.m];
    }
  }

  lemma CarryKeepsQueue(c: Aead.Cipher, p: FrameStream.Pipe, n: nat)
    requires c.Lawful() && FrameStream.IsQueue(c, p)
    ensures var p' := FrameStream.Next(c, p, FrameStream.Carry(n));
      FrameStream.IsQueue(c, p') && Queue(p') == Queue(p)
  {
    FrameStream.StepIsQueueStep(c, p, FrameStream.Carry(n));
  }

  lemma HeadOfMessages(q: seq<FrameStream.Sent>)
    ensures q != [] ==> MessagesOf(q) == [q[0].m] + MessagesOf(q[1..])
  {
  }

  /** What arrives is the head of the queue. */
  lemma ArrivedIsHead(c: Aead.Cipher, p: FrameStream.Pipe)
    requires c.Lawful() && FrameStream.IsQueue(c, p) && Arrived(c, p).Some?
    ensures var p' := FrameStream.Next(c, p, FrameStream.Poll);
      && FrameStream.IsQueue(c, p')
      && Queue(p) == [Arrived(c, p).value] + Queue(p')
  {
    FrameStream.StepIsQueueStep(c, p, FrameStream.Poll);
    HeadOfMessages(FrameStream.Undelivered(p));
  }

  // ---- Steps commute with what already waits in the queues ----

  lemma FarBehindQueue(r: ProxySide.Run, f: ProxySide.Event, outbox: seq<Message>)
    requires ProxySide.Possible(r.s, f) && !f.Flush? && r.s.outbox == []
    ensures var r' := ProxySide.Next(r, f);
      ProxySide.Next(r.(s := r.s.(outbox := outbox)), f) == r'.(s := r'.s.(outbox := outbox + r'.s.outbox))
  {
    var r' := ProxySide.Next(r, f);
    assert outbox + [] == outbox;
    assert f.HandleNext? || f.Consume? || r'.s.outbox == [];
  }

  lemma MailBehindQueue(s: System, writer: seq<Message>, outbox: seq<Message>)
    requires Possible(s, ServerMail) && s.server.writer == []
    ensures var s' := OnServerMail(s);
      OnServerMail(WithQueues(s, writer, outbox)) == WithQueues(s', writer + s'.server.writer, outbox)
  {
    assert writer + [] == writer;
    if s.mailbox[0].Beat? && s.server.hbIndex < 0xFFFF_FFFF {
      var beat := New(0, Heartbeat(s.server.hbIndex + 1));
      assert (writer + [beat])[|writer|..] == [beat] == ([] + [beat])[0..];
    }
  }

  lemma LocalBehindQueue(t: SocksSession.Ipv6Text, s: System, e: Session.Event,
                         writer: seq<Message>, outbox: seq<Message>)
    requires Possible(s, e) && !e.DeliverRequest? && !e.DeliverReply?
    requires s.server.writer == [] && s.far.s.outbox == []
    ensures var s' := Step(t, s, e);
      && Possible(WithQueues(s, writer, outbox), e)
      && Step(t, WithQueues(s, writer, outbox), e)
         == WithQueues(s', writer + s'.server.writer, outbox + s'.far.s.outbox)
  {
    assert writer + [] == writer && outbox + [] == outbox;
    match e
    case Far(f) => FarBehindQueue(s.far, f, outbox);
    case ServerMail => MailBehindQueue(s, writer, outbox);
    case _ =>
  }

  lemma RequestBehindQueue(t: SocksSession.Ipv6Text, s: System, w: ProxySide.WriteOutcome, m: Message,
                           writer: seq<Message>, outbox: seq<Message>)
    requires s.far.s.fault.NoFault? && s.server.writer == [] && s.far.s.outbox == []
    ensures var s' := OnDeliverRequest(WithQueues(s, [m], []), w);
      && s'.server.writer == []
      && Session.Next(t, WithQueues(s, [m] + writer, outbox), DeliverRequest(w))
         == WithQueues(s', writer, outbox + s'.far.s.outbox)
  {
    assert s.far.s.(outbox := []) == s.far.s;
    FarBehindQueue(s.far, ProxySide.Consume(m, w), outbox);
  }

  lemma ReplyBehindQueue(t: SocksSession.Ipv6Text, s: System, m: Message,
                         writer: seq<Message>, outbox: seq<Message>)
    requires s.status.Serving? && s.server.writer == [] && s.far.s.outbox == []
    ensures var s' := OnDeliverReply(WithQueues(s, [], [m]));
      && s'.server.writer == [] && s'.far.s.outbox == []
      && Session.Next(t, WithQueues(s, writer, [m] + outbox), DeliverReply) == WithQueues(s', writer, outbox)
  {
  }

  // ---- Refinement ----

  /** The event over queues that an event over bytes amounts to; none if it changes no queue. */
  function Meaning(c: Aead.Cipher, t: SocksSession.Ipv6Text, w: Wired, e: Event): Option<Session.Event>
    requires c.Lawful()
  {
    if Next(c, t, w, e) == w then None
    else
      match e
      case Local(e, _) => Some(e)
      case CarryUp(_) => None
      case CarryDown(_) => None
      case PollUp(o, _) => Some(DeliverRequest(o))
      case PollDown => Some(DeliverReply)
  }

  /** A step over bytes is the step it means, or none. */
  predicate Refines(c: Aead.Cipher, t: SocksSession.Ipv6Text, w: Wired, e: Event)
    requires c.Lawful() && Consistent(c, w)
  {
    var w' := Next(c, t, w, e);
    && Consistent(c, w')
    && Abstract(c, w') == match Meaning(c, t, w, e)
                          case Some(e) => Session.Next(t, Abstract(c, w), e)
                          case None => Abstract(c, w)
  }

  lemma SentEnqueues(c: Aead.Cipher, w: Wired, s: System, random: seq<byte>)
    requires c.Lawful() && FrameStream.IsQueue(c, w.up) && FrameStream.IsQueue(c, w.down)
    requires AllSendable(c, s.server.writer, random) && AllSendable(c, s.far.s.outbox, random)
    ensures var w' := Sent(c, w, s, random);
      && Consistent(c, w')
      && Abstract(c, w') == WithQueues(s, Queue(w.up) + s.server.writer, Queue(w.down) + s.far.s.outbox)
  {
    SendAllEnqueues(c, w.up, s.server.writer, random);
    SendAllEnqueues(c, w.down, s.far.s.outbox, random);
  }

  lemma LocalRefines(c: Aead.Cipher, t: SocksSession.Ipv6Text, w: Wired, e: Session.Event, random: seq<byte>)
    requires c.Lawful() && Consistent(c, w) && !e.DeliverRequest? && !e.DeliverReply? && Possible(w.s, e)
    requires var s := Step(t, w.s, e);
      AllSendable(c, s.server.writer, random) && AllSendable(c, s.far.s.outbox, random)
    ensures var w' := Sent(c, w, Step(t, w.s, e), random);
      Consistent(c, w') && Abstract(c, w') == Session.Next(t, Abstract(c, w), e)
  {
    SentEnqueues(c, w, Step(t, w.s, e), random);
    LocalBehindQueue(t, w.s, e, Queue(w.up), Queue(w.down));
  }

  lemma TakenRefines(c: Aead.Cipher, t: SocksSession.Ipv6Text, w: Wired, o: ProxySide.WriteOutcome,
                     random: seq<byte>, m: Message, up: FrameStream.Pipe)
    requires c.Lawful() && Consistent(c, w) && w.s.far.s.fault.NoFault?
    requires FrameStream.IsQueue(c, up) && Queue(w.up) == [m] + Queue(up)
    requires AllSendable(c, OnDeliverRequest(WithQueues(w.s, [m], []), o).far.s.outbox, random)
    ensures var w' := Sent(c, w.(up := up), OnDeliverRequest(WithQueues(w.s, [m], []), o), random);
      Consistent(c, w') && Abstract(c, w') == Session.Next(t, Abstract(c, w), DeliverRequest(o))
  {
    var s' := OnDeliverRequest(WithQueues(w.s, [m], []), o);
    assert s'.server.writer == [];
    SentEnqueues(c, w.(up := up), s', random);
    RequestBehindQueue(t, w.s, o, m, Queue(up), Queue(w.down));
  }

  lemma RequestRefines(c: Aead.Cipher, t: SocksSession.Ipv6Text, w: Wired, o: ProxySide.WriteOutcome,
                       random: seq<byte>, m: Message)
    requires c.Lawful() && Consistent(c, w) && Arrived(c, w.up) == Some(m) && w.s.far.s.fault.NoFault?
    requires AllSendable(c, OnDeliverRequest(WithQueues(w.s, [m], []), o).far.s.outbox, random)
    ensures var w' := OnPollUp(c, w, o, random);
      Consistent(c, w') && Abstract(c, w') == Session.Next(t, Abstract(c, w), DeliverRequest(o))
  {
    RequestByName(c, w, o, random, m);
    ArrivedIsHead(c, w.up);
    TakenRefines(c, t, w, o, random, m, FrameStream.Next(c, w.up, FrameStream.Poll));
  }

  lemma ReplyRefines(c: Aead.Cipher, t: SocksSession.Ipv6Text, w: Wired, m: Message)
    requires c.Lawful() && Consistent(c, w) && Arrived(c, w.down) == Some(m) && w.s.status.Serving?
    ensures var w' := w.(s := OnDeliverReply(WithQueues(w.s, [], [m])),
                         down := FrameStream.Next(c, w.down, FrameStream.Poll));
      Consistent(c, w') && Abstract(c, w') == Session.Next(t, Abstract(c, w), DeliverReply)
  {
    ArrivedIsHead(c, w.down);
    ReplyBehindQueue(t, w.s, m, Queue(w.up), Queue(FrameStream.Next(c, w.down, FrameStream.Poll)));
  }

  lemma PollsByName(c: Aead.Cipher, t: SocksSession.Ipv6Text, w: Wired, e: Event)
    requires c.Lawful()
    ensures e.PollUp? ==> Next(c, t, w, e) == OnPollUp(c, w, e.w, e.random)
    ensures e.PollDown? ==> Next(c, t, w, e) == OnPollDown(c, w)
  {
  }

  lemma RequestByName(c: Aead.Cipher, w: Wired, o: ProxySide.WriteOutcome, random: seq<byte>, m: Message)
    requires c.Lawful() && Arrived(c, w.up) == Some(m) && w.s.far.s.fault.NoFault?
    requires AllSendable(c, OnDeliverRequest(WithQueues(w.s, [m], []), o).far.s.outbox, random)
    ensures OnPollUp(c, w, o, random)
      == Sent(c, w.(up := FrameStream.Next(c, w.up, FrameStream.Poll)),
              OnDeliverRequest(WithQueues(w.s, [m], []), o), random)
  {
  }

  lemma CarryRefines(c: Aead.Cipher, t: SocksSession.Ipv6Text, w: Wired, n: nat)
    requires c.Lawful() && Consistent(c, w)
    ensures Refines(c, t, w, CarryUp(n)) && Refines(c, t, w, CarryDown(n))
  {
    CarryKeepsQueue(c, w.up, n);
    CarryKeepsQueue(c, w.down, n);
  }

  lemma PolledUp(c: Aead.Cipher, w: Wired, o: ProxySide.WriteOutcome, random: seq<byte>) returns (m: Message)
    requires c.Lawful() && OnPollUp(c, w, o, random) != w
    ensures Arrived(c, w.up) == Some(m) && w.s.far.s.fault.NoFault?
    ensures AllSendable(c, OnDeliverRequest(WithQueues(w.s, [m], []), o).far.s.outbox, random)
  {
    m := Arrived(c, w.up).value;
  }

  lemma PollUpRefines(c: Aead.Cipher, t: SocksSession.Ipv6Text, w: Wired, o: ProxySide.WriteOutcome,
                      random: seq<byte>)
    requires c.Lawful() && Consistent(c, w)
    ensures Refines(c, t, w, PollUp(o, random))
  {
    PollsByName(c, t, w, PollUp(o, random));
    if OnPollUp(c, w, o, random) != w {
      var m := PolledUp(c, w, o, random);
      RequestRefines(c, t, w, o, random, m);
    }
  }

  lemma PollDownRefines(c: Aead.Cipher, t: SocksSession.Ipv6Text, w: Wired)
    requires c.Lawful() && Consistent(c, w)
    ensures Refines(c, t, w, PollDown)
  {
    PollsByName(c, t, w, PollDown);
    if OnPollDown(c, w) != w {
      ReplyRefines(c, t, w, Arrived(c, w.down).value);
    }
  }

  lemma StepRefines(c: Aead.Cipher, t: SocksSession.Ipv6Text, w: Wired, e: Event)
    requires c.Lawful() && Consistent(c, w)
    ensures Refines(c, t, w, e)
  {
    match e
    case Local(e, random) =>
      if Next(c, t, w, Local(e, random)) != w {
        LocalRefines(c, t, w, e, random);
      }
    case CarryUp(n) => CarryRefines(c, t, w, n);
    case CarryDown(n) => CarryRefines(c, t, w, n);
    case PollUp(o, random) => PollUpRefines(c, t, w, o, random);
    case PollDown => PollDownRefines(c, t, w);
  }

  /** The run over queues behind a run over bytes. */
  function Behind(c: Aead.Cipher, t: SocksSession.Ipv6Text, es: seq<Event>): seq<Session.Event>
    requires c.Lawful()
  {
    if es == [] then []
    else
      var front := es[..|es| - 1];
      match Meaning(c, t, Exec(c, t, front), es[|es| - 1])
      case Some(e) => Behind(c, t, front) + [e]
      case None => Behind(c, t, front)
  }

  /** Every run over encrypted, arbitrarily cut bytes is a run over queues of messages, so everything
      proved of those holds of it. */
  lemma {:induction false} BytesRefineQueues(c: Aead.Cipher, t: SocksSession.Ipv6Text, es: seq<Event>)
    requires c.Lawful()
    ensures Consistent(c, Exec(c, t, es))
    ensures Abstract(c, Exec(c, t, es)) == Session.Exec(t, Behind(c, t, es))
  {
    if es == [] {
      assert Queue(FrameStream.EMPTY) == [];
    } else {
      var front, e := es[..|es| - 1], es[|es| - 1];
      BytesRefineQueues(c, t, front);
      StepRefines(c, t, Exec(c, t, front), e);
      var meaning := Meaning(c, t, Exec(c, t, front), e);
      if meaning.Some? {
        assert Behind(c, t, es)[..|Behind(c, t, es)| - 1] == Behind(c, t, front);
      }
    }
  }

  // ---- And back ----

  const DRAWN: seq<byte> := [0, 0, 0, 0]

  /** The encoder can send every message of the two queues. */
  predicate Fits(c: Aead.Cipher, s: System) {
    && (forall m :: m in s.server.writer ==> FrameStream.Sendable(c, FrameStream.Sent(m, DRAWN)))
    && (forall m :: m in s.far.s.outbox ==> FrameStream.Sendable(c, FrameStream.Sent(m, DRAWN)))
  }

  /** Every byte sent has arrived. */
  predicate Quiet(c: Aead.Cipher, w: Wired) {
    Consistent(c, w) && w.up.wire == [] && w.down.wire == []
  }

  lemma OneMessageAtMost(t: SocksSession.Ipv6Text, s: System, e: Session.Event)
    requires Possible(s, e) && !e.DeliverRequest? && !e.DeliverReply?
    requires s.server.writer == [] && s.far.s.outbox == []
    ensures |Step(t, s, e).server.writer| <= 1 && |Step(t, s, e).far.s.outbox| <= 1
  {
  }

  lemma OneReplyAtMost(r: ProxySide.Run, m: Message, o: ProxySide.WriteOutcome)
    requires r.s.outbox == []
    ensures |ProxySide.Next(r, ProxySide.Consume(m, o)).s.outbox| <= 1
  {
  }

  function CarryAll(c: Aead.Cipher, t: SocksSession.Ipv6Text, w: Wired): Wired
    requires c.Lawful()
  {
    Next(c, t, Next(c, t, w, CarryUp(|w.up.wire|)), CarryDown(|w.down.wire|))
  }

  lemma CarryAllQuiets(c: Aead.Cipher, t: SocksSession.Ipv6Text, w: Wired)
    requires c.Lawful() && Consistent(c, w)
    ensures Quiet(c, CarryAll(c, t, w)) && Abstract(c, CarryAll(c, t, w)) == Abstract(c, w)
  {
    CarryKeepsQueue(c, w.up, |w.up.wire|);
    CarryKeepsQueue(c, w.down, |w.down.wire|);
  }

  /** Once all bytes have arrived, the head of the queue can be polled. */
  lemma HeadArrived(c: Aead.Cipher, p: FrameStream.Pipe)
    requires c.Lawful() && FrameStream.IsQueue(c, p) && p.wire == [] && Queue(p) != []
    ensures Arrived(c, p) == Some(Queue(p)[0])
  {
    var q := FrameStream.Undelivered(p);
    assert p.buffer == FrameStream.Frames(c, q);
    FrameStream.StepIsQueueStep(c, p, FrameStream.Poll);
  }

  lemma LastFits(c: Aead.Cipher, waiting: seq<Message>, q: seq<Message>)
    requires |q| <= 1
    requires forall m :: m in waiting + q ==> FrameStream.Sendable(c, FrameStream.Sent(m, DRAWN))
    ensures AllSendable(c, q, DRAWN)
  {
    if q != [] {
      assert q[0] in waiting + q;
    }
  }

  lemma LocalHappens(c: Aead.Cipher, t: SocksSession.Ipv6Text, w: Wired, e: Session.Event)
    requires c.Lawful() && Consistent(c, w) && Possible(w.s, e) && !e.DeliverRequest? && !e.DeliverReply?
    requires Fits(c, Session.Next(t, Abstract(c, w), e))
    ensures var w' := Next(c, t, w, Local(e, DRAWN));
      Consistent(c, w') && Abstract(c, w') == Session.Next(t, Abstract(c, w), e)
  {
    LocalBehindQueue(t, w.s, e, Queue(w.up), Queue(w.down));
    OneMessageAtMost(t, w.s, e);
    LastFits(c, Queue(w.up), Step(t, w.s, e).server.writer);
    LastFits(c, Queue(w.down), Step(t, w.s, e).far.s.outbox);
    LocalRefines(c, t, w, e, DRAWN);
  }

  lemma RequestFits(c: Aead.Cipher, t: SocksSession.Ipv6Text, w: Wired, o: ProxySide.WriteOutcome,
                    m: Message, rest: seq<Message>)
    requires c.Lawful() && Consistent(c, w) && Queue(w.up) == [m] + rest && w.s.far.s.fault.NoFault?
    requires Fits(c, Session.Next(t, Abstract(c, w), DeliverRequest(o)))
    ensures AllSendable(c, OnDeliverRequest(WithQueues(w.s, [m], []), o).far.s.outbox, DRAWN)
  {
    RequestBehindQueue(t, w.s, o, m, rest, Queue(w.down));
    assert WithQueues(w.s, [m], []).far == w.s.far;
    OneReplyAtMost(w.s.far, m, o);
    LastFits(c, Queue(w.down), OnDeliverRequest(WithQueues(w.s, [m], []), o).far.s.outbox);
  }

  lemma RequestHappens(c: Aead.Cipher, t: SocksSession.Ipv6Text, w: Wired, o: ProxySide.WriteOutcome)
    requires c.Lawful() && Consistent(c, w) && w.up.wire == [] && Possible(Abstract(c, w), DeliverRequest(o))
    requires Fits(c, Session.Next(t, Abstract(c, w), DeliverRequest(o)))
    ensures var w' := OnPollUp(c, w, o, DRAWN);
      Consistent(c, w') && Abstract(c, w') == Session.Next(t, Abstract(c, w), DeliverRequest(o))
  {
    HeadArrived(c, w.up);
    var m := Queue(w.up)[0];
    assert Queue(w.up) == [m] + Queue(w.up)[1..];
    RequestFits(c, t, w, o, m, Queue(w.up)[1..]);
    RequestRefines(c, t, w, o, DRAWN, m);
  }

  lemma ReplyHappens(c: Aead.Cipher, t: SocksSession.Ipv6Text, w: Wired)
    requires c.Lawful() && Consistent(c, w) && w.down.wire == [] && Possible(Abstract(c, w), DeliverReply)
    ensures var w' := OnPollDown(c, w);
      Consistent(c, w') && Abstract(c, w') == Session.Next(t, Abstract(c, w), DeliverReply)
  {
    HeadArrived(c, w.down);
    ReplyRefines(c, t, w, Queue(w.down)[0]);
  }

  /** The event over bytes that brings about an event over queues. */
  function Cause(e: Session.Event): Event {
    match e
    case DeliverRequest(o) => PollUp(o, DRAWN)
    case DeliverReply => PollDown
    case _ => Local(e, DRAWN)
  }

  lemma CauseHappens(c: Aead.Cipher, t: SocksSession.Ipv6Text, w: Wired, e: Session.Event)
    requires c.Lawful() && Quiet(c, w) && Possible(Abstract(c, w), e)
    requires Fits(c, Session.Next(t, Abstract(c, w), e))
    ensures var w' := Next(c, t, w, Cause(e));
      Consistent(c, w') && Abstract(c, w') == Session.Next(t, Abstract(c, w), e)
  {
    PollsByName(c, t, w, Cause(e));
    match e
    case DeliverRequest(o) => RequestHappens(c, t, w, o);
    case DeliverReply => ReplyHappens(c, t, w);
    case _ => LocalHappens(c, t, w, e);
  }

  /** A run over bytes that brings about a run over queues. */
  function Realised(c: Aead.Cipher, t: SocksSession.Ipv6Text, es: seq<Session.Event>): seq<Event>
    requires c.Lawful()
  {
    if es == [] then []
    else
      var front, e := es[..|es| - 1], es[|es| - 1];
      var before := Realised(c, t, front);
      if !Possible(Session.Exec(t, front), e) then before
      else
        var w := Next(c, t, Exec(c, t, before), Cause(e));
        before + [Cause(e), CarryUp(|w.up.wire|), CarryDown(|w.down.wire|)]
  }

  lemma ExecSnoc(c: Aead.Cipher, t: SocksSession.Ipv6Text, es: seq<Event>, e: Event)
    requires c.Lawful()
    ensures Exec(c, t, es + [e]) == Next(c, t, Exec(c, t, es), e)
  {
    assert (es + [e])[..|es + [e]| - 1] == es;
  }

  lemma ExecThree(c: Aead.Cipher, t: SocksSession.Ipv6Text, es: seq<Event>, e: Event, m: nat, n: nat)
    requires c.Lawful()
    ensures Exec(c, t, es + [e, CarryUp(m), CarryDown(n)])
      == Next(c, t, Next(c, t, Next(c, t, Exec(c, t, es), e), CarryUp(m)), CarryDown(n))
  {
    ExecSnoc(c, t, es, e);
    ExecSnoc(c, t, es + [e], CarryUp(m));
    ExecSnoc(c, t, es + [e] + [CarryUp(m)], CarryDown(n));
    assert es + [e, CarryUp(m), CarryDown(n)] == es + [e] + [CarryUp(m)] + [CarryDown(n)];
  }

  /** Conversely, every run over queues whose messages the encoder can send is brought about by a run
      over bytes. */
  lemma {:induction false} QueuesHaveBytes(c: Aead.Cipher, t: SocksSession.Ipv6Text, es: seq<Session.Event>)
    requires c.Lawful()
    requires forall k :: 0 <= k <= |es| ==> Fits(c, Session.Exec(t, es[..k]))
    ensures Quiet(c, Exec(c, t, Realised(c, t, es)))
    ensures Abstract(c, Exec(c, t, Realised(c, t, es))) == Session.Exec(t, es)
  {
    if es == [] {
      assert Queue(FrameStream.EMPTY) == [];
    } else {
      var front, e := es[..|es| - 1], es[|es| - 1];
      forall k | 0 <= k <= |front|
        ensures Fits(c, Session.Exec(t, front[..k]))
      {
        assert front[..k] == es[..k];
      }
      QueuesHaveBytes(c, t, front);
      if Possible(Session.Exec(t, front), e) {
        assert es[..|es|] == es;
        var before := Realised(c, t, front);
        CauseHappens(c, t, Exec(c, t, before), e);
        var w := Next(c, t, Exec(c, t, before), Cause(e));
        CarryAllQuiets(c, t, w);
        ExecThree(c, t, before, Cause(e), |w.up.wire|, |w.down.wire|);
      }
    }
  }
}
