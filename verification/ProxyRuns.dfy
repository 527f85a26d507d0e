/** What holds of the far end over every run, for each uuid. */
module ProxyRuns {
  import opened Bytes
  import opened Messages
  import opened Sequences
  import opened ProxySide
  import Utf8

  // ---- Projections to one uuid ----

  /** The session traffic of a uuid: everything but heartbeats. */
  function ForUuid(u: u16): Message -> seq<Transfer> {
    (m: Message) => if m.uuid == u && !m.transfer.Heartbeat? then [m.transfer] else []
  }

  function Of(q: seq<Message>, u: u16): seq<Transfer> {
    FlatMap(ForUuid(u), q)
  }

  function MailFor(u: u16): Mail -> seq<Transfer> {
    (mail: Mail) => ForUuid(u)(mail.Reply())
  }

  function Waiting(mailbox: seq<Mail>, u: u16): seq<Transfer> {
    FlatMap(MailFor(u), mailbox)
  }

  function DataFor(u: u16): Message -> seq<byte> {
    (m: Message) => if m.uuid == u && m.transfer.Data? then m.transfer.data else []
  }

  /** The data bytes a queue carries for a uuid. */
  function DataOf(q: seq<Message>, u: u16): seq<byte> {
    FlatMap(DataFor(u), q)
  }

  function MailDataFor(u: u16): Mail -> seq<byte> {
    (mail: Mail) => DataFor(u)(mail.Reply())
  }

  function WaitingData(mailbox: seq<Mail>, u: u16): seq<byte> {
    FlatMap(MailDataFor(u), mailbox)
  }

  function RequestFor(u: u16): Message -> seq<Utf8.Text> {
    (m: Message) => if m.uuid == u && m.transfer.RequestAddr? then [m.transfer.addr] else []
  }

  /** The addresses requested for a uuid. */
  function Requests(q: seq<Message>, u: u16): seq<Utf8.Text> {
    FlatMap(RequestFor(u), q)
  }

  predicate IsOutcome(t: Transfer) {
    t.Response? && t.kind != Abort
  }

  function OutcomeFor(u: u16): Message -> seq<ResponseKind> {
    (m: Message) => if m.uuid == u && IsOutcome(m.transfer) then [m.transfer.kind] else []
  }

  /** The dial outcomes reported for a uuid. */
  function Outcomes(q: seq<Message>, u: u16): seq<ResponseKind> {
    FlatMap(OutcomeFor(u), q)
  }

  function MailOutcomeFor(u: u16): Mail -> seq<ResponseKind> {
    (mail: Mail) => OutcomeFor(u)(mail.Reply())
  }

  function WaitingOutcomes(mailbox: seq<Mail>, u: u16): seq<ResponseKind> {
    FlatMap(MailOutcomeFor(u), mailbox)
  }

  function DialFor(u: u16): Dial -> seq<Dial> {
    (d: Dial) => if d.uuid == u then [d] else []
  }

  function Dialing(dials: seq<Dial>, u: u16): seq<Dial> {
    FlatMap(DialFor(u), dials)
  }

  function ReaderFor(u: u16): Connection -> seq<Connection> {
    (c: Connection) => if c.uuid == u then [c] else []
  }

  function Reading(readers: seq<Connection>, u: u16): seq<Connection> {
    FlatMap(ReaderFor(u), readers)
  }

  function GivenFor(u: u16): Connection -> seq<Socket> {
    (c: Connection) => if c.uuid == u then [c.socket] else []
  }

  /** The sockets a uuid was given, in order. */
  function Given(given: seq<Connection>, u: u16): seq<Socket> {
    FlatMap(GivenFor(u), given)
  }

  function OpFor(u: u16): TableOp -> seq<TableOp> {
    (op: TableOp) => if op.uuid == u then [op] else []
  }

  function Ops(table: seq<TableOp>, u: u16): seq<TableOp> {
    FlatMap(OpFor(u), table)
  }

  function BeatIn(): Message -> seq<u32> {
    (m: Message) => if m.transfer.Heartbeat? then [m.transfer.index] else []
  }

  function Beats(q: seq<Message>): seq<u32> {
    FlatMap(BeatIn(), q)
  }

  // ---- The replies of one dial ----

  /** Connected: success, then data. */
  predicate Open(ts: seq<Transfer>) {
    |ts| >= 1 && ts[0] == Response(Succeeded) && forall i :: 1 <= i < |ts| ==> ts[i].Data?
  }

  predicate Closed(ts: seq<Transfer>) {
    |ts| >= 2 && ts[|ts| - 1] == Response(Abort) && Open(ts[..|ts| - 1])
  }

  /** Nothing yet, a refusal, a timeout, or success, data and at most one final abort. */
  predicate Transcript(ts: seq<Transfer>) {
    ts == [] || ts == [Response(ConnectionRefused)] || ts == [Response(Timeout)] || Open(ts) || Closed(ts)
  }

  lemma TranscriptPrefix(ts: seq<Transfer>, n: nat)
    requires Transcript(ts) && n <= |ts|
    ensures Transcript(ts[..n])
  {
  }

  // ---- Invariants ----

  /** Every reply posted has been put on the link, in order, or waits in the mailbox. */
  predicate Piped(r: Run, u: u16) {
    && Of(r.log.posted, u) == Of(r.log.enqueued, u) + Waiting(r.s.mailbox, u)
    && DataOf(r.log.posted, u) == DataOf(r.log.enqueued, u) + WaitingData(r.s.mailbox, u)
    && Outcomes(r.log.posted, u) == Outcomes(r.log.enqueued, u) + WaitingOutcomes(r.s.mailbox, u)
  }

  /** Every request is still being dialled or has had its outcome. */
  predicate Accounted(r: Run, u: u16) {
    |Requests(r.log.consumed, u)| == |Dialing(r.s.dials, u)| + |Outcomes(r.log.posted, u)|
  }

  /** The replies of one dial, with the dial or reader that goes with them. */
  predicate Shape(ts: seq<Transfer>, requests: nat, dialing: nat, reading: nat) {
    && Transcript(ts)
    && dialing + (if ts == [] then 0 else 1) == requests
    && reading <= (if Open(ts) then 1 else 0)
  }

  /** A uuid that is dialled at most once. */
  predicate OneDial(r: Run, u: u16) {
    |Requests(r.log.consumed, u)| <= 1 ==>
      Shape(Of(r.log.posted, u), |Requests(r.log.consumed, u)|, |Dialing(r.s.dials, u)|, |Reading(r.s.readers, u)|)
  }

  /** The table holds a uuid exactly if its last change was an insertion, and then with the socket it was
      last given. */
  predicate TableFollows(r: Run, u: u16) {
    var ops, given := Ops(r.log.table, u), Given(r.log.given, u);
    && (u in r.s.connections <==> ops != [] && ops[|ops| - 1].Inserted?)
    && (u in r.s.connections ==> given != [] && r.s.connections[u] == given[|given| - 1])
  }

  /** A socket was opened by a dial of that uuid. */
  predicate OpenedFor(log: History, u: u16, socket: Socket) {
    socket < |log.sockets| && log.sockets[socket].uuid == u
  }

  /** An address that was requested for that uuid. */
  predicate WasRequested(log: History, d: Dial) {
    exists m :: m in log.consumed && m.uuid == d.uuid && m.transfer == RequestAddr(d.addr)
  }

  /** Sockets are numbered as they are opened; each is held only for the uuid it was opened for. */
  predicate Socketed(r: Run) {
    && |r.log.sockets| == r.s.nextSocket
    && (forall u :: u in r.s.connections ==> OpenedFor(r.log, u, r.s.connections[u]))
    && (forall i :: 0 <= i < |r.s.mailbox| && r.s.mailbox[i].Established? ==>
          OpenedFor(r.log, r.s.mailbox[i].uuid, r.s.mailbox[i].socket))
    && (forall i :: 0 <= i < |r.s.readers| ==> OpenedFor(r.log, r.s.readers[i].uuid, r.s.readers[i].socket))
    && (forall i :: 0 <= i < |r.log.written| ==> r.log.written[i].socket < |r.log.sockets|)
    && (forall i :: 0 <= i < |r.log.fetched| ==> r.log.fetched[i].socket < |r.log.sockets|)
  }

  /** Every write was a part, from the first byte, of data of the uuid its socket was opened for. */
  predicate WritesOwn(r: Run) {
    forall i :: 0 <= i < |r.log.written| ==> WroteOwn(r.log, r.log.written[i])
  }

  predicate WroteOwn(log: History, c: Chunk) {
    exists m :: m in log.consumed && m.transfer.Data? && OpenedFor(log, m.uuid, c.socket) && c.data <= m.transfer.data
  }

  /** Every dial, outstanding or completed, was requested. */
  predicate DialsRequested(r: Run) {
    && (forall i :: 0 <= i < |r.s.dials| ==> WasRequested(r.log, r.s.dials[i]))
    && (forall i :: 0 <= i < |r.log.sockets| ==> WasRequested(r.log, r.log.sockets[i]))
  }

  /** Bytes read become data replies; data requests, where written whole, become bytes written. */
  predicate BytesFollow(r: Run, u: u16) {
    && FetchedFor(r.log, u) == DataOf(r.log.posted, u)
    && (u !in r.log.torn ==> WrittenFor(r.log, u) == DataOf(r.log.consumed, u))
  }

  predicate NoEmptyData(q: seq<Message>) {
    forall m :: m in q && m.transfer.Data? ==> m.transfer.data != []
  }

  /** No more is written than was requested, and less once data was not written whole. */
  predicate TornLoses(r: Run, u: u16) {
    && |WrittenFor(r.log, u)| <= |DataOf(r.log.consumed, u)|
    && (NoEmptyData(r.log.consumed) && u in r.log.torn ==>
          |WrittenFor(r.log, u)| < |DataOf(r.log.consumed, u)|)
  }

  /** What was written before some data was not written whole is what was requested, and so is what
      was written of that data. */
  predicate TornPrefix(r: Run, u: u16) {
    u in r.log.torn ==>
      r.log.torn[u] <= |WrittenFor(r.log, u)| && WrittenFor(r.log, u)[..r.log.torn[u]] <= DataOf(r.log.consumed, u)
  }

  predicate SuccessImpliesInserted(r: Run) {
    && (forall i :: 0 <= i < |r.s.mailbox| && r.s.mailbox[i].Answer? ==>
          r.s.mailbox[i].reply.transfer != Response(Succeeded) && !r.s.mailbox[i].reply.transfer.Heartbeat?)
    && (forall m :: m in r.log.enqueued && m.transfer == Response(Succeeded) ==> Inserted(m.uuid) in r.log.table)
  }

  predicate FaultExplained(r: Run) {
    match r.s.fault
    case NoFault => true
    case UnroutedData(u) =>
      u !in r.s.connections && exists m :: m in r.log.consumed && m.uuid == u && m.transfer.Data?
    case UnexpectedResponse => exists m :: m in r.log.consumed && m.transfer.Response?
  }

  predicate Good(r: Run, u: u16) {
    && Piped(r, u) && Accounted(r, u) && OneDial(r, u) && TableFollows(r, u)
    && Socketed(r) && DialsRequested(r) && WritesOwn(r)
    && BytesFollow(r, u) && TornLoses(r, u) && TornPrefix(r, u)
    && Beats(r.log.enqueued) == Beats(r.log.consumed)
    && SuccessImpliesInserted(r) && FaultExplained(r)
  }

  /** The mail an event posts. */
  function NewMail(s: State, e: Event): seq<Mail>
    requires Possible(s, e)
  {
    if e.HandleNext? then [] else Step(s, e).mailbox[|s.mailbox|..]
  }

  lemma PostingIsMail(s: State, e: Event)
    requires Possible(s, e) && !e.HandleNext?
    ensures Step(s, e).mailbox == s.mailbox + NewMail(s, e)
    ensures |NewMail(s, e)| == |Posting(s, e)| <= 1
    ensures Posting(s, e) != [] ==> NewMail(s, e)[0].Reply() == Posting(s, e)[0]
  {
  }

  /** What an event of the dials and readers does to the queues. */
  lemma QueuesGrow(r: Run, e: Event)
    requires Possible(r.s, e) && !e.HandleNext? && !e.Consume?
    ensures var r' := Next(r, e);
      && r'.log.posted == r.log.posted + Posting(r.s, e) && r'.log.enqueued == r.log.enqueued
      && r'.s.mailbox == r.s.mailbox + NewMail(r.s, e)
  {
    PostingIsMail(r.s, e);
    assert r.log.posted + [] == r.log.posted;
  }

  /** A posted reply enters both ends of the mailbox equation. */
  lemma PostPiped<T>(posted: seq<Message>, enqueued: seq<Message>, mailbox: seq<Mail>, m: Message, mail: Mail,
                     f: Message -> seq<T>, g: Mail -> seq<T>)
    requires FlatMap(f, posted) == FlatMap(f, enqueued) + FlatMap(g, mailbox) && g(mail) == f(m)
    ensures FlatMap(f, posted + [m]) == FlatMap(f, enqueued) + FlatMap(g, mailbox + [mail])
  {
    FlatMapSnoc(f, posted, m);
    FlatMapSnoc(g, mailbox, mail);
    Associative(FlatMap(f, enqueued), FlatMap(g, mailbox), f(m));
  }

  lemma HandlePiped<T>(r: Run, f: Message -> seq<T>, g: Mail -> seq<T>)
    requires Possible(r.s, HandleNext)
    requires forall mail: Mail :: g(mail) == f(mail.Reply())
    ensures var r' := Next(r, HandleNext);
      && r'.log.posted == r.log.posted
      && FlatMap(f, r'.log.enqueued) + FlatMap(g, r'.s.mailbox) == FlatMap(f, r.log.enqueued) + FlatMap(g, r.s.mailbox)
  {
    var mail := r.s.mailbox[0];
    FlatMapSnoc(f, r.log.enqueued, mail.Reply());
    assert FlatMap(g, r.s.mailbox) == g(mail) + FlatMap(g, r.s.mailbox[1..]);
    assert Next(r, HandleNext).s.mailbox == r.s.mailbox[1..];
  }

  lemma RequestPiped<T>(r: Run, m: Message, w: WriteOutcome, f: Message -> seq<T>)
    requires Possible(r.s, Consume(m, w)) && (m.transfer.Heartbeat? ==> f(New(m.uuid, m.transfer)) == [])
    ensures var r' := Next(r, Consume(m, w));
      && r'.log.posted == r.log.posted && r'.s.mailbox == r.s.mailbox
      && FlatMap(f, r'.log.enqueued) == FlatMap(f, r.log.enqueued)
  {
    if m.transfer.Heartbeat? {
      FlatMapSnoc(f, r.log.enqueued, New(m.uuid, m.transfer));
    }
  }

  /** One mailbox queue and its projection, for any way of reading messages but heartbeats. */
  lemma PipeStep<T>(r: Run, e: Event, f: Message -> seq<T>, g: Mail -> seq<T>)
    requires Possible(r.s, e)
    requires forall mail: Mail :: g(mail) == f(mail.Reply())
    requires forall m: Message :: m.transfer.Heartbeat? ==> f(m) == []
    requires FlatMap(f, r.log.posted) == FlatMap(f, r.log.enqueued) + FlatMap(g, r.s.mailbox)
    ensures var r' := Next(r, e);
      FlatMap(f, r'.log.posted) == FlatMap(f, r'.log.enqueued) + FlatMap(g, r'.s.mailbox)
  {
    if e.HandleNext? {
      HandlePiped(r, f, g);
    } else if e.Consume? {
      RequestPiped(r, e.m, e.w, f);
    } else {
      QueuesGrow(r, e);
      PostingIsMail(r.s, e);
      var p, n := Posting(r.s, e), NewMail(r.s, e);
      if p == [] {
        assert r.log.posted + p == r.log.posted && r.s.mailbox + n == r.s.mailbox;
      } else {
        assert p == [p[0]] && n == [n[0]];
        PostPiped(r.log.posted, r.log.enqueued, r.s.mailbox, p[0], n[0], f, g);
      }
    }
  }

  lemma PipedStep(r: Run, e: Event, u: u16)
    requires Possible(r.s, e) && Piped(r, u)
    ensures Piped(Next(r, e), u)
  {
    PipeStep(r, e, ForUuid(u), MailFor(u));
    PipeStep(r, e, DataFor(u), MailDataFor(u));
    PipeStep(r, e, OutcomeFor(u), MailOutcomeFor(u));
  }

  /** How an event changes the projections the dial accounting speaks of. */
  lemma DialStep(r: Run, e: Event, u: u16)
    requires Possible(r.s, e)
    ensures var r' := Next(r, e);
      && |Requests(r'.log.consumed, u)|
         == |Requests(r.log.consumed, u)|
          + (if e.Consume? && e.m.uuid == u && e.m.transfer.RequestAddr? then 1 else 0)
      && |Dialing(r'.s.dials, u)|
         == |Dialing(r.s.dials, u)|
          + (if e.Consume? && e.m.uuid == u && e.m.transfer.RequestAddr? then 1 else 0)
          - (if e.DialDone? && r.s.dials[e.i].uuid == u then 1 else 0)
  {
    match e
    case Consume(m, _) =>
      FlatMapSnoc(RequestFor(u), r.log.consumed, m);
      if m.transfer.RequestAddr? {
        FlatMapSnoc(DialFor(u), r.s.dials, Dial(m.uuid, m.transfer.addr));
      }
    case DialDone(i, _) => FlatMapRemoveAt(DialFor(u), r.s.dials, i);
    case _ =>
  }

  lemma PostedStep(r: Run, e: Event, u: u16)
    requires Possible(r.s, e)
    ensures Of(Next(r, e).log.posted, u) == Of(r.log.posted, u) + Of(Posting(r.s, e), u)
    ensures Posting(r.s, e) == [] || Posting(r.s, e)[0].uuid != u ==> Of(Posting(r.s, e), u) == []
    ensures Posting(r.s, e) != [] && Posting(r.s, e)[0].uuid == u
      ==> Of(Posting(r.s, e), u) == [Posting(r.s, e)[0].transfer]
  {
    var p := Posting(r.s, e);
    assert Next(r, e).log.posted == r.log.posted + p;
    FlatMapConcat(ForUuid(u), r.log.posted, p);
    if p != [] {
      assert p == [] + [p[0]];
      FlatMapSnoc(ForUuid(u), [], p[0]);
    }
  }

  lemma OutcomesStep(r: Run, e: Event, u: u16)
    requires Possible(r.s, e)
    ensures |Outcomes(Next(r, e).log.posted, u)|
      == |Outcomes(r.log.posted, u)| + (if e.DialDone? && r.s.dials[e.i].uuid == u then 1 else 0)
  {
    var p := Posting(r.s, e);
    assert Next(r, e).log.posted == r.log.posted + p;
    FlatMapConcat(OutcomeFor(u), r.log.posted, p);
    if p != [] {
      assert p == [] + [p[0]];
      FlatMapSnoc(OutcomeFor(u), [], p[0]);
    }
  }

  lemma ReaderStep(r: Run, e: Event, u: u16)
    requires Possible(r.s, e)
    ensures |Reading(Next(r, e).s.readers, u)|
      == |Reading(r.s.readers, u)|
       + (if e.DialDone? && e.outcome.Connected? && r.s.dials[e.i].uuid == u then 1 else 0)
       - (if (e.ReadEnd? || e.ReadError?) && r.s.readers[e.k].uuid == u then 1 else 0)
    ensures e.ReadBytes? && r.s.readers[e.k].uuid == u ==> |Reading(r.s.readers, u)| >= 1
  {
    match e
    case DialDone(i, Connected) =>
      FlatMapSnoc(ReaderFor(u), r.s.readers, Connection(r.s.dials[i].uuid, r.s.nextSocket));
    case ReadEnd(k) => FlatMapRemoveAt(ReaderFor(u), r.s.readers, k);
    case ReadError(k) => FlatMapRemoveAt(ReaderFor(u), r.s.readers, k);
    case ReadBytes(k, _) => FlatMapRemoveAt(ReaderFor(u), r.s.readers, k);
    case _ =>
  }

  lemma AccountedStep(r: Run, e: Event, u: u16)
    requires Possible(r.s, e) && Accounted(r, u)
    ensures Accounted(Next(r, e), u)
  {
    DialStep(r, e, u);
    OutcomesStep(r, e, u);
  }

  lemma ShapeOutcome(ts: seq<Transfer>, reading: nat, kind: ResponseKind)
    requires Shape(ts, 1, 1, reading) && kind != Abort
    ensures Shape(ts + [Response(kind)], 1, 0, if kind == Succeeded then 1 else 0)
  {
  }

  lemma ShapeData(ts: seq<Transfer>, requests: nat, dialing: nat, reading: nat, data: seq<byte>)
    requires Shape(ts, requests, dialing, reading) && reading >= 1
    ensures Shape(ts + [Data(data)], requests, dialing, reading)
  {
  }

  lemma ShapeAbort(ts: seq<Transfer>, requests: nat, dialing: nat, reading: nat)
    requires Shape(ts, requests, dialing, reading) && reading >= 1
    ensures Shape(ts + [Response(Abort)], requests, dialing, reading - 1)
  {
  }

  lemma OneDialPosts(r: Run, e: Event, u: u16)
    requires Possible(r.s, e) && OneDial(r, u)
    requires Posting(r.s, e) != [] && Posting(r.s, e)[0].uuid == u
    ensures OneDial(Next(r, e), u)
  {
    DialStep(r, e, u);
    PostedStep(r, e, u);
    ReaderStep(r, e, u);
    var ts := Of(r.log.posted, u);
    var requests, dialing, reading :=
      |Requests(r.log.consumed, u)|, |Dialing(r.s.dials, u)|, |Reading(r.s.readers, u)|;
    if requests <= 1 {
      match e
      case DialDone(_, _) => ShapeOutcome(ts, reading, Posting(r.s, e)[0].transfer.kind);
      case ReadBytes(_, data) => ShapeData(ts, requests, dialing, reading, data);
      case ReadError(_) => ShapeAbort(ts, requests, dialing, reading);
    }
  }

  lemma OneDialSilent(r: Run, e: Event, u: u16)
    requires Possible(r.s, e) && OneDial(r, u)
    requires Posting(r.s, e) == [] || Posting(r.s, e)[0].uuid != u
    ensures OneDial(Next(r, e), u)
  {
    DialStep(r, e, u);
    PostedStep(r, e, u);
    ReaderStep(r, e, u);
    assert Of(r.log.posted, u) + [] == Of(r.log.posted, u);
  }

  lemma OneDialStep(r: Run, e: Event, u: u16)
    requires Possible(r.s, e) && OneDial(r, u)
    ensures OneDial(Next(r, e), u)
  {
    if Posting(r.s, e) == [] || Posting(r.s, e)[0].uuid != u {
      OneDialSilent(r, e, u);
    } else {
      OneDialPosts(r, e, u);
    }
  }

  /** One change of the table, seen from one uuid. */
  lemma OpSnoc(table: seq<TableOp>, op: TableOp, u: u16)
    ensures Ops(table + [op], u) == if op.uuid == u then Ops(table, u) + [op] else Ops(table, u)
  {
    FlatMapSnoc(OpFor(u), table, op);
  }

  lemma TableMail(r: Run, u: u16)
    requires Possible(r.s, HandleNext) && TableFollows(r, u)
    ensures TableFollows(Next(r, HandleNext), u)
  {
    match r.s.mailbox[0]
    case Established(v, socket) =>
      OpSnoc(r.log.table, Inserted(v), u);
      FlatMapSnoc(GivenFor(u), r.log.given, Connection(v, socket));
    case Dead(v) =>
      OpSnoc(r.log.table, Removed(v), u);
      assert r.log.given + [] == r.log.given;
    case Answer(_) => assert r.log.table + [] == r.log.table && r.log.given + [] == r.log.given;
  }

  lemma TableRequest(r: Run, m: Message, w: WriteOutcome, u: u16)
    requires Possible(r.s, Consume(m, w)) && TableFollows(r, u)
    ensures TableFollows(Next(r, Consume(m, w)), u)
  {
    RequestTable(r, m, w);
    OpSnoc(r.log.table, Removed(m.uuid), u);
  }

  /** A request changes the table only by failing to write. */
  lemma RequestTable(r: Run, m: Message, w: WriteOutcome)
    requires Possible(r.s, Consume(m, w))
    ensures var r', fails := Next(r, Consume(m, w)), m.transfer.Data? && m.uuid in r.s.connections && w.WriteFailed?;
      && r'.log.given == r.log.given
      && r'.log.table == (if fails then r.log.table + [Removed(m.uuid)] else r.log.table)
      && r'.s.connections == (if fails then r.s.connections - {m.uuid} else r.s.connections)
  {
  }

  lemma TableStep(r: Run, e: Event, u: u16)
    requires Possible(r.s, e) && TableFollows(r, u)
    ensures TableFollows(Next(r, e), u)
  {
    if e.HandleNext? {
      TableMail(r, u);
    } else if e.Consume? {
      TableRequest(r, e.m, e.w, u);
    } else {
      assert Next(r, e).log.table == r.log.table && Next(r, e).s.connections == r.s.connections;
    }
  }

  // ---- Sockets ----

  lemma SocketedStep(r: Run, e: Event)
    requires Possible(r.s, e) && Socketed(r)
    ensures Socketed(Next(r, e))
  {
    match e
    case Consume(m, w) => SocketedRequest(r, m, w);
    case DialDone(i, outcome) => SocketedDial(r, i, outcome);
    case _ =>
  }

  lemma SocketedRequest(r: Run, m: Message, w: WriteOutcome)
    requires Possible(r.s, Consume(m, w)) && Socketed(r)
    ensures Socketed(Next(r, Consume(m, w)))
  {
  }

  lemma SocketedDial(r: Run, i: nat, outcome: DialOutcome)
    requires Possible(r.s, DialDone(i, outcome)) && Socketed(r)
    ensures Socketed(Next(r, DialDone(i, outcome)))
  {
  }

  lemma DialsRequestedStep(r: Run, e: Event)
    requires Possible(r.s, e) && DialsRequested(r)
    ensures DialsRequested(Next(r, e))
  {
    var r' := Next(r, e);
    forall d | WasRequested(r.log, d) ensures WasRequested(r'.log, d) {
      var m :| m in r.log.consumed && m.uuid == d.uuid && m.transfer == RequestAddr(d.addr);
      assert m in r'.log.consumed;
    }
    if e.Consume? && e.m.transfer.RequestAddr? {
      assert e.m in r'.log.consumed;
      assert WasRequested(r'.log, Dial(e.m.uuid, e.m.transfer.addr));
    }
  }

  lemma WritesOwnStep(r: Run, e: Event)
    requires Possible(r.s, e) && WritesOwn(r) && Socketed(r)
    ensures WritesOwn(Next(r, e))
  {
    var r' := Next(r, e);
    LogGrows(r, e);
    forall c | WroteOwn(r.log, c) ensures WroteOwn(r'.log, c) {
      var m :| m in r.log.consumed && m.transfer.Data? && OpenedFor(r.log, m.uuid, c.socket)
               && c.data <= m.transfer.data;
      assert m in r'.log.consumed && OpenedFor(r'.log, m.uuid, c.socket);
    }
    if e.Consume? {
      RequestTears(r, e.m, e.w);
      var writes := Writes(r.s.connections, e.m, e.w);
      assert e.m in r'.log.consumed;
      assert writes != [] ==> WroteOwn(r'.log, writes[0]);
    } else {
      assert r'.log.written == r.log.written;
    }
  }

  lemma LogGrows(r: Run, e: Event)
    requires Possible(r.s, e)
    ensures r.log.consumed <= Next(r, e).log.consumed && r.log.sockets <= Next(r, e).log.sockets
  {
  }

  /** Chunks of sockets opened before read the same after more are opened. */
  lemma {:induction false} OpenedLater(sockets: seq<Dial>, d: Dial, chunks: seq<Chunk>, u: u16)
    requires forall i :: 0 <= i < |chunks| ==> chunks[i].socket < |sockets|
    ensures FlatMap(ChunkFor(sockets + [d], u), chunks) == FlatMap(ChunkFor(sockets, u), chunks)
  {
    if chunks != [] {
      OpenedLater(sockets, d, chunks[1..], u);
    }
  }

  /** Only requests write, only reads fetch. */
  lemma BytesStay(r: Run, e: Event, u: u16)
    requires Possible(r.s, e) && Socketed(r)
    ensures !e.Consume? ==> WrittenFor(Next(r, e).log, u) == WrittenFor(r.log, u)
    ensures !e.ReadBytes? ==> FetchedFor(Next(r, e).log, u) == FetchedFor(r.log, u)
  {
    if e.DialDone? && e.outcome.Connected? {
      OpenedLater(r.log.sockets, r.s.dials[e.i], r.log.written, u);
      OpenedLater(r.log.sockets, r.s.dials[e.i], r.log.fetched, u);
    }
  }

  lemma FetchedStep(r: Run, e: Event, u: u16)
    requires Possible(r.s, e) && BytesFollow(r, u) && Socketed(r)
    ensures FetchedFor(Next(r, e).log, u) == DataOf(Next(r, e).log.posted, u)
  {
    if e.ReadBytes? {
      FetchedRead(r, e.k, e.data, u);
    } else {
      BytesStay(r, e, u);
      PostedNoData(r, e, u);
    }
  }

  lemma FetchedRead(r: Run, k: nat, data: seq<byte>, u: u16)
    requires Possible(r.s, ReadBytes(k, data)) && Socketed(r)
    ensures var log' := Next(r, ReadBytes(k, data)).log;
      var read := if r.s.readers[k].uuid == u then data else [];
      FetchedFor(log', u) == FetchedFor(r.log, u) + read && DataOf(log'.posted, u) == DataOf(r.log.posted, u) + read
  {
    FlatMapSnoc(DataFor(u), r.log.posted, New(r.s.readers[k].uuid, Data(data)));
    FlatMapSnoc(ChunkFor(r.log.sockets, u), r.log.fetched, Chunk(r.s.readers[k].socket, data));
  }

  lemma PostedNoData(r: Run, e: Event, u: u16)
    requires Possible(r.s, e) && !e.ReadBytes?
    ensures DataOf(Next(r, e).log.posted, u) == DataOf(r.log.posted, u)
  {
    var p := Posting(r.s, e);
    if p != [] {
      assert p == [p[0]] && DataFor(u)(p[0]) == [];
      FlatMapSnoc(DataFor(u), r.log.posted, p[0]);
    } else {
      assert r.log.posted + p == r.log.posted;
    }
  }

  /** What a request writes for a uuid. */
  function Part(s: State, m: Message, w: WriteOutcome, u: u16): seq<byte> {
    if m.uuid == u && Writes(s.connections, m, w) != [] then Writes(s.connections, m, w)[0].data else []
  }

  /** All the data of a request, if any, is written. */
  predicate Whole(s: State, m: Message, w: WriteOutcome) {
    m.transfer.Data? ==> m.uuid in s.connections && w.Wrote? && w.n >= |m.transfer.data|
  }

  /** It writes a part of its data to a socket of its uuid. */
  lemma RequestWrites(r: Run, m: Message, w: WriteOutcome, u: u16)
    requires Possible(r.s, Consume(m, w)) && Socketed(r)
    ensures var log', part := RecordRequest(r.s, r.log, m, w), Part(r.s, m, w, u);
      && WrittenFor(log', u) == WrittenFor(r.log, u) + part
      && DataOf(log'.consumed, u) == DataOf(r.log.consumed, u) + DataFor(u)(m)
      && part <= DataFor(u)(m)
      && (Whole(r.s, m, w) ==> part == DataFor(u)(m))
      && (!Whole(r.s, m, w) && m.uuid == u ==> |part| < |m.transfer.data| || m.transfer.data == [])
  {
    FlatMapSnoc(DataFor(u), r.log.consumed, m);
    RequestTears(r, m, w);
    if Writes(r.s.connections, m, w) != [] {
      FlatMapSnoc(ChunkFor(r.log.sockets, u), r.log.written, Writes(r.s.connections, m, w)[0]);
    }
  }

  /** If that is not all, the uuid is torn. */
  lemma RequestTears(r: Run, m: Message, w: WriteOutcome)
    requires Possible(r.s, Consume(m, w))
    ensures var log' := RecordRequest(r.s, r.log, m, w);
      && log'.consumed == r.log.consumed + [m] && log'.sockets == r.log.sockets
      && log'.written == r.log.written + Writes(r.s.connections, m, w)
      && log'.torn == if m.uuid in r.log.torn || Whole(r.s, m, w) then r.log.torn
                      else r.log.torn[m.uuid := |WrittenFor(log', m.uuid)|]
  {
  }

  lemma WrittenStep(r: Run, e: Event, u: u16)
    requires Possible(r.s, e) && BytesFollow(r, u) && Socketed(r)
    ensures var log' := Next(r, e).log;
      u !in log'.torn ==> WrittenFor(log', u) == DataOf(log'.consumed, u)
  {
    BytesStay(r, e, u);
    if e.Consume? {
      RequestWrites(r, e.m, e.w, u);
      RequestTears(r, e.m, e.w);
    }
  }

  lemma TornStep(r: Run, e: Event, u: u16)
    requires Possible(r.s, e) && BytesFollow(r, u) && TornLoses(r, u) && TornPrefix(r, u) && Socketed(r)
    ensures TornLoses(Next(r, e), u) && TornPrefix(Next(r, e), u)
  {
    BytesStay(r, e, u);
    if e.Consume? {
      TornLosesRequest(r, e.m, e.w, u);
      TornPrefixRequest(r, e.m, e.w, u);
    }
  }

  lemma TornLosesRequest(r: Run, m: Message, w: WriteOutcome, u: u16)
    requires Possible(r.s, Consume(m, w)) && TornLoses(r, u) && Socketed(r)
    ensures TornLoses(Next(r, Consume(m, w)), u)
  {
    var log' := RecordRequest(r.s, r.log, m, w);
    RequestWrites(r, m, w, u);
    RequestTears(r, m, w);
    assert m in log'.consumed;
    assert NoEmptyData(log'.consumed) ==> NoEmptyData(r.log.consumed) by {
      assert forall x :: x in r.log.consumed ==> x in log'.consumed;
    }
  }

  lemma TornPrefixRequest(r: Run, m: Message, w: WriteOutcome, u: u16)
    requires Possible(r.s, Consume(m, w)) && BytesFollow(r, u) && TornPrefix(r, u) && Socketed(r)
    ensures TornPrefix(Next(r, Consume(m, w)), u)
  {
    RequestWrites(r, m, w, u);
    RequestTears(r, m, w);
    var log' := RecordRequest(r.s, r.log, m, w);
    if u in r.log.torn {
      assert WrittenFor(log', u)[..r.log.torn[u]] == WrittenFor(r.log, u)[..r.log.torn[u]];
    } else if u in log'.torn {
      assert WrittenFor(log', u)[..log'.torn[u]] == WrittenFor(log', u);
    }
  }

  lemma BeatsStep(r: Run, e: Event)
    requires Possible(r.s, e) && Beats(r.log.enqueued) == Beats(r.log.consumed)
    requires SuccessImpliesInserted(r)
    ensures Beats(Next(r, e).log.enqueued) == Beats(Next(r, e).log.consumed)
  {
    match e
    case Consume(m, _) =>
      FlatMapSnoc(BeatIn(), r.log.consumed, m);
      if m.transfer.Heartbeat? {
        FlatMapSnoc(BeatIn(), r.log.enqueued, New(m.uuid, Heartbeat(m.transfer.index)));
      }
    case HandleNext => FlatMapSnoc(BeatIn(), r.log.enqueued, r.s.mailbox[0].Reply());
    case _ =>
  }

  lemma SuccessStep(r: Run, e: Event)
    requires Possible(r.s, e) && SuccessImpliesInserted(r)
    ensures SuccessImpliesInserted(Next(r, e))
  {
  }

  lemma FaultStep(r: Run, e: Event)
    requires Possible(r.s, e) && FaultExplained(r)
    ensures FaultExplained(Next(r, e))
  {
  }

  lemma GoodStep(r: Run, e: Event, u: u16)
    requires Good(r, u)
    ensures Good(Next(r, e), u)
  {
    if Possible(r.s, e) {
      PipedStep(r, e, u);
      AccountedStep(r, e, u);
      OneDialStep(r, e, u);
      TableStep(r, e, u);
      SocketedStep(r, e);
      DialsRequestedStep(r, e);
      WritesOwnStep(r, e);
      FetchedStep(r, e, u);
      WrittenStep(r, e, u);
      TornStep(r, e, u);
      BeatsStep(r, e);
      SuccessStep(r, e);
      FaultStep(r, e);
    }
  }

  lemma {:induction false} RunsAreGood(es: seq<Event>, u: u16)
    ensures Good(Exec(es), u)
  {
    if es != [] {
      RunsAreGood(es[..|es| - 1], u);
      GoodStep(Exec(es[..|es| - 1]), es[|es| - 1], u);
    }
  }

  // ---- What a run guarantees, whatever requests arrive ----

  /** If a uuid is dialled at most once, its replies on the link are a refusal, a timeout, or success,
      data and at most one final abort, as far as they have got. */
  lemma {:induction false} ReplyGrammar(es: seq<Event>, u: u16)
    requires |Requests(Exec(es).log.consumed, u)| <= 1
    ensures Transcript(Of(Exec(es).log.enqueued, u))
  {
    RunsAreGood(es, u);
    var log := Exec(es).log;
    TranscriptPrefix(Of(log.posted, u), |Of(log.enqueued, u)|);
  }

  /** Requests handled are the outstanding dials, the outcomes in the mailbox and the outcomes sent. */
  lemma {:induction false} DialAccounting(es: seq<Event>, u: u16)
    ensures var r := Exec(es);
      |Requests(r.log.consumed, u)|
      == |Dialing(r.s.dials, u)| + |WaitingOutcomes(r.s.mailbox, u)| + |Outcomes(r.log.enqueued, u)|
  {
    RunsAreGood(es, u);
  }

  /** The table holds a uuid exactly if its last change was an insertion, so data panics exactly when
      its uuid was never connected or was removed since. */
  lemma DataPanicsHere(r: Run, m: Message, w: WriteOutcome)
    requires r.s.fault.NoFault? && m.transfer.Data? && TableFollows(r, m.uuid)
    ensures Next(r, Consume(m, w)).s.fault == UnroutedData(m.uuid)
      <==> var ops := Ops(r.log.table, m.uuid); ops == [] || ops[|ops| - 1].Removed?
    ensures Next(r, Consume(m, w)).s.fault in {NoFault, UnroutedData(m.uuid)}
  {
  }

  lemma {:induction false} DataPanicsExactly(es: seq<Event>, m: Message, w: WriteOutcome)
    requires Exec(es).s.fault.NoFault? && m.transfer.Data?
    ensures Next(Exec(es), Consume(m, w)).s.fault == UnroutedData(m.uuid)
      <==> var ops := Ops(Exec(es).log.table, m.uuid); ops == [] || ops[|ops| - 1].Removed?
  {
    RunsAreGood(es, m.uuid);
    DataPanicsHere(Exec(es), m, w);
  }

  /** A live far end panics on a request exactly if it is a response, or data of a uuid that was never
      connected or was removed since. */
  lemma {:induction false} RequestPanicsExactly(es: seq<Event>, m: Message, w: WriteOutcome)
    requires Exec(es).s.fault.NoFault?
    ensures !Next(Exec(es), Consume(m, w)).s.fault.NoFault?
      <==> (m.transfer.Response?
            || (m.transfer.Data? && var ops := Ops(Exec(es).log.table, m.uuid); ops == [] || ops[|ops| - 1].Removed?))
  {
    RunsAreGood(es, m.uuid);
    if m.transfer.Data? {
      DataPanicsHere(Exec(es), m, w);
    }
  }

  /** A uuid is connected to the socket it was last given, which was opened by a dial requested for that
      uuid; no two uuids are connected to one socket; what is written to a socket is data of its uuid. */
  lemma {:induction false} SocketsAreOwn(es: seq<Event>, u: u16, v: u16)
    requires u in Exec(es).s.connections
    ensures var r := Exec(es);
      var socket, given := r.s.connections[u], Given(r.log.given, u);
      && given != [] && socket == given[|given| - 1]
      && OpenedFor(r.log, u, socket) && WasRequested(r.log, r.log.sockets[socket])
      && (v in r.s.connections && v != u ==> r.s.connections[v] != socket)
      && (forall c :: c in r.log.written ==> WroteOwn(r.log, c))
  {
    RunsAreGood(es, u);
  }

  /** Up to the first data of a uuid that is not written whole, and including what is written of that,
      its sockets are given its data in order. */
  lemma {:induction false} WrittenUpToTorn(es: seq<Event>, u: u16)
    requires u in Exec(es).log.torn
    ensures var log := Exec(es).log;
      log.torn[u] <= |WrittenFor(log, u)| && WrittenFor(log, u)[..log.torn[u]] <= DataOf(log.consumed, u)
  {
    RunsAreGood(es, u);
  }

  /** Bytes read from a target leave, in order, as data replies or wait to. Unless empty data was
      requested, the bytes written to a target are the data requested if and only if all of it was written
      whole: no short or failed write, and none for a missing connection. */
  lemma {:induction false} BytesConserved(es: seq<Event>, u: u16)
    ensures var r := Exec(es);
      && FetchedFor(r.log, u) == DataOf(r.log.enqueued, u) + WaitingData(r.s.mailbox, u)
      && (u !in r.log.torn ==> WrittenFor(r.log, u) == DataOf(r.log.consumed, u))
      && (NoEmptyData(r.log.consumed) ==>
            (WrittenFor(r.log, u) == DataOf(r.log.consumed, u) <==> u !in r.log.torn))
  {
    RunsAreGood(es, u);
  }
}
