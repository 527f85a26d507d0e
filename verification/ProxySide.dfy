/** The far end of the link: the `ProxyClient` actor with its mailbox, its outstanding dials and the
    reader task of each connection. */
module ProxySide {
  import opened Bytes
  import opened Messages
  import opened Sequences
  import Utf8

  /** A connected socket, by its identity. */
  type Socket = nat

  /** A half of a socket and the uuid it serves. */
  datatype Connection = Connection(uuid: u16, socket: Socket)

  datatype Mail =
    | Answer(reply: Message)
    | Established(uuid: u16, socket: Socket)
    | Dead(uuid: u16)
  {
    /** The reply that handling this mail puts on the link. */
    function Reply(): Message {
      match this
      case Answer(reply) => reply
      case Established(uuid, _) => New(uuid, Response(Succeeded))
      case Dead(uuid) => New(uuid, Response(Abort))
    }
  }

  datatype Dial = Dial(uuid: u16, addr: Utf8.Text)

  /** `Failed` stands for every resolver or connection error but a timeout. */
  datatype DialOutcome = Connected | TimedOut | Failed

  /** What the operating system answers to a write: how much it took, or an error. */
  datatype WriteOutcome = Wrote(n: nat) | WriteFailed

  datatype Fault =
    | NoFault
    | UnroutedData(uuid: u16)
    | UnexpectedResponse

  datatype State = State(
    connections: map<u16, Socket>,
    outbox: seq<Message>,
    mailbox: seq<Mail>,
    dials: seq<Dial>,
    readers: seq<Connection>,
    nextSocket: Socket,
    fault: Fault)

  const IDLE := State(map[], [], [], [], [], 0, NoFault)

  // ---- The handlers ----

  function OnResponse(s: State, msg: Message): State {
    s.(outbox := s.outbox + [msg])
  }

  function OnDead(s: State, uuid: u16): State {
    s.(connections := s.connections - {uuid}, outbox := s.outbox + [New(uuid, Response(Abort))])
  }

  function OnEstablished(s: State, uuid: u16, socket: Socket): State {
    s.(connections := s.connections[uuid := socket], outbox := s.outbox + [New(uuid, Response(Succeeded))])
  }

  function OnRequest(s: State, m: Message, w: WriteOutcome): State {
    match m.transfer
    case RequestAddr(addr) => s.(dials := s.dials + [Dial(m.uuid, addr)])
    case Data(_) =>
      if m.uuid !in s.connections then s.(fault := UnroutedData(m.uuid))
      else if w.WriteFailed? then s.(connections := s.connections - {m.uuid})
      else s
    case Response(_) => s.(fault := UnexpectedResponse)
    case Heartbeat(index) => s.(outbox := s.outbox + [New(m.uuid, Heartbeat(index))])
  }

  /** The continuation of a dial: the outcome is posted, then a reader is spawned. */
  function OnDialed(s: State, i: nat, outcome: DialOutcome): State
    requires i < |s.dials|
  {
    var uuid := s.dials[i].uuid;
    var t := s.(dials := RemoveAt(s.dials, i));
    match outcome
    case Connected =>
      t.(mailbox := t.mailbox + [Established(uuid, t.nextSocket)],
         readers := t.readers + [Connection(uuid, t.nextSocket)],
         nextSocket := t.nextSocket + 1)
    case TimedOut => t.(mailbox := t.mailbox + [Answer(New(uuid, Response(Timeout)))])
    case Failed => t.(mailbox := t.mailbox + [Answer(New(uuid, Response(ConnectionRefused)))])
  }

  function OnRead(s: State, i: nat, data: seq<byte>): State
    requires i < |s.readers|
  {
    s.(mailbox := s.mailbox + [Answer(New(s.readers[i].uuid, Data(data)))])
  }

  /** A clean end of stream ends the reader silently; an error is reported. */
  function OnReadEnd(s: State, i: nat): State
    requires i < |s.readers|
  {
    s.(readers := RemoveAt(s.readers, i))
  }

  function OnReadError(s: State, i: nat): State
    requires i < |s.readers|
  {
    s.(readers := RemoveAt(s.readers, i), mailbox := s.mailbox + [Dead(s.readers[i].uuid)])
  }

  function OnMail(s: State): State
    requires s.mailbox != []
  {
    var t := s.(mailbox := s.mailbox[1..]);
    match s.mailbox[0]
    case Answer(reply) => OnResponse(t, reply)
    case Established(uuid, socket) => OnEstablished(t, uuid, socket)
    case Dead(uuid) => OnDead(t, uuid)
  }

  /** The actor. `writeSender` is the unbounded queue to the link; `mailbox`, `dials` and `readers` are
      what the actor runtime keeps for it. */
  class ProxyClient {
    var connections: map<u16, Socket>
    var writeSender: seq<Message>
    var mailbox: seq<Mail>
    var dials: seq<Dial>
    var readers: seq<Connection>
    var nextSocket: Socket
    var fault: Fault

    constructor ()
      ensures Snapshot() == IDLE
    {
      connections, writeSender, mailbox, dials, readers := map[], [], [], [], [];
      nextSocket, fault := 0, NoFault;
    }

    function Snapshot(): State
      reads this
    {
      State(connections, writeSender, mailbox, dials, readers, nextSocket, fault)
    }

    method HandleResponse(msg: Message)
      modifies this
      ensures Snapshot() == OnResponse(old(Snapshot()), msg)
    {
      writeSender := writeSender + [msg];
    }

    method HandleConnectionDead(uuid: u16)
      modifies this
      ensures Snapshot() == OnDead(old(Snapshot()), uuid)
    {
      connections := connections - {uuid};
      writeSender := writeSender + [New(uuid, Response(Abort))];
    }

    method HandleConnectionEstablished(uuid: u16, socket: Socket)
      modifies this
      ensures Snapshot() == OnEstablished(old(Snapshot()), uuid, socket)
    {
      connections := connections[uuid := socket];
      writeSender := writeSender + [New(uuid, Response(Succeeded))];
    }

    /** `wrote` is what a socket took of the data, and which. */
    method HandleRequest(item: Message, w: WriteOutcome) returns (wrote: seq<Chunk>)
      modifies this
      ensures Snapshot() == OnRequest(old(Snapshot()), item, w)
      ensures wrote == Writes(old(connections), item, w)
    {
      wrote := [];
      match item.transfer {
        case RequestAddr(addr) =>
          dials := dials + [Dial(item.uuid, addr)];
        case Data(data) =>
          if item.uuid in connections {
            if w.WriteFailed? {
              connections := connections - {item.uuid};
            } else {
              wrote := [Chunk(connections[item.uuid], if w.n <= |data| then data[..w.n] else data)];
            }
          } else {
            fault := UnroutedData(item.uuid);
          }
        case Response(_) =>
          fault := UnexpectedResponse;
        case Heartbeat(index) =>
          writeSender := writeSender + [New(item.uuid, Heartbeat(index))];
      }
    }

    method DialContinuation(i: nat, outcome: DialOutcome)
      requires i < |dials|
      modifies this
      ensures Snapshot() == OnDialed(old(Snapshot()), i, outcome)
    {
      var uuid := dials[i].uuid;
      dials := RemoveAt(dials, i);
      match outcome {
        case Connected =>
          mailbox := mailbox + [Established(uuid, nextSocket)];
          readers := readers + [Connection(uuid, nextSocket)];
          nextSocket := nextSocket + 1;
        case TimedOut =>
          mailbox := mailbox + [Answer(New(uuid, Response(Timeout)))];
        case Failed =>
          mailbox := mailbox + [Answer(New(uuid, Response(ConnectionRefused)))];
      }
    }

    method ReaderYields(i: nat, data: seq<byte>)
      requires i < |readers|
      modifies this
      ensures Snapshot() == OnRead(old(Snapshot()), i, data)
    {
      mailbox := mailbox + [Answer(New(readers[i].uuid, Data(data)))];
    }

    method ReaderEnds(i: nat, error: bool)
      requires i < |readers|
      modifies this
      ensures Snapshot() == if error then OnReadError(old(Snapshot()), i) else OnReadEnd(old(Snapshot()), i)
    {
      var uuid := readers[i].uuid;
      readers := RemoveAt(readers, i);
      if error {
        mailbox := mailbox + [Dead(uuid)];
      }
    }

    method HandleMail()
      requires mailbox != []
      modifies this
      ensures Snapshot() == OnMail(old(Snapshot()))
    {
      var mail := mailbox[0];
      mailbox := mailbox[1..];
      match mail {
        case Answer(reply) => HandleResponse(reply);
        case Established(uuid, socket) => HandleConnectionEstablished(uuid, socket);
        case Dead(uuid) => HandleConnectionDead(uuid);
      }
    }
  }

  /** Some bytes read from or written to a socket. */
  datatype Chunk = Chunk(socket: Socket, data: seq<byte>)

  /** What a request writes, and where. */
  function Writes(connections: map<u16, Socket>, m: Message, w: WriteOutcome): seq<Chunk> {
    if m.transfer.Data? && m.uuid in connections && w.Wrote? then
      [Chunk(connections[m.uuid], if w.n <= |m.transfer.data| then m.transfer.data[..w.n] else m.transfer.data)]
    else []
  }

  // ---- Runs, with their history ----

  datatype TableOp = Inserted(uuid: u16) | Removed(uuid: u16)

  /** Everything that ever happened: requests handled, replies posted to the mailbox, replies put on
      the link, bytes read from and written to sockets, changes of the connection table, the sockets it
      was given, for each socket the dial that opened it, and the uuids of which some data was not
      written whole, by a short or failed write or for want of a connection, with the number of bytes
      written for them when that first happened. */
  datatype History = History(
    consumed: seq<Message>,
    posted: seq<Message>,
    enqueued: seq<Message>,
    fetched: seq<Chunk>,
    written: seq<Chunk>,
    table: seq<TableOp>,
    given: seq<Connection>,
    sockets: seq<Dial>,
    torn: map<u16, nat>)

  function ChunkFor(sockets: seq<Dial>, u: u16): Chunk -> seq<byte> {
    (c: Chunk) => if c.socket < |sockets| && sockets[c.socket].uuid == u then c.data else []
  }

  /** The bytes written to the sockets that were dialled for a uuid. */
  function WrittenFor(log: History, u: u16): seq<byte> {
    FlatMap(ChunkFor(log.sockets, u), log.written)
  }

  /** The bytes read from them. */
  function FetchedFor(log: History, u: u16): seq<byte> {
    FlatMap(ChunkFor(log.sockets, u), log.fetched)
  }

  datatype Run = Run(s: State, log: History)

  const START := Run(IDLE, History([], [], [], [], [], [], [], [], map[]))

  datatype Event =
    | Consume(m: Message, w: WriteOutcome)
    | DialDone(i: nat, outcome: DialOutcome)
    | ReadBytes(k: nat, data: seq<byte>)
    | ReadEnd(k: nat)
    | ReadError(k: nat)
    | HandleNext
    | Flush

  /** Which events can happen. A panicked actor does nothing; its queued replies may still leave. */
  predicate Possible(s: State, e: Event) {
    match e
    case Consume(_, _) => s.fault.NoFault?
    case DialDone(i, _) => s.fault.NoFault? && i < |s.dials|
    case ReadBytes(k, data) => s.fault.NoFault? && k < |s.readers| && data != []
    case ReadEnd(k) => s.fault.NoFault? && k < |s.readers|
    case ReadError(k) => s.fault.NoFault? && k < |s.readers|
    case HandleNext => s.fault.NoFault? && s.mailbox != []
    case Flush => s.outbox != []
  }

  function Step(s: State, e: Event): State
    requires Possible(s, e)
  {
    match e
    case Consume(m, w) => OnRequest(s, m, w)
    case DialDone(i, outcome) => OnDialed(s, i, outcome)
    case ReadBytes(k, data) => OnRead(s, k, data)
    case ReadEnd(k) => OnReadEnd(s, k)
    case ReadError(k) => OnReadError(s, k)
    case HandleNext => OnMail(s)
    case Flush => s.(outbox := s.outbox[1..])
  }

  /** Some data of the uuid is not written whole. */
  function Torn(log: History, u: u16): History {
    if u in log.torn then log else log.(torn := log.torn[u := |WrittenFor(log, u)|])
  }

  /** A request in the history. */
  function RecordRequest(s: State, log: History, m: Message, w: WriteOutcome): History {
    var l := log.(consumed := log.consumed + [m]);
    match m.transfer
    case RequestAddr(_) => l
    case Data(data) =>
      if m.uuid in s.connections then
        if w.WriteFailed? then Torn(l.(table := l.table + [Removed(m.uuid)]), m.uuid)
        else
          var l' := l.(written := l.written + Writes(s.connections, m, w));
          if w.n < |data| then Torn(l', m.uuid) else l'
      else Torn(l, m.uuid)
    case Response(_) => l
    case Heartbeat(index) => l.(enqueued := l.enqueued + [New(m.uuid, Heartbeat(index))])
  }

  /** The reply an event posts to the mailbox, if any. */
  function Posting(s: State, e: Event): seq<Message>
    requires Possible(s, e)
  {
    match e
    case DialDone(i, Connected) => [New(s.dials[i].uuid, Response(Succeeded))]
    case DialDone(i, TimedOut) => [New(s.dials[i].uuid, Response(Timeout))]
    case DialDone(i, Failed) => [New(s.dials[i].uuid, Response(ConnectionRefused))]
    case ReadBytes(k, data) => [New(s.readers[k].uuid, Data(data))]
    case ReadError(k) => [New(s.readers[k].uuid, Response(Abort))]
    case _ => []
  }

  function Record(s: State, log: History, e: Event): History
    requires Possible(s, e)
  {
    match e
    case Consume(m, w) => RecordRequest(s, log, m, w)
    case ReadBytes(k, data) =>
      log.(posted := log.posted + Posting(s, e), fetched := log.fetched + [Chunk(s.readers[k].socket, data)])
    case HandleNext =>
      var mail := s.mailbox[0];
      log.(enqueued := log.enqueued + [mail.Reply()],
           table := log.table + match mail
                                case Established(uuid, _) => [Inserted(uuid)]
                                case Dead(uuid) => [Removed(uuid)]
                                case Answer(_) => [],
           given := log.given + match mail
                                case Established(uuid, socket) => [Connection(uuid, socket)]
                                case _ => [])
    case DialDone(i, Connected) => log.(posted := log.posted + Posting(s, e), sockets := log.sockets + [s.dials[i]])
    case _ => log.(posted := log.posted + Posting(s, e))
  }

  /** One step; an event that cannot happen changes nothing. */
  function Next(r: Run, e: Event): Run {
    if Possible(r.s, e) then Run(Step(r.s, e), Record(r.s, r.log, e)) else r
  }

  function Exec(es: seq<Event>): Run {
    if es == [] then START else Next(Exec(es[..|es| - 1]), es[|es| - 1])
  }
}
