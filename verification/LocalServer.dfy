/** The near end of the link: the `Server` actor that routes between the sessions and the link. */
module LocalServer {
  import opened Bytes
  import opened Messages

  /** Milliseconds. */
  const HEARTBEAT_INTERVAL := 5_000
  const HEARTBEAT_LIMIT := 15_000

  /** Sessions by uuid; a session is known by its number. `writer` holds what the link has not yet taken. */
  datatype State = State(
    clients: map<u16, nat>,
    writer: seq<Message>,
    hb: nat,
    hbIndex: u32,
    lastHbInstant: nat)

  const START := State(map[], [], 0, 0, 0)

  /** A handler forwards to a session, panics, or does neither. */
  datatype Effect =
    | Nothing
    | Forward(client: nat, msg: ConnectorResponse)
    | RoutingPanic
    | OverflowPanic

  function OnRequest(s: State, msg: Message): State {
    s.(writer := s.writer + [msg])
  }

  /** What a session is told of a transfer; none where the server panics. */
  function Translate(t: Transfer): Option<ConnectorResponse> {
    match t
    case Data(data) => Some(Received(data))
    case RequestAddr(_) => None
    case Response(kind) =>
      (match kind
       case Succeeded => Some(Success)
       case ConnectionRefused => Some(Failed)
       case Timeout => Some(Failed)
       case Abort => Some(Aborted))
    case Heartbeat(_) => None
  }

  function OnResponse(s: State, item: Message, now: nat): (State, Effect) {
    if item.uuid == 0 then
      if item.transfer.Heartbeat? then (s.(hb := now), Nothing) else (s, RoutingPanic)
    else if item.uuid !in s.clients then (s, RoutingPanic)
    else
      match Translate(item.transfer)
      case Some(msg) => (s, Forward(s.clients[item.uuid], msg))
      case None => (s, RoutingPanic)
  }

  /** `hb_index` is a `u32`; the addition is checked, as it is in a debug build. */
  function OnHeartbeat(s: State, now: nat): (State, Effect) {
    var t := s.(lastHbInstant := now);
    if s.hbIndex == 0xFFFF_FFFF then (t, OverflowPanic)
    else
      (t.(hbIndex := s.hbIndex + 1, writer := s.writer + [New(0, Heartbeat(s.hbIndex + 1))]), Nothing)
  }

  function OnConnected(s: State, port: u16, client: nat): State {
    s.(clients := s.clients[port := client])
  }

  /** The timer posts a heartbeat unless the last echo is more than 15 seconds old. */
  predicate TickPosts(s: State, now: nat) {
    now - s.hb <= HEARTBEAT_LIMIT
  }

  class Server {
    var clients: map<u16, nat>
    var writer: seq<Message>
    var hb: nat
    var hbIndex: u32
    var lastHbInstant: nat

    constructor ()
      ensures Snapshot() == START
    {
      clients, writer := map[], [];
      hb, hbIndex, lastHbInstant := 0, 0, 0;
    }

    function Snapshot(): State
      reads this
    {
      State(clients, writer, hb, hbIndex, lastHbInstant)
    }

    method HandleRequest(msg: Message)
      modifies this
      ensures Snapshot() == OnRequest(old(Snapshot()), msg)
    {
      writer := writer + [msg];
    }

    method HandleResponse(item: Message, now: nat) returns (effect: Effect)
      modifies this
      ensures (Snapshot(), effect) == OnResponse(old(Snapshot()), item, now)
    {
      if item.uuid == 0 {
        match item.transfer {
          case Heartbeat(_) => hb := now;
          case _ => return RoutingPanic;
        }
        return Nothing;
      }
      if item.uuid !in clients {
        return RoutingPanic;
      }
      var client := clients[item.uuid];
      match item.transfer {
        case Data(data) => return Forward(client, Received(data));
        case RequestAddr(_) => return RoutingPanic;
        case Response(kind) =>
          match kind {
            case Succeeded => return Forward(client, Success);
            case ConnectionRefused => return Forward(client, Failed);
            case Timeout => return Forward(client, Failed);
            case Abort => return Forward(client, Aborted);
          }
        case Heartbeat(_) => return RoutingPanic;
      }
    }

    method HandleHeartbeat(now: nat) returns (effect: Effect)
      modifies this
      ensures (Snapshot(), effect) == OnHeartbeat(old(Snapshot()), now)
    {
      lastHbInstant := now;
      if hbIndex == 0xFFFF_FFFF {
        return OverflowPanic;
      }
      hbIndex := hbIndex + 1;
      writer := writer + [New(0, Heartbeat(hbIndex))];
      return Nothing;
    }

    method HandleConnected(port: u16, client: nat)
      modifies this
      ensures Snapshot() == OnConnected(old(Snapshot()), port, client)
    {
      clients := clients[port := client];
    }

    /** The closure the interval timer runs. */
    method TimerTick(now: nat) returns (posts: bool)
      ensures posts == TickPosts(Snapshot(), now)
    {
      var hbDuration := now - hb;
      if hbDuration > 15_000 {
        return false;
      }
      return true;
    }
  }

  // ---- When the server panics ----

  /** A reply panics the server exactly if it is for 0 and no heartbeat, for nobody it knows, or an address
      or a heartbeat for a session. */
  predicate Unroutable(s: State, m: Message) {
    if m.uuid == 0 then !m.transfer.Heartbeat?
    else m.uuid !in s.clients || m.transfer.RequestAddr? || m.transfer.Heartbeat?
  }

  /** Every other reply for a session reaches the session that holds its uuid: data as data, and responses
      as success, failure (refused or timed out) or abort. Nothing but an echo changes the server. */
  lemma ResponseDecidedExactly(s: State, m: Message, now: nat)
    ensures var (s', effect) := OnResponse(s, m, now);
      && (effect.RoutingPanic? <==> Unroutable(s, m)) && !effect.OverflowPanic?
      && (effect.Forward? <==> !Unroutable(s, m) && m.uuid != 0)
      && (effect.Forward? ==>
            && effect.client == s.clients[m.uuid]
            && match effect.msg
               case Received(data) => m.transfer == Data(data)
               case Success => m.transfer == Response(Succeeded)
               case Failed => m.transfer in {Response(ConnectionRefused), Response(Timeout)}
               case Aborted => m.transfer == Response(Abort))
      && s' == if m.uuid == 0 && m.transfer.Heartbeat? then s.(hb := now) else s
  {
  }

  /** The heartbeat after the last 32-bit number panics, and no other. */
  lemma HeartbeatOverflowsExactly(s: State, now: nat)
    ensures OnHeartbeat(s, now).1.OverflowPanic? <==> s.hbIndex as int + 1 == 0x1_0000_0000
    ensures !OnHeartbeat(s, now).1.Forward? && !OnHeartbeat(s, now).1.RoutingPanic?
  {
  }
}
