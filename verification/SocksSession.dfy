/** The actor that serves one local SOCKS connection. */
module SocksSession {
  import opened Bytes
  import opened Messages
  import opened SocksMessages
  import AddressText
  import Utf8

  /** Instants are milliseconds. `sendBytes` and `recvBytes` count without bound. */
  datatype State = State(
    uuid: u16,
    writer: seq<SocksResponse>,
    connectRequestRecord: Option<nat>,
    connectRtt: Option<int>,
    sendBytes: nat,
    recvBytes: nat,
    targetAddress: Option<Utf8.Text>)

  /** How a handler ends: an unwrap of a missing field panics. */
  datatype Reaction = Continue | Stop | UnwrapPanic

  type Ipv6Text = V6 -> Utf8.Text

  function Fresh(uuid: u16): State {
    State(uuid, [], None, None, 0, 0, None)
  }

  function AddressString(t: Ipv6Text, r: TargetRequest): Utf8.Text {
    AddressText.AddressIsText(t, r);
    AddressText.ToAddressString(t, r)
  }

  const SUCCEEDED := Reply(TargetResponse(5, ReplyCode.Succeeded, 0, DomainName, DOMAIN([49, 50, 51]), 0))
  const REFUSED := Reply(TargetResponse(5, ReplyCode.ConnectionRefused, 0, DomainName, DOMAIN([]), 0))

  function OnConnector(s: State, msg: ConnectorResponse, now: nat): (State, Reaction) {
    match msg
    case Success =>
      if s.connectRequestRecord.None? then (s, UnwrapPanic)
      else (s.(connectRtt := Some(now - s.connectRequestRecord.value), writer := s.writer + [SUCCEEDED]), Continue)
    case Failed =>
      if s.connectRequestRecord.None? then (s, UnwrapPanic)
      else
        var t := s.(connectRtt := Some(now - s.connectRequestRecord.value));
        if s.targetAddress.None? then (t, UnwrapPanic)
        else (t.(writer := t.writer + [REFUSED]), Continue)
    case Received(data) =>
      (s.(recvBytes := s.recvBytes + |data|, writer := s.writer + [Payload(data)]), Continue)
    case Aborted => (s, Stop)
  }

  /** The new state and the request sent to the local server, if any. */
  function OnRequest(t: Ipv6Text, s: State, item: SocksRequest, now: nat): (State, Option<Message>) {
    match item
    case Negotiation(_, _, _) => (s.(writer := s.writer + [MethodSelected(5, 0)]), None)
    case Target(r) =>
      var address := AddressString(t, r);
      (s.(connectRequestRecord := Some(now), targetAddress := Some(address)),
       Some(New(s.uuid, RequestAddr(address))))
    case Data(data) =>
      (s.(sendBytes := s.sendBytes + |data|), Some(New(s.uuid, Transfer.Data(data))))
  }

  /** Handling an outcome unwraps the instant of the request and, to log a failure, the target. */
  lemma ConnectorPanicsExactly(s: State, msg: ConnectorResponse, now: nat)
    ensures OnConnector(s, msg, now).1.UnwrapPanic?
      <==> (msg.Success? || msg.Failed?)
           && (s.connectRequestRecord.None? || (msg.Failed? && s.targetAddress.None?))
    ensures OnConnector(s, msg, now).1.Stop? <==> msg.Aborted?
  {
  }

  class SocksClient {
    const uuid: u16
    const ipv6Text: Ipv6Text
    var writer: seq<SocksResponse>
    var connectRequestRecord: Option<nat>
    var connectRtt: Option<int>
    var sendBytes: nat
    var recvBytes: nat
    var targetAddress: Option<Utf8.Text>

    constructor (uuid: u16, ipv6Text: Ipv6Text)
      ensures Snapshot() == Fresh(uuid) && this.ipv6Text == ipv6Text
    {
      this.uuid, this.ipv6Text := uuid, ipv6Text;
      writer, connectRequestRecord, connectRtt := [], None, None;
      sendBytes, recvBytes, targetAddress := 0, 0, None;
    }

    function Snapshot(): State
      reads this
    {
      State(uuid, writer, connectRequestRecord, connectRtt, sendBytes, recvBytes, targetAddress)
    }

    method HandleConnectorResponse(msg: ConnectorResponse, now: nat) returns (reaction: Reaction)
      modifies this
      ensures (Snapshot(), reaction) == OnConnector(old(Snapshot()), msg, now)
    {
      reaction := Continue;
      match msg {
        case Success =>
          if connectRequestRecord.None? {
            return UnwrapPanic;
          }
          connectRtt := Some(now - connectRequestRecord.value);
          writer := writer + [SUCCEEDED];
        case Failed =>
          if connectRequestRecord.None? {
            return UnwrapPanic;
          }
          connectRtt := Some(now - connectRequestRecord.value);
          if targetAddress.None? {
            return UnwrapPanic;
          }
          writer := writer + [REFUSED];
        case Received(data) =>
          recvBytes := recvBytes + |data|;
          writer := writer + [Payload(data)];
        case Aborted =>
          return Stop;
      }
    }

    method HandleSocksRequest(item: SocksRequest, now: nat) returns (request: Option<Message>)
      modifies this
      ensures (Snapshot(), request) == OnRequest(ipv6Text, old(Snapshot()), item, now)
    {
      match item {
        case Negotiation(_, _, _) =>
          writer := writer + [MethodSelected(5, 0)];
          return None;
        case Target(r) =>
          var address := AddressString(ipv6Text, r);
          connectRequestRecord := Some(now);
          targetAddress := Some(address);
          return Some(New(uuid, RequestAddr(address)));
        case Data(data) =>
          sendBytes := sendBytes + |data|;
          return Some(New(uuid, Transfer.Data(data)));
      }
    }
  }
}
