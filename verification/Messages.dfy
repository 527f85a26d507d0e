/** The messages of the two proxy links. Requests and responses have the same shape. */
module Messages {
  import opened Bytes
  import Utf8

  datatype ResponseKind = Succeeded | ConnectionRefused | Timeout | Abort {
    function Code(): byte {
      match this
      case Succeeded => 0
      case ConnectionRefused => 1
      case Timeout => 2
      case Abort => 3
    }
  }

  function KindOf(code: byte): Option<ResponseKind> {
    if code == 0 then Some(Succeeded)
    else if code == 1 then Some(ConnectionRefused)
    else if code == 2 then Some(Timeout)
    else if code == 3 then Some(Abort)
    else None
  }

  datatype Transfer =
    | Data(data: seq<byte>)
    | RequestAddr(addr: Utf8.Text)
    | Response(kind: ResponseKind)
    | Heartbeat(index: u32)
  {
    /** The bytes the transfer occupies in a frame. */
    function Payload(): seq<byte> {
      match this
      case Data(data) => data
      case RequestAddr(addr) => addr
      case Response(kind) => [kind.Code()]
      case Heartbeat(index) => PutU32(index)
    }
  }

  /** `transferLen` and `transferType` are private in the program: messages are made by `New` or by a decoder. */
  datatype Message = Message(uuid: u16, transferLen: nat, transferType: byte, transfer: Transfer)

  /** A new message knows the length of its payload. */
  function New(uuid: u16, transfer: Transfer): (m: Message)
    ensures m.uuid == uuid && m.transfer == transfer && m.transferLen == |transfer.Payload()|
  {
    match transfer
    case Response(_) => Message(uuid, 1, 2, transfer)
    case RequestAddr(addr) => Message(uuid, |addr|, 1, transfer)
    case Data(data) => Message(uuid, |data|, 0, transfer)
    case Heartbeat(_) => Message(uuid, 4, 3, transfer)
  }

  /** What the private fields guarantee of every message handed to an encoder. */
  predicate MadeByNew(m: Message) {
    m == New(m.uuid, m.transfer)
  }

  /** What the local server forwards to a session. */
  datatype ConnectorResponse = Success | Failed | Received(data: seq<byte>) | Aborted
}
