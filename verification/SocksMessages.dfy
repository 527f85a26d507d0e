/** The SOCKS messages of RFC 1928 as the proxy represents them. */
module SocksMessages {
  import opened Bytes
  import Utf8

  type i16 = x: int | -0x8000 <= x < 0x8000

  type V4 = s: seq<byte> | |s| == 4 witness [0, 0, 0, 0]
  type V6 = s: seq<byte> | |s| == 16 witness [0, 0, 0, 0, 0, 0, 0, 0, 0, 0, 0, 0, 0, 0, 0, 0]

  /** `read_i16`: two's complement. */
  function ReadI16(s: seq<byte>): i16
    requires |s| >= 2
  {
    Signed(ReadU16(s))
  }

  function Signed(n: u16): i16 {
    if n < 0x8000 then n else n - 0x1_0000
  }

  function Unsigned(n: i16): u16 {
    if n >= 0 then n else n + 0x1_0000
  }

  datatype Command = CONNECT | BIND | UdpAssociate {
    function Code(): byte {
      match this
      case CONNECT => 1
      case BIND => 2
      case UdpAssociate => 3
    }
  }

  function CommandOf(code: byte): Option<Command> {
    if code == 1 then Some(CONNECT)
    else if code == 2 then Some(BIND)
    else if code == 3 then Some(UdpAssociate)
    else None
  }

  datatype RequestType = IpV4 | DomainName | IpV6

  datatype Address = IPV4(v4: V4) | IPV6(v6: V6) | DOMAIN(name: Utf8.Text) {
    function Type(): RequestType {
      match this
      case IPV4(_) => IpV4
      case IPV6(_) => IpV6
      case DOMAIN(_) => DomainName
    }
  }

  datatype TargetRequest = TargetRequest(
    version: byte, command: Command, reserved: byte, requestType: RequestType, address: Address, port: i16)

  datatype SocksRequest =
    | Negotiation(version: byte, nMethods: byte, methods: seq<byte>)
    | Target(request: TargetRequest)
    | Data(data: seq<byte>)

  datatype ReplyCode =
    | Succeeded | GeneralFailure | NotAllowedByRuleset | NetworkUnreachable | HostUnreachable
    | ConnectionRefused | TTLExpired | CommandNotSupported | AddressTypeNotSupported | Unassigned
  {
    function Code(): byte {
      match this
      case Succeeded => 0
      case GeneralFailure => 1
      case NotAllowedByRuleset => 2
      case NetworkUnreachable => 3
      case HostUnreachable => 4
      case ConnectionRefused => 5
      case TTLExpired => 6
      case CommandNotSupported => 7
      case AddressTypeNotSupported => 8
      case Unassigned => 9
    }
  }

  datatype TargetResponse = TargetResponse(
    version: byte, response: ReplyCode, reserved: byte, responseType: RequestType, address: Address, port: i16)

  datatype SocksResponse =
    | MethodSelected(version: byte, selected: byte)
    | Reply(response: TargetResponse)
    | Payload(data: seq<byte>)
}
