/** The SOCKS response encoder, against the reply format of section 6 of RFC 1928. */
module SocksReplies {
  import opened Bytes
  import opened SocksMessages
  import SocksRequests
  import Utf8

  function PutI16(n: i16): seq<byte> {
    PutU16(Unsigned(n))
  }

  /** The address field. The length of a name is cast to eight bits. */
  function AddressField(address: Address): seq<byte> {
    match address
    case DOMAIN(name) => [|name| % 0x100] + name
    case IPV4(v4) => v4
    case IPV6(v6) => v6
  }

  /** The address type byte the encoder writes. */
  function TypeByte(t: RequestType): byte {
    match t
    case IpV4 => 0
    case IpV6 => 4
    case DomainName => 3
  }

  /** What is appended for a response; none where the encoder panics. */
  function Encoded(item: SocksResponse): Option<seq<byte>> {
    match item
    case MethodSelected(version, selected) => Some([version, selected])
    case Reply(r) =>
      if r.responseType != r.address.Type() then None
      else Some([5, r.response.Code(), 0, TypeByte(r.responseType)] + AddressField(r.address) + PutI16(r.port))
    case Payload(data) => Some(data)
  }

  class Socks5ResponseCodec {
    constructor () {}

    method EncodeMethodSelection(version: byte, selected: byte, dst: BytesMut)
      requires dst.Valid()
      modifies dst
      ensures dst.Valid() && dst.bytes == old(dst.bytes) + [version, selected]
    {
      dst.Reserve(2);
      dst.Put([version]);
      dst.Put([selected]);
    }

    method EncodeTargetResponse(item: TargetResponse, dst: BytesMut) returns (panicked: bool)
      requires dst.Valid()
      modifies dst
      ensures dst.Valid() && panicked == Encoded(Reply(item)).None?
      ensures dst.bytes == if panicked then old(dst.bytes) else old(dst.bytes) + Encoded(Reply(item)).value
    {
      if item.responseType != item.address.Type() {
        return true;
      }
      var address := FillAddress(item.address);
      dst.Reserve(6 + |address.bytes|);
      PutHead(item, dst);
      ghost var head := [5, item.response.Code(), 0, TypeByte(item.responseType)];
      dst.Put(address.bytes);
      assert dst.bytes == old(dst.bytes) + (head + address.bytes);
      dst.Put(PutI16(item.port));
      assert dst.bytes == old(dst.bytes) + (head + address.bytes + PutI16(item.port));
      return false;
    }

    method PutHead(item: TargetResponse, dst: BytesMut)
      requires dst.Valid() && dst.capacity - |dst.bytes| >= 4
      modifies dst
      ensures dst.Valid() && dst.capacity == old(dst.capacity)
      ensures dst.bytes == old(dst.bytes) + [5, item.response.Code(), 0, TypeByte(item.responseType)]
    {
      dst.Put([5]);
      dst.Put([item.response.Code()]);
      dst.Put([0]);
      dst.Put([TypeByte(item.responseType)]);
    }

    method FillAddress(address: Address) returns (field: BytesMut)
      ensures fresh(field) && field.Valid() && field.bytes == AddressField(address)
    {
      field := new BytesMut();
      match address {
        case DOMAIN(name) =>
          field.Reserve(|name| + 1);
          field.Put([|name| % 0x100]);
          assert field.bytes == [|name| % 0x100];
          field.Put(name);
        case IPV4(v4) =>
          field.Reserve(4);
          field.Put(v4);
        case IPV6(v6) =>
          field.Reserve(16);
          field.Put(v6);
      }
    }

    /** Every `Put` finds the room that was reserved for it. */
    method Encode(item: SocksResponse, dst: BytesMut) returns (panicked: bool)
      requires dst.Valid()
      modifies dst
      ensures dst.Valid() && panicked == Encoded(item).None?
      ensures dst.bytes == if panicked then old(dst.bytes) else old(dst.bytes) + Encoded(item).value
    {
      match item {
        case MethodSelected(version, selected) =>
          EncodeMethodSelection(version, selected, dst);
          return false;
        case Reply(response) =>
          panicked := EncodeTargetResponse(response, dst);
        case Payload(data) =>
          dst.Reserve(|data|);
          dst.Put(data);
          return false;
      }
    }
  }

  // ---- The reply as a SOCKS client reads it ----

  datatype Read = Read(code: byte, address: Address, port: i16)

  /** A complete reply of section 6: version, reply code, reserved, address type, address, port. */
  function ReadReply(s: seq<byte>): Option<Read> {
    if |s| < 7 || s[0] != 5 then None
    else
      var port := ReadI16(s[|s| - 2..]);
      match s[3]
      case 1 => if |s| == 10 then Some(Read(s[1], IPV4(s[4..8]), port)) else None
      case 3 =>
        if |s| == 7 + s[4] as int && Utf8.Valid(s[5..|s| - 2])
        then Some(Read(s[1], DOMAIN(s[5..|s| - 2]), port)) else None
      case 4 => if |s| == 22 then Some(Read(s[1], IPV6(s[4..20]), port)) else None
      case _ => None
  }

  /** A SOCKS client reads back the reply if and only if it carries no IPv4 address and no name
      longer than 255 bytes. */
  lemma ReplyReadableExactly(r: TargetResponse)
    requires r.responseType == r.address.Type()
    ensures ReadReply(Encoded(Reply(r)).value) == Some(Read(r.response.Code(), r.address, r.port))
      <==> (!r.address.IPV4? && (r.address.DOMAIN? ==> |r.address.name| <= 255))
  {
    var s := Encoded(Reply(r)).value;
    var k := |s|;
    assert s[k - 2..] == PutI16(r.port);
    U16RoundTrip(Unsigned(r.port), PutI16(r.port));
    SocksRequests.SignedRoundTrip(0, r.port);
    assert s[4..k - 2] == AddressField(r.address);
    match r.address
    case DOMAIN(name) => assert s[5..k - 2] == AddressField(r.address)[1..] == name;
    case IPV6(v6) => assert s[4..20] == s[4..k - 2];
    case IPV4(v4) => assert s[3] == 0;
  }

  /** No two replies share a code, and codes are those of section 6 of RFC 1928 and the first unassigned. */
  lemma CodesDistinct(a: ReplyCode, b: ReplyCode)
    ensures a.Code() <= 9 && (a.Code() == b.Code() <==> a == b)
    ensures a.Succeeded? <==> a.Code() == 0
    ensures a.ConnectionRefused? <==> a.Code() == 5
  {
  }
}
