/** The incremental SOCKS request parser and the wire formats of sections 3 and 4 of RFC 1928. */
module SocksRequests {
  import opened Bytes
  import opened SocksMessages
  import Utf8

  datatype Phase = NEGOTIATION | WORKING | READY

  datatype Parsed = Parsed(outcome: Outcome<SocksRequest>, rest: seq<byte>)

  // ---- Wire formats ----

  function GreetingBytes(version: byte, methods: seq<byte>): seq<byte>
    requires |methods| <= 255
  {
    [version, |methods|] + methods
  }

  /** The whole greeting is at the head of the buffer. */
  predicate GreetingPresent(buf: seq<byte>) {
    |buf| >= 2 && |buf| - 2 >= buf[1]
  }

  function GreetingOf(buf: seq<byte>): SocksRequest
    requires GreetingPresent(buf)
  {
    Negotiation(buf[0], buf[1], buf[2..2 + buf[1] as int])
  }

  predicate Encodable(address: Address) {
    address.DOMAIN? ==> |address.name| <= 255
  }

  function AddressBytes(address: Address): seq<byte>
    requires Encodable(address)
  {
    match address
    case IPV4(v4) => [1] + v4
    case DOMAIN(name) => [3, |name|] + name
    case IPV6(v6) => [4] + v6
  }

  function TargetBytes(version: byte, command: Command, reserved: byte, address: Address, port: u16): seq<byte>
    requires Encodable(address)
  {
    [version, command.Code(), reserved] + AddressBytes(address) + PutU16(port)
  }

  // ---- The parser, call by call ----

  function DecodeGreeting(buf: seq<byte>): Parsed {
    if |buf| < 2 then Parsed(Pending, buf)
    else
      var n := buf[1] as int;
      // the remaining length is cast to eight bits before it is compared
      if (|buf| - 2) % 0x100 < n then Parsed(Pending, buf)
      else Parsed(Item(Negotiation(buf[0], n, buf[2..2 + n])), buf[2 + n..])
  }

  /** The length a target request announces, or none for an unknown address type. */
  function TargetLength(buf: seq<byte>): Option<nat>
    requires |buf| >= 5
  {
    match buf[3]
    case 1 => Some(10)
    case 3 => Some(7 + buf[4] as int)
    case 4 => Some(22)
    case _ => None
  }

  /** What a complete packet means; none where the parser panics. */
  function ReadTarget(packet: seq<byte>): Option<TargetRequest>
    requires |packet| >= 5 && TargetLength(packet) == Some(|packet|)
  {
    match CommandOf(packet[1])
    case None => None
    case Some(command) =>
      match packet[3]
      case 1 => Some(TargetRequest(5, command, 0, IpV4, IPV4(packet[4..8]), ReadI16(packet[8..10])))
      case 3 =>
        var n := packet[4] as int;
        var name := packet[5..5 + n];
        if Utf8.Valid(name)
        then Some(TargetRequest(5, command, 0, DomainName, DOMAIN(name), ReadI16(packet[5 + n..7 + n])))
        else None
      case _ => Some(TargetRequest(5, command, 0, IpV6, IPV6(packet[4..20]), ReadI16(packet[20..22])))
  }

  function DecodeTarget(buf: seq<byte>): Parsed {
    if |buf| < 5 then Parsed(Pending, buf)
    else
      match TargetLength(buf)
      case None => Parsed(Panic, buf)
      case Some(len) =>
        if |buf| < len then Parsed(Pending, buf)
        else
          match ReadTarget(buf[..len])
          case None => Parsed(Panic, buf[len..])
          case Some(request) => Parsed(Item(Target(request)), buf[len..])
  }

  function DecodeData(buf: seq<byte>): Parsed {
    if |buf| == 0 then Parsed(Pending, buf) else Parsed(Item(Data(buf)), [])
  }

  function DecodeRequest(phase: Phase, buf: seq<byte>): Parsed {
    match phase
    case NEGOTIATION => DecodeGreeting(buf)
    case WORKING => DecodeTarget(buf)
    case READY => DecodeData(buf)
  }

  /** The order of the items of one stream: the phase after `item`, if `item` may come next. */
  function Accept(phase: Phase, item: SocksRequest): Option<Phase> {
    match (phase, item)
    case (NEGOTIATION, Negotiation(_, _, _)) => Some(WORKING)
    case (WORKING, Target(_)) => Some(READY)
    case (READY, Data(data)) => if data == [] then None else Some(READY)
    case _ => None
  }

  class Socks5RequestCodec {
    var state: Phase

    constructor ()
      ensures state == NEGOTIATION
    {
      state := NEGOTIATION;
    }

    method DecodeMethodSelection(src: BytesMut) returns (r: Outcome<SocksRequest>)
      requires src.Valid()
      modifies src
      ensures src.Valid() && Parsed(r, src.bytes) == DecodeGreeting(old(src.bytes))
    {
      if |src.bytes| < 2 {
        return Pending;
      }
      var nM := src.bytes[1];
      var len := (|src.bytes| - 2) % 0x100;
      if len < nM {
        return Pending;
      }
      var firstTwo := src.SplitTo(2);
      var version := firstTwo.bytes[0];
      var nMethods := firstTwo.bytes[1];
      assert src.bytes == old(src.bytes)[2..];
      var rest := src.SplitTo(nMethods);
      assert rest.bytes == old(src.bytes)[2..2 + nMethods as int];
      assert src.bytes == old(src.bytes)[2 + nMethods as int..];
      return Item(Negotiation(version, nMethods, rest.bytes));
    }

    method DecodeTargetRequest(src: BytesMut) returns (r: Outcome<SocksRequest>)
      requires src.Valid()
      modifies src
      ensures src.Valid() && Parsed(r, src.bytes) == DecodeTarget(old(src.bytes))
    {
      if |src.bytes| < 5 {
        return Pending;
      }
      var len: nat;
      match src.bytes[3] {
        case 1 => len := 10;
        case 3 => len := 7 + src.bytes[4] as int;
        case 4 => len := 22;
        case _ => return Panic;
      }
      if |src.bytes| < len {
        return Pending;
      }
      var split := src.SplitTo(len);
      var packet := split.bytes;
      var command := CommandOf(packet[1]);
      if command.None? {
        return Panic;
      }
      match packet[3] {
        case 1 =>
          var port := ReadI16(packet[8..10]);
          return Item(Target(TargetRequest(5, command.value, 0, IpV4, IPV4(packet[4..8]), port)));
        case 3 =>
          var n := packet[4] as int;
          var name := packet[5..5 + n];
          if !Utf8.Valid(name) {
            return Panic;
          }
          var port := ReadI16(packet[5 + n..7 + n]);
          return Item(Target(TargetRequest(5, command.value, 0, DomainName, DOMAIN(name), port)));
        case _ =>
          var port := ReadI16(packet[20..22]);
          return Item(Target(TargetRequest(5, command.value, 0, IpV6, IPV6(packet[4..20]), port)));
      }
    }

    method DecodeRest(src: BytesMut) returns (r: Outcome<SocksRequest>)
      requires src.Valid()
      modifies src
      ensures src.Valid() && Parsed(r, src.bytes) == DecodeData(old(src.bytes))
    {
      if |src.bytes| == 0 {
        return Pending;
      }
      var all := src.Take();
      return Item(Data(all));
    }

    /** The phase advances exactly when an item is returned. */
    method Decode(src: BytesMut) returns (r: Outcome<SocksRequest>)
      requires src.Valid()
      modifies this, src
      ensures src.Valid()
      ensures Parsed(r, src.bytes) == DecodeRequest(old(state), old(src.bytes))
      ensures if r.Item? then Accept(old(state), r.item) == Some(state) else state == old(state)
    {
      match state {
        case NEGOTIATION =>
          r := DecodeMethodSelection(src);
          if r.Item? {
            state := WORKING;
          }
        case WORKING =>
          r := DecodeTargetRequest(src);
          if r.Item? {
            state := READY;
          }
        case READY =>
          r := DecodeRest(src);
      }
    }
  }

  // ---- What the parser guarantees ----

  /** The greeting parser never splits past the end, agrees with the RFC on every buffer of at most
      257 bytes, and on any buffer disagrees exactly when the length wraps below the method count. */
  lemma GreetingExactly(buf: seq<byte>)
    ensures var item := DecodeGreeting(buf).outcome.Item?;
      && (item ==> GreetingPresent(buf)
                   && DecodeGreeting(buf) == Parsed(Item(GreetingOf(buf)), buf[2 + buf[1] as int..]))
      && (|buf| <= 257 ==> (item <==> GreetingPresent(buf)))
      && ((item <==> GreetingPresent(buf)) <==> !(|buf| >= 2 && (|buf| - 2) % 0x100 < buf[1] as int <= |buf| - 2))
  {
  }

  /** Every greeting that names a method is overlooked when exactly 256 bytes follow its first two. */
  lemma GreetingOverlooked(version: byte, methods: seq<byte>, tail: seq<byte>)
    requires 1 <= |methods| <= 255 && |methods| + |tail| == 256
    ensures DecodeGreeting(GreetingBytes(version, methods) + tail).outcome.Pending?
  {
  }

  lemma GreetingRoundTrip(version: byte, methods: seq<byte>, tail: seq<byte>)
    requires |methods| + |tail| <= 255
    ensures DecodeGreeting(GreetingBytes(version, methods) + tail)
         == Parsed(Item(Negotiation(version, |methods|, methods)), tail)
  {
  }

  lemma SignedRoundTrip(n: u16, m: i16)
    ensures Unsigned(Signed(n)) == n && Signed(Unsigned(m)) == m
  {
  }

  /** A request of section 4 of RFC 1928, followed by anything, is read back with version and
      reserved byte normalised and the port as a signed number. */
  lemma TargetRoundTrip(version: byte, command: Command, reserved: byte, address: Address, port: u16, tail: seq<byte>)
    requires Encodable(address)
    ensures DecodeTarget(TargetBytes(version, command, reserved, address, port) + tail)
         == Parsed(Item(Target(TargetRequest(5, command, 0, address.Type(), address, Signed(port)))), tail)
  {
    var packet := TargetBytes(version, command, reserved, address, port);
    var buf := packet + tail;
    assert buf[..|packet|] == packet && buf[|packet|..] == tail;
    PacketReadBack(version, command, reserved, address, port);
  }

  lemma PacketReadBack(version: byte, command: Command, reserved: byte, address: Address, port: u16)
    requires Encodable(address)
    ensures var packet := TargetBytes(version, command, reserved, address, port);
      && |packet| >= 5 && TargetLength(packet) == Some(|packet|)
      && ReadTarget(packet) == Some(TargetRequest(5, command, 0, address.Type(), address, Signed(port)))
  {
    var packet := TargetBytes(version, command, reserved, address, port);
    var k := |packet|;
    assert packet[k - 2..] == PutU16(port);
    assert packet[k - 2..k] == packet[k - 2..];
    assert packet[3..k - 2] == AddressBytes(address);
    U16RoundTrip(port, PutU16(port));
    match address
    case IPV4(v4) => assert packet[4..8] == AddressBytes(address)[1..] == v4;
    case DOMAIN(name) => assert packet[5..5 + |name|] == AddressBytes(address)[2..] == name;
    case IPV6(v6) => assert packet[4..20] == AddressBytes(address)[1..] == v6;
  }

  /** Conversely, every request the parser returns was on the wire in that format. */
  lemma {:induction false} TargetWasOnWire(buf: seq<byte>)
    requires DecodeTarget(buf).outcome.Item?
    ensures var r := DecodeTarget(buf).outcome.item.request;
      && Encodable(r.address)
      && r == TargetRequest(5, r.command, 0, r.address.Type(), r.address, r.port)
      && buf == TargetBytes(buf[0], r.command, buf[2], r.address, Unsigned(r.port)) + DecodeTarget(buf).rest
  {
    var r := DecodeTarget(buf).outcome.item.request;
    var k := TargetLength(buf).value;
    var packet := buf[..k];
    assert buf == packet + buf[k..];
    U16RoundTrip(0, packet[k - 2..]);
    SignedRoundTrip(ReadU16(packet[k - 2..]), r.port);
    PacketParts(packet);
    assert packet == packet[..3] + packet[3..k - 2] + packet[k - 2..];
  }

  lemma PacketParts(packet: seq<byte>)
    requires |packet| >= 5 && TargetLength(packet) == Some(|packet|) && ReadTarget(packet).Some?
    ensures var r := ReadTarget(packet).value;
      && Encodable(r.address)
      && packet[..3] == [packet[0], r.command.Code(), packet[2]]
      && packet[3..|packet| - 2] == AddressBytes(r.address)
      && ReadI16(packet[|packet| - 2..]) == r.port
  {
    var k := |packet|;
    match ReadTarget(packet).value.address
    case IPV4(v4) =>
      assert packet[8..10] == packet[8..];
      assert packet[3..8] == [1] + v4;
    case DOMAIN(name) =>
      assert packet[5 + |name|..7 + |name|] == packet[k - 2..];
      assert packet[3..k - 2] == [3, |name|] + name;
    case IPV6(v6) =>
      assert packet[20..22] == packet[20..];
      assert packet[3..20] == [4] + v6;
  }

  /** A decision about a target request, once made, is not changed by more bytes. */
  lemma TargetMonotone(buf: seq<byte>, more: seq<byte>)
    ensures var d := DecodeTarget(buf);
      && (d.outcome.Pending? ==> d.rest == buf)
      && (!d.outcome.Pending? ==> DecodeTarget(buf + more) == Parsed(d.outcome, d.rest + more))
  {
    if |buf| >= 5 && TargetLength(buf).Some? && |buf| >= TargetLength(buf).value {
      var k := TargetLength(buf).value;
      assert (buf + more)[..k] == buf[..k];
      assert (buf + more)[k..] == buf[k..] + more;
    }
  }

  /** The request at the head of the buffer is not all there. */
  predicate Incomplete(buf: seq<byte>) {
    || |buf| < 5
    || (buf[3] == 1 && |buf| < 10)
    || (buf[3] == 3 && |buf| < 7 + buf[4] as int)
    || (buf[3] == 4 && |buf| < 22)
  }

  /** A call waits exactly for an incomplete request. It panics exactly on a complete one with an unknown
      command or a name that is no text, and at once on an unknown address type. Otherwise it yields a
      request whose port is the last two bytes, big-endian and signed. */
  lemma TargetDecidedExactly(buf: seq<byte>)
    ensures var d := DecodeTarget(buf);
      && (d.outcome.Pending? <==> Incomplete(buf))
      && (d.outcome.Panic? <==>
            && !Incomplete(buf)
            && (buf[3] !in {1, 3, 4} || buf[1] !in {1, 2, 3}
                || (buf[3] == 3 && !Utf8.Valid(buf[5..5 + buf[4] as int]))))
      && !d.outcome.Error?
      && (d.outcome.Item? ==>
            var k := |buf| - |d.rest|;
            k >= 7 && Unsigned(d.outcome.item.request.port) == 0x100 * buf[k - 2] as int + buf[k - 1] as int)
  {
    if !Incomplete(buf) && TargetLength(buf).Some? {
      var k := TargetLength(buf).value;
      var packet := buf[..k];
      assert packet[k - 2..k] == buf[k - 2..k];
      if buf[3] == 3 {
        assert packet[5..5 + buf[4] as int] == buf[5..5 + buf[4] as int];
      }
      SignedRoundTrip(ReadU16(packet[k - 2..k]), 0);
    }
  }

  /** Every item shortens the buffer, so draining it terminates, and obeys the order of items. */
  lemma ItemsProgress(phase: Phase, buf: seq<byte>)
    requires DecodeRequest(phase, buf).outcome.Item?
    ensures |DecodeRequest(phase, buf).rest| < |buf|
    ensures Accept(phase, DecodeRequest(phase, buf).outcome.item).Some?
  {
  }
}
