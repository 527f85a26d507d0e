/** The text of a target address: host, colon, decimal port. */
module AddressText {
  import opened Bytes
  import opened SocksMessages
  import Utf8

  const COLON: byte := 58
  const MINUS: byte := 45
  const DOT: byte := 46
  const ZERO: byte := 48

  function Digits(n: nat): seq<byte> {
    if n < 10 then [ZERO + n] else Digits(n / 10) + [ZERO + n % 10]
  }

  /** `to_string` of a number. */
  function Decimal(n: int): seq<byte> {
    if n < 0 then [MINUS] + Digits(-n) else Digits(n)
  }

  function Ipv4Text(v4: V4): seq<byte> {
    Digits(v4[0]) + [DOT] + Digits(v4[1]) + [DOT] + Digits(v4[2]) + [DOT] + Digits(v4[3])
  }

  /** The host part. How IPv6 addresses are written is a parameter. */
  function Host(v6Text: V6 -> Utf8.Text, address: Address): seq<byte> {
    match address
    case DOMAIN(name) => name
    case IPV6(v6) => v6Text(v6)
    case IPV4(v4) => Ipv4Text(v4)
  }

  function ToAddressString(v6Text: V6 -> Utf8.Text, r: TargetRequest): seq<byte> {
    Host(v6Text, r.address) + [COLON] + Decimal(r.port)
  }

  // ---- Reading the text back ----

  predicate IsDigits(s: seq<byte>) {
    forall i :: 0 <= i < |s| ==> ZERO <= s[i] <= ZERO + 9
  }

  function ReadDigits(s: seq<byte>): int {
    if s == [] then 0 else 10 * ReadDigits(s[..|s| - 1]) + s[|s| - 1] as int - ZERO as int
  }

  function ReadDecimal(s: seq<byte>): int {
    if s != [] && s[0] == MINUS then -ReadDigits(s[1..]) else ReadDigits(s)
  }

  /** The part behind the last colon. */
  function AfterLastColon(s: seq<byte>): (t: seq<byte>)
    ensures |t| <= |s|
  {
    if s == [] || s[|s| - 1] == COLON then []
    else AfterLastColon(s[..|s| - 1]) + [s[|s| - 1]]
  }

  lemma {:induction false} DigitsReadBack(n: nat)
    ensures IsDigits(Digits(n)) && Digits(n) != [] && ReadDigits(Digits(n)) == n
  {
    if n >= 10 {
      DigitsReadBack(n / 10);
      var d := Digits(n);
      assert d[..|d| - 1] == Digits(n / 10);
    } else {
      assert ReadDigits([]) == 0 && [(ZERO + n) as byte][..0] == [];
    }
  }

  lemma DecimalReadBack(n: int)
    ensures ReadDecimal(Decimal(n)) == n
    ensures forall i :: 0 <= i < |Decimal(n)| ==> Decimal(n)[i] != COLON && Decimal(n)[i] <= 0x7F
  {
    DigitsReadBack(if n < 0 then -n else n);
    if n < 0 {
      assert Decimal(n)[1..] == Digits(-n);
    }
  }

  lemma {:induction false} AfterLastColonOf(host: seq<byte>, t: seq<byte>)
    requires forall i :: 0 <= i < |t| ==> t[i] != COLON
    ensures AfterLastColon(host + [COLON] + t) == t
  {
    var s := host + [COLON] + t;
    if t != [] {
      AfterLastColonOf(host, t[..|t| - 1]);
      assert s[..|s| - 1] == host + [COLON] + t[..|t| - 1];
    }
  }

  /** Host and port can be read back from the text, brackets or no brackets. */
  lemma AddressReadBack(host: seq<byte>, port: int)
    ensures var s := host + [COLON] + Decimal(port);
      var t := AfterLastColon(s);
      && ReadDecimal(t) == port && |t| < |s| && s[..|s| - |t| - 1] == host
  {
    DecimalReadBack(port);
    AfterLastColonOf(host, Decimal(port));
  }

  /** So different hosts or ports never give the same text. */
  lemma AddressInjective(v6Text: V6 -> Utf8.Text, r: TargetRequest, s: TargetRequest)
    requires ToAddressString(v6Text, r) == ToAddressString(v6Text, s)
    ensures Host(v6Text, r.address) == Host(v6Text, s.address) && r.port == s.port
  {
    AddressReadBack(Host(v6Text, r.address), r.port);
    AddressReadBack(Host(v6Text, s.address), s.port);
  }

  /** A number as it is written: no digit but 0 starts with 0. */
  predicate IsNumeral(s: seq<byte>) {
    s != [] && IsDigits(s) && (s[0] == ZERO ==> |s| == 1)
  }

  /** The part up to the first dot, or all. */
  function UpToDot(s: seq<byte>): (t: seq<byte>)
    ensures t <= s
  {
    if s == [] || s[0] == DOT then [] else [s[0]] + UpToDot(s[1..])
  }

  /** The numbers of a dotted text; none if a part is not the numeral of an octet. */
  function ReadDotted(s: seq<byte>): Option<seq<byte>>
    decreases |s|
  {
    var head := UpToDot(s);
    if !IsNumeral(head) || ReadDigits(head) > 0xFF || ReadDigits(head) < 0 then None
    else if |head| == |s| then Some([ReadDigits(head)])
    else
      match ReadDotted(s[|head| + 1..])
      case Some(rest) => Some([ReadDigits(head)] + rest)
      case None => None
  }

  lemma {:induction false} DigitsNumeral(n: nat)
    ensures IsNumeral(Digits(n))
    ensures n > 0 ==> Digits(n)[0] != ZERO
  {
    DigitsReadBack(n);
    if n >= 10 {
      DigitsNumeral(n / 10);
      assert Digits(n)[0] == Digits(n / 10)[0];
    }
  }

  lemma {:induction false} UpToDotOf(s: seq<byte>, rest: seq<byte>)
    requires IsDigits(s)
    ensures UpToDot(s) == s && UpToDot(s + [DOT] + rest) == s
  {
    if s != [] {
      UpToDotOf(s[1..], rest);
      assert (s + [DOT] + rest)[1..] == s[1..] + [DOT] + rest;
    }
  }

  lemma {:induction false} OneNumeral(n: byte)
    ensures ReadDotted(Digits(n)) == Some([n])
  {
    DigitsReadBack(n);
    DigitsNumeral(n);
    UpToDotOf(Digits(n), []);
  }

  lemma {:induction false} OneMore(n: byte, rest: seq<byte>, octets: seq<byte>)
    requires ReadDotted(rest) == Some(octets)
    ensures ReadDotted(Digits(n) + [DOT] + rest) == Some([n] + octets)
  {
    var head := Digits(n);
    DigitsReadBack(n);
    DigitsNumeral(n);
    UpToDotOf(head, rest);
    assert (head + [DOT] + rest)[|head| + 1..] == rest;
  }

  lemma {:induction false} LastTwo(c: byte, d: byte)
    ensures ReadDotted(Digits(c) + [DOT] + Digits(d)) == Some([c, d])
  {
    OneNumeral(d);
    OneMore(c, Digits(d), [d]);
    assert [c] + [d] == [c, d];
  }

  lemma {:induction false} LastThree(b: byte, c: byte, d: byte)
    ensures ReadDotted(Digits(b) + [DOT] + (Digits(c) + [DOT] + Digits(d))) == Some([b, c, d])
  {
    LastTwo(c, d);
    OneMore(b, Digits(c) + [DOT] + Digits(d), [c, d]);
    assert [b] + [c, d] == [b, c, d];
  }

  lemma {:induction false} AllFour(a: byte, b: byte, c: byte, d: byte)
    ensures ReadDotted(Digits(a) + [DOT] + (Digits(b) + [DOT] + (Digits(c) + [DOT] + Digits(d)))) == Some([a, b, c, d])
  {
    LastThree(b, c, d);
    OneMore(a, Digits(b) + [DOT] + (Digits(c) + [DOT] + Digits(d)), [b, c, d]);
    assert [a] + [b, c, d] == [a, b, c, d];
  }

  /** The text of an IPv4 address reads as its octets, in wire order. */
  lemma {:induction false} Ipv4ReadBack(v4: V4)
    ensures ReadDotted(Ipv4Text(v4)) == Some(v4)
  {
    AllFour(v4[0], v4[1], v4[2], v4[3]);
    FourParts(Digits(v4[0]), Digits(v4[1]), Digits(v4[2]), Digits(v4[3]));
    assert [v4[0], v4[1], v4[2], v4[3]] == v4;
  }

  lemma {:induction false} FourParts(a: seq<byte>, b: seq<byte>, c: seq<byte>, d: seq<byte>)
    ensures a + [DOT] + b + [DOT] + c + [DOT] + d == a + [DOT] + (b + [DOT] + (c + [DOT] + d))
  {
  }

  /** The part before the last colon. */
  function BeforeLastColon(s: seq<byte>): seq<byte> {
    var n := |AfterLastColon(s)|;
    if n < |s| then s[..|s| - n - 1] else s
  }

  /** A text names an address and a port: before the last colon stands the name itself, the octets in wire
      order, or the text of the sixteen bytes; behind it the numeral of the port. */
  predicate Names(v6Text: V6 -> Utf8.Text, text: seq<byte>, address: Address, port: int) {
    var host := BeforeLastColon(text);
    && (match address
        case DOMAIN(name) => host == name
        case IPV4(v4) => ReadDotted(host) == Some(v4)
        case IPV6(v6) => host == v6Text(v6))
    && IsPortText(AfterLastColon(text), port)
  }

  /** What is dialled is what was asked for. */
  lemma TextNamesTarget(v6Text: V6 -> Utf8.Text, r: TargetRequest)
    ensures Names(v6Text, ToAddressString(v6Text, r), r.address, r.port)
  {
    TextParts(v6Text, r);
    PortText(r.port);
    if r.address.IPV4? {
      Ipv4ReadBack(r.address.v4);
    }
  }

  /** The numeral of a number, behind a minus if it is negative. */
  predicate IsPortText(text: seq<byte>, port: int) {
    && ReadDecimal(text) == port && text != [] && (text[0] == MINUS <==> port < 0)
    && IsNumeral(if text[0] == MINUS then text[1..] else text)
  }

  lemma PortText(port: int)
    ensures IsPortText(Decimal(port), port)
  {
    var n := if port < 0 then -port else port;
    DecimalReadBack(port);
    DigitsReadBack(n);
    DigitsNumeral(n);
    assert port < 0 ==> Decimal(port)[1..] == Digits(n);
  }

  lemma TextParts(v6Text: V6 -> Utf8.Text, r: TargetRequest)
    ensures BeforeLastColon(ToAddressString(v6Text, r)) == Host(v6Text, r.address)
    ensures AfterLastColon(ToAddressString(v6Text, r)) == Decimal(r.port)
  {
    AddressReadBack(Host(v6Text, r.address), r.port);
    DecimalReadBack(r.port);
    AfterLastColonOf(Host(v6Text, r.address), Decimal(r.port));
  }

  /** The port in the text is the port on the wire if and only if it is below 32768; otherwise it
      is 65536 less. */
  lemma PortTextExactly(v6Text: V6 -> Utf8.Text, r: TargetRequest, wire: u16)
    requires r.port == Signed(wire)
    ensures var t := AfterLastColon(ToAddressString(v6Text, r));
      && (ReadDecimal(t) == wire <==> wire < 0x8000)
      && (wire >= 0x8000 ==> ReadDecimal(t) == wire - 0x1_0000)
  {
    AddressReadBack(Host(v6Text, r.address), r.port);
  }

  /** The text is a string: the far end can read it as UTF-8. */
  lemma AddressIsText(v6Text: V6 -> Utf8.Text, r: TargetRequest)
    ensures Utf8.Valid(ToAddressString(v6Text, r))
  {
    var host := Host(v6Text, r.address);
    if r.address.IPV4? {
      var v4 := r.address.v4;
      DigitsReadBack(v4[0]);
      DigitsReadBack(v4[1]);
      DigitsReadBack(v4[2]);
      DigitsReadBack(v4[3]);
      Utf8.AsciiValid(host);
    }
    DecimalReadBack(r.port);
    Utf8.AsciiValid([COLON]);
    Utf8.AsciiValid(Decimal(r.port));
    Utf8.ValidConcat(host, [COLON]);
    Utf8.ValidConcat(host + [COLON], Decimal(r.port));
  }
}
