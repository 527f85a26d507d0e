/** The frame format: a sealed header of eleven bytes, then the sealed payload, which is bound to
    the sealed header as associated data. One codec serves requests and responses. */
module FrameCodec {
  import opened Bytes
  import opened Messages
  import opened Aead
  import Utf8

  const HEADER := 11

  datatype Decoded = Decoded(outcome: Outcome<Message>, rest: seq<byte>)

  function Header(item: Message, random: seq<byte>): seq<byte> {
    PutU16(item.uuid) + random + PutU32(item.transferLen % 0x1_0000_0000) + [item.transferType]
  }

  /** The cipher accepts both parts. */
  predicate CanSeal(c: Cipher, item: Message) {
    HEADER <= c.limit && |item.transfer.Payload()| <= c.limit
  }

  function EncodeFrame(c: Cipher, item: Message, random: seq<byte>): seq<byte> {
    var first := c.seal([], Header(item, random));
    first + c.seal(first, item.transfer.Payload())
  }

  /** How the opened payload is read. */
  function ReadPayload(kind: byte, uuid: u16, len: nat, plain: seq<byte>): Outcome<Message> {
    match kind
    case 0 => Item(Message(uuid, len, 0, Data(plain)))
    case 1 => if Utf8.Valid(plain) then Item(Message(uuid, len, 1, RequestAddr(plain))) else Panic
    case 2 =>
      if |plain| != 1 then Panic
      else (
        match KindOf(plain[0])
        case Some(k) => Item(Message(uuid, len, 2, Response(k)))
        case None => Panic)
    case 3 => if |plain| < 4 then Panic else Item(Message(uuid, len, 3, Heartbeat(ReadU32(plain))))
    case _ => Panic
  }

  /** One call of `decode` on a buffer. */
  function DecodeFrame(c: Cipher, buf: seq<byte>): (d: Decoded)
    requires c.Lawful()
  {
    var first := HEADER + c.tagLen;
    if |buf| < first then Decoded(Pending, buf)
    else
      match c.open([], buf[..first])
      case None => Decoded(Error, buf)
      case Some(header) =>
        var len := ReadU32(header[6..10]);
        var total := first + len + c.tagLen;
        if |buf| < total then Decoded(Pending, buf)
        else
          match c.open(buf[..first], buf[first..total])
          case None => Decoded(Error, buf[total..])
          case Some(plain) =>
            Decoded(ReadPayload(header[10], ReadU16(header), len, plain), buf[total..])
  }

  class Codec {
    const cipher: Cipher

    constructor (cipher: Cipher)
      ensures this.cipher == cipher
    {
      this.cipher := cipher;
    }

    /** Appends one frame. Every `Put` finds the room that was reserved for it. */
    method Encode(item: Message, random: seq<byte>, dst: BytesMut) returns (ok: bool)
      requires cipher.Lawful() && MadeByNew(item) && |random| == 4 && dst.Valid()
      modifies dst
      ensures dst.Valid()
      ensures ok == CanSeal(cipher, item)
      ensures dst.bytes == if ok then old(dst.bytes) + EncodeFrame(cipher, item, random) else old(dst.bytes)
    {
      var parse1 := FillHeader(item, random);
      ok := SealInPlace(cipher, [], parse1);
      if !ok {
        return;
      }
      assert parse1.bytes == cipher.seal([], Header(item, random));
      var parse2 := FillPayload(item);
      ok := SealInPlace(cipher, parse1.bytes, parse2);
      if !ok {
        return;
      }
      assert parse2.bytes == cipher.seal(parse1.bytes, item.transfer.Payload());
      dst.Reserve(6 + 4 + 1 + cipher.tagLen + item.transferLen + cipher.tagLen);
      dst.Put(parse1.bytes);
      dst.Put(parse2.bytes);
      assert dst.bytes == old(dst.bytes) + EncodeFrame(cipher, item, random);
    }

    /** `parse1_buf`: the header and room for its tag. */
    method FillHeader(item: Message, random: seq<byte>) returns (parse1: BytesMut)
      requires |random| == 4
      ensures fresh(parse1) && parse1.Valid()
      ensures |parse1.bytes| == HEADER + cipher.tagLen && parse1.bytes[..HEADER] == Header(item, random)
    {
      parse1 := new BytesMut();
      parse1.Reserve(6 + 4 + 1 + cipher.tagLen);
      parse1.Put(PutU16(item.uuid));
      parse1.Put(random);
      parse1.Put(PutU32(item.transferLen % 0x1_0000_0000));
      parse1.Put([item.transferType]);
      PutZeros(parse1, cipher.tagLen, Header(item, random));
    }

    /** `parse2_buf`: the payload and room for its tag. */
    method FillPayload(item: Message) returns (parse2: BytesMut)
      requires MadeByNew(item)
      ensures fresh(parse2) && parse2.Valid()
      ensures |parse2.bytes| == item.transferLen + cipher.tagLen
      ensures parse2.bytes[..item.transferLen] == item.transfer.Payload()
    {
      parse2 := new BytesMut();
      parse2.Reserve(item.transferLen + cipher.tagLen);
      match item.transfer {
        case Data(data) => parse2.Put(data);
        case RequestAddr(addr) => parse2.Put(addr);
        case Response(kind) => parse2.Put([kind.Code()]);
        case Heartbeat(index) => parse2.Put(PutU32(index));
      }
      PutZeros(parse2, cipher.tagLen, item.transfer.Payload());
    }

    /** The tag-padding loop: room for the tag behind `plain`. */
    method PutZeros(buffer: BytesMut, count: nat, ghost plain: seq<byte>)
      requires buffer.Valid() && buffer.bytes == plain && |plain| + count <= buffer.capacity
      modifies buffer
      ensures buffer.Valid() && |buffer.bytes| == |plain| + count && buffer.bytes[..|plain|] == plain
    {
      for i := 0 to count
        invariant buffer.Valid() && buffer.capacity == old(buffer.capacity)
        invariant |buffer.bytes| == |plain| + i && buffer.bytes[..|plain|] == plain
      {
        buffer.Put([0]);
      }
    }

    /** Cuts at most one frame off `src`; the header is opened on a copy. */
    method Decode(src: BytesMut) returns (r: Outcome<Message>)
      requires cipher.Lawful() && src.Valid()
      modifies src
      ensures src.Valid()
      ensures Decoded(r, src.bytes) == DecodeFrame(cipher, old(src.bytes))
    {
      var tag := cipher.tagLen;
      if |src.bytes| < 6 + 4 + 1 + tag {
        return Pending;
      }
      var place := new BytesMut.From(src.bytes[..11 + tag]);
      var ok := OpenInPlace(cipher, [], place);
      if !ok {
        return Error;
      }
      var header := place.bytes[..11];
      var len := ReadU32(header[6..10]);
      var kind := header[10];
      var uuid := ReadU16(header);
      var total := 6 + 4 + 1 + tag + len + tag;
      if |src.bytes| < total {
        return Pending;
      }
      var packet := src.SplitTo(total);
      var parse1 := packet.SplitTo(11 + tag);
      assert parse1.bytes == old(src.bytes)[..11 + tag];
      assert packet.bytes == old(src.bytes)[11 + tag..total];
      ok := OpenInPlace(cipher, parse1.bytes, packet);
      if !ok {
        return Error;
      }
      var plain := packet.bytes[..|packet.bytes| - tag];
      match kind {
        case 0 =>
          packet.Truncate(|packet.bytes| - tag);
          return Item(Message(uuid, len, 0, Data(packet.bytes)));
        case 1 =>
          if !Utf8.Valid(plain) {
            return Panic;
          }
          return Item(Message(uuid, len, 1, RequestAddr(plain)));
        case 2 =>
          if |plain| != 1 {
            return Panic;
          }
          var k := KindOf(plain[0]);
          if k.None? {
            return Panic;
          }
          return Item(Message(uuid, len, 2, Response(k.value)));
        case 3 =>
          if |plain| < 4 {
            return Panic;
          }
          return Item(Message(uuid, len, 3, Heartbeat(ReadU32(plain))));
        case _ =>
          return Panic;
      }
    }
  }

  /** What a socket reader yields: everything that has arrived, if anything has. */
  class BytesCodec {
    constructor () {}

    method Decode(src: BytesMut) returns (r: Outcome<seq<byte>>)
      requires src.Valid()
      modifies src
      ensures src.Valid() && src.bytes == []
      ensures r == if old(src.bytes) == [] then Pending else Item(old(src.bytes))
    {
      if |src.bytes| == 0 {
        return Pending;
      }
      var all := src.Take();
      return Item(all);
    }
  }

  // ---- What the format guarantees ----

  /** The header survives sealing; the length field is the length modulo 2^32. */
  lemma HeaderFields(item: Message, random: seq<byte>)
    requires |random| == 4
    ensures var h := Header(item, random);
      && |h| == HEADER && ReadU16(h) == item.uuid && h[10] == item.transferType
      && ReadU32(h[6..10]) == item.transferLen % 0x1_0000_0000
  {
    var h := Header(item, random);
    var len := PutU32(item.transferLen % 0x1_0000_0000);
    assert h[6..10] == len;
    U32RoundTrip(item.transferLen % 0x1_0000_0000, len);
    U16RoundTrip(item.uuid, PutU16(item.uuid));
  }

  /** Reading back the payload of a new message. */
  lemma PayloadRoundTrip(m: Message)
    requires MadeByNew(m)
    ensures ReadPayload(m.transferType, m.uuid, m.transferLen, m.transfer.Payload()) == Item(m)
  {
    match m.transfer
    case Heartbeat(index) => U32RoundTrip(index, PutU32(index));
    case _ =>
  }

  /** A frame followed by anything decodes to its message and leaves exactly what followed. */
  lemma DecodeEncoded(c: Cipher, m: Message, random: seq<byte>, tail: seq<byte>)
    requires c.Lawful() && MadeByNew(m) && CanSeal(c, m) && |random| == 4
    requires m.transferLen < 0x1_0000_0000
    ensures DecodeFrame(c, EncodeFrame(c, m, random) + tail) == Decoded(Item(m), tail)
  {
    var frame := EncodeFrame(c, m, random);
    var buf := frame + tail;
    var first := c.seal([], Header(m, random));
    var second := c.seal(first, m.transfer.Payload());
    HeaderFields(m, random);
    var k := HEADER + c.tagLen;
    var total := k + m.transferLen + c.tagLen;
    assert buf[..k] == first;
    assert buf[k..total] == second;
    assert buf[total..] == tail;
    PayloadRoundTrip(m);
  }

  /** Encoding then decoding returns the message if and only if the length fits its 32-bit field. */
  lemma RoundTripExactly(c: Cipher, m: Message, random: seq<byte>, tail: seq<byte>)
    requires c.Lawful() && MadeByNew(m) && CanSeal(c, m) && |random| == 4
    ensures DecodeFrame(c, EncodeFrame(c, m, random) + tail) == Decoded(Item(m), tail)
      <==> m.transferLen < 0x1_0000_0000
  {
    if m.transferLen < 0x1_0000_0000 {
      DecodeEncoded(c, m, random, tail);
    } else {
      var buf := EncodeFrame(c, m, random) + tail;
      HeaderFields(m, random);
      assert buf[..HEADER + c.tagLen] == c.seal([], Header(m, random));
    }
  }

  /** A frame opens, part by part, to the uuid, four random bytes, the length modulo 2^32 and the type, and
      then the payload. */
  lemma FrameOpens(c: Cipher, m: Message, random: seq<byte>)
    requires c.Lawful() && MadeByNew(m) && CanSeal(c, m) && |random| == 4
    ensures var frame, k := EncodeFrame(c, m, random), 11 + c.tagLen;
      && |frame| == k + |m.transfer.Payload()| + c.tagLen
      && c.open(frame[..k], frame[k..]) == Some(m.transfer.Payload())
      && c.open([], frame[..k]).Some?
      && var h := c.open([], frame[..k]).value;
         && |h| == 11 && h[0] as int * 0x100 + h[1] as int == m.uuid && h[2..6] == random
         && BigEndian(h[6..10]) == m.transferLen % 0x1_0000_0000 && h[10] == m.transferType
  {
    var frame, k := EncodeFrame(c, m, random), 11 + c.tagLen;
    HeaderFields(m, random);
    assert frame[..k] == c.seal([], Header(m, random));
    assert frame[k..] == c.seal(frame[..k], m.transfer.Payload());
    assert ReadU32(Header(m, random)[6..10]) == BigEndian(Header(m, random)[6..10]);
  }

  /** The number four bytes stand for, the first counting most. */
  function BigEndian(s: seq<byte>): nat
    requires |s| == 4
  {
    ((s[0] as int * 0x100 + s[1]) * 0x100 + s[2]) * 0x100 + s[3]
  }

  /** An opened payload makes a message of that type: data of any kind, an address that is a text, one of
      four responses, a number in four bytes or more. */
  predicate Readable(kind: byte, plain: seq<byte>) {
    || kind == 0
    || (kind == 1 && Utf8.Valid(plain))
    || (kind == 2 && |plain| == 1 && plain[0] < 4)
    || (kind == 3 && |plain| >= 4)
  }

  /** Whoever sealed it, a frame that opens is cut off, yields what its bytes say if they are readable, and
      otherwise panics. */
  lemma OpenedDecidedExactly(c: Cipher, header: seq<byte>, plain: seq<byte>, tail: seq<byte>)
    requires c.Lawful() && HEADER <= c.limit && |plain| <= c.limit
    requires |header| == 11 && BigEndian(header[6..10]) == |plain|
    ensures var first := c.seal([], header);
      var d := DecodeFrame(c, first + c.seal(first, plain) + tail);
      && d.rest == tail
      && (d.outcome.Item? <==> Readable(header[10], plain))
      && (d.outcome.Panic? <==> !Readable(header[10], plain))
      && (d.outcome.Item? ==>
            var m := d.outcome.item;
            && m.uuid == header[0] as int * 0x100 + header[1] as int
            && m.transferLen == |plain| && m.transferType == header[10]
            && match m.transfer
               case Data(data) => header[10] == 0 && data == plain
               case RequestAddr(addr) => header[10] == 1 && addr == plain
               case Response(kind) => header[10] == 2 && [kind.Code()] == plain
               case Heartbeat(index) => header[10] == 3 && index == BigEndian(plain[..4]))
  {
    var first := c.seal([], header);
    var second := c.seal(first, plain);
    var buf := first + second + tail;
    var k := HEADER + c.tagLen;
    var total := k + |plain| + c.tagLen;
    assert buf[..k] == first && buf[k..total] == second && buf[total..] == tail;
    assert ReadU32(header[6..10]) == BigEndian(header[6..10]);
  }

  /** A header that does not open is an error and stays; a payload that does not is an error and goes. */
  lemma TamperedRefused(c: Cipher, buf: seq<byte>)
    requires c.Lawful() && |buf| >= 11 + c.tagLen
    ensures var first := buf[..11 + c.tagLen];
      && (c.open([], first).None? ==> DecodeFrame(c, buf) == Decoded(Error, buf))
      && (c.open([], first).Some? ==>
            var len := BigEndian(c.open([], first).value[6..10]);
            var total := 11 + c.tagLen + len + c.tagLen;
            |buf| >= total && c.open(first, buf[11 + c.tagLen..total]).None? ==>
              DecodeFrame(c, buf) == Decoded(Error, buf[total..]))
  {
  }

  /** A frame that has not fully arrived yields nothing and stays where it is. */
  lemma StrictPrefixPending(c: Cipher, m: Message, random: seq<byte>, n: nat)
    requires c.Lawful() && MadeByNew(m) && CanSeal(c, m) && |random| == 4
    requires m.transferLen < 0x1_0000_0000 && n < |EncodeFrame(c, m, random)|
    ensures DecodeFrame(c, EncodeFrame(c, m, random)[..n]) == Decoded(Pending, EncodeFrame(c, m, random)[..n])
  {
    var buf := EncodeFrame(c, m, random)[..n];
    HeaderFields(m, random);
    if n >= HEADER + c.tagLen {
      assert buf[..HEADER + c.tagLen] == c.seal([], Header(m, random));
    }
  }

  /** Of any bytes at all: a decision, once made, is not changed by more bytes, and a pending call
      changes nothing. An item or a panic consumes at least a frame. */
  lemma DecodeMonotone(c: Cipher, buf: seq<byte>, more: seq<byte>)
    requires c.Lawful()
    ensures var d := DecodeFrame(c, buf);
      && (d.outcome.Pending? ==> d.rest == buf)
      && (!d.outcome.Pending? ==> DecodeFrame(c, buf + more) == Decoded(d.outcome, d.rest + more))
      && (d.outcome.Item? || d.outcome.Panic? ==> |d.rest| + HEADER + 2 * c.tagLen <= |buf|)
  {
    var first := HEADER + c.tagLen;
    if |buf| >= first {
      assert (buf + more)[..first] == buf[..first];
      var header := c.open([], buf[..first]);
      if header.Some? {
        var total := first + ReadU32(header.value[6..10]) + c.tagLen;
        if |buf| >= total {
          assert (buf + more)[first..total] == buf[first..total];
          assert (buf + more)[total..] == buf[total..] + more;
        }
      }
    }
  }
}
