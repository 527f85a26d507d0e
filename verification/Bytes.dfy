/** Bytes, big-endian numbers and the growable buffer every codec reads from and writes to. */
module Bytes {
  type byte = x: int | 0 <= x < 0x100
  type u16 = x: int | 0 <= x < 0x1_0000
  type u32 = x: int | 0 <= x < 0x1_0000_0000

  /** What one call of an incremental decoder yields. `Panic` stands for a Rust panic. */
  datatype Outcome<+T> = Pending | Item(item: T) | Error | Panic

  datatype Option<+T> = None | Some(value: T)

  function PutU16(n: u16): (s: seq<byte>)
    ensures |s| == 2
  {
    [n / 0x100, n % 0x100]
  }

  function ReadU16(s: seq<byte>): u16
    requires |s| >= 2
  {
    s[0] as int * 0x100 + s[1] as int
  }

  function PutU32(n: u32): (s: seq<byte>)
    ensures |s| == 4
  {
    [n / 0x100_0000, n / 0x1_0000 % 0x100, n / 0x100 % 0x100, n % 0x100]
  }

  function ReadU32(s: seq<byte>): u32
    requires |s| >= 4
  {
    s[0] as int * 0x100_0000 + s[1] as int * 0x1_0000 + s[2] as int * 0x100 + s[3] as int
  }

  /** `write_u16` and `read_u16` are inverse to each other. */
  lemma U16RoundTrip(n: u16, s: seq<byte>)
    requires |s| == 2
    ensures ReadU16(PutU16(n)) == n
    ensures PutU16(ReadU16(s)) == s
  {
  }

  /** `write_u32` and `read_u32` are inverse to each other. */
  lemma U32RoundTrip(n: u32, s: seq<byte>)
    requires |s| == 4
    ensures ReadU32(PutU32(n)) == n
    ensures PutU32(ReadU32(s)) == s
  {
    var m: int := ReadU32(s);
    var a: int, b: int, c: int := s[0], s[1], s[2];
    assert m / 0x100 == a * 0x1_0000 + b * 0x100 + c;
    assert m / 0x1_0000 == a * 0x100 + b;
    assert m / 0x100_0000 == a;
  }

  /** The buffer of the `bytes` crate. Writing beyond the capacity panics, so `Put` demands room;
      only `Reserve` makes room. */
  class BytesMut {
    var bytes: seq<byte>
    var capacity: nat

    ghost predicate Valid()
      reads this
    {
      |bytes| <= capacity
    }

    constructor ()
      ensures Valid() && bytes == []
    {
      bytes, capacity := [], 0;
    }

    /** A buffer holding a copy of `data`. */
    constructor From(data: seq<byte>)
      ensures Valid() && bytes == data
    {
      bytes, capacity := data, |data|;
    }

    method Reserve(additional: nat)
      requires Valid()
      modifies this
      ensures Valid() && bytes == old(bytes)
      ensures capacity - |bytes| >= additional && capacity >= old(capacity)
    {
      if capacity - |bytes| < additional {
        capacity := |bytes| + additional;
      }
    }

    method Put(data: seq<byte>)
      requires Valid() && |bytes| + |data| <= capacity
      modifies this
      ensures Valid() && bytes == old(bytes) + data && capacity == old(capacity)
    {
      bytes := bytes + data;
    }

    /** Cuts off and returns the first `at` bytes. */
    method SplitTo(at: nat) returns (front: BytesMut)
      requires Valid() && at <= |bytes|
      modifies this
      ensures Valid() && fresh(front) && front.Valid()
      ensures front.bytes == old(bytes)[..at] && bytes == old(bytes)[at..]
    {
      front := new BytesMut.From(bytes[..at]);
      bytes, capacity := bytes[at..], capacity - at;
    }

    method Truncate(len: nat)
      requires Valid() && len <= |bytes|
      modifies this
      ensures Valid() && bytes == old(bytes)[..len]
    {
      bytes := bytes[..len];
    }

    /** Empties the buffer and returns what it held. */
    method Take() returns (all: seq<byte>)
      requires Valid()
      modifies this
      ensures Valid() && bytes == [] && all == old(bytes)
    {
      all := bytes;
      bytes, capacity := [], capacity - |bytes|;
    }
  }
}
