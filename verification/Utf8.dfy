/** Well-formed UTF-8 (section 4 of RFC 3629), the invariant of every Rust `String`. */
module Utf8 {
  import opened Bytes

  predicate Tail(b: byte) {
    0x80 <= b <= 0xBF
  }

  /** The length of the well-formed character at the head of `s`, or 0. */
  function CharLength(s: seq<byte>): (n: nat)
    ensures n <= |s| && n <= 4
  {
    if |s| >= 1 && s[0] <= 0x7F then 1
    else if |s| >= 2 && 0xC2 <= s[0] <= 0xDF && Tail(s[1]) then 2
    else if |s| >= 3 && 0xE0 <= s[0] <= 0xEF && Tail(s[1]) && Tail(s[2])
            && (s[0] == 0xE0 ==> s[1] >= 0xA0) && (s[0] == 0xED ==> s[1] <= 0x9F) then 3
    else if |s| >= 4 && 0xF0 <= s[0] <= 0xF4 && Tail(s[1]) && Tail(s[2]) && Tail(s[3])
            && (s[0] == 0xF0 ==> s[1] >= 0x90) && (s[0] == 0xF4 ==> s[1] <= 0x8F) then 4
    else 0
  }

  /** What `String::from_utf8` accepts. */
  predicate Valid(s: seq<byte>) {
    s == [] || (CharLength(s) > 0 && Valid(s[CharLength(s)..]))
  }

  type Text = s: seq<byte> | Valid(s) witness []

  lemma HeadKeepsLength(a: seq<byte>, b: seq<byte>)
    requires CharLength(a) > 0
    ensures CharLength(a + b) == CharLength(a)
    ensures (a + b)[CharLength(a)..] == a[CharLength(a)..] + b
  {
    assert forall i :: 0 <= i < |a| ==> (a + b)[i] == a[i];
  }

  lemma {:induction false} ValidConcat(a: seq<byte>, b: seq<byte>)
    requires Valid(a) && Valid(b)
    ensures Valid(a + b)
  {
    if a == [] {
      assert a + b == b;
    } else {
      HeadKeepsLength(a, b);
      ValidConcat(a[CharLength(a)..], b);
    }
  }

  lemma {:induction false} AsciiValid(s: seq<byte>)
    requires forall i :: 0 <= i < |s| ==> s[i] <= 0x7F
    ensures Valid(s)
  {
    if s != [] {
      AsciiValid(s[1..]);
    }
  }

  // ---- What validity means ----

  /** A Unicode scalar value: a code point that is no surrogate. */
  type Scalar = n: int | 0 <= n < 0x11_0000 && !(0xD800 <= n < 0xE000)

  /** The octets of a character (section 3 of RFC 3629). */
  function Encoding(c: Scalar): (s: seq<byte>)
    ensures 1 <= |s| <= 4
  {
    if c < 0x80 then [c]
    else if c < 0x800 then [0xC0 + c / 0x40, 0x80 + c % 0x40]
    else if c < 0x1_0000 then [0xE0 + c / 0x1000, 0x80 + c / 0x40 % 0x40, 0x80 + c % 0x40]
    else [0xF0 + c / 0x4_0000, 0x80 + c / 0x1000 % 0x40, 0x80 + c / 0x40 % 0x40, 0x80 + c % 0x40]
  }

  function Encodings(cs: seq<Scalar>): seq<byte> {
    if cs == [] then [] else Encoding(cs[0]) + Encodings(cs[1..])
  }

  lemma EncodingLength(c: Scalar)
    ensures CharLength(Encoding(c)) == |Encoding(c)|
  {
    if 0x800 <= c < 0x1_0000 {
      assert c / 0x1000 == 0 ==> c / 0x40 % 0x40 >= 0x20;
      assert c / 0x1000 == 0xD ==> c / 0x40 % 0x40 < 0x20;
    } else if 0x1_0000 <= c {
      assert c / 0x4_0000 == 0 ==> c / 0x1000 % 0x40 >= 0x10;
      assert c / 0x4_0000 == 4 ==> c / 0x1000 % 0x40 < 0x10;
    }
  }

  lemma TwoOctets(a: byte, b: byte)
    requires CharLength([a, b]) == 2
    ensures var n := (a as int - 0xC0) * 0x40 + (b as int - 0x80);
      0x80 <= n < 0x800 && Encoding(n) == [a, b]
  {
  }

  lemma ThreeOctets(a: byte, b: byte, c: byte)
    requires CharLength([a, b, c]) == 3
    ensures var n := (a as int - 0xE0) * 0x1000 + (b as int - 0x80) * 0x40 + (c as int - 0x80);
      0x800 <= n < 0x1_0000 && !(0xD800 <= n < 0xE000) && Encoding(n) == [a, b, c]
  {
    var x, y, z := a as int - 0xE0, b as int - 0x80, c as int - 0x80;
    var n := x * 0x1000 + y * 0x40 + z;
    assert n / 0x40 == x * 0x40 + y && n % 0x40 == z;
    assert n / 0x1000 == x;
  }

  lemma FourOctets(a: byte, b: byte, c: byte, d: byte)
    requires CharLength([a, b, c, d]) == 4
    ensures var n := (a as int - 0xF0) * 0x4_0000 + (b as int - 0x80) * 0x1000
                     + (c as int - 0x80) * 0x40 + (d as int - 0x80);
      0x1_0000 <= n < 0x11_0000 && Encoding(n) == [a, b, c, d]
  {
    var w, x, y, z := a as int - 0xF0, b as int - 0x80, c as int - 0x80, d as int - 0x80;
    var n := w * 0x4_0000 + x * 0x1000 + y * 0x40 + z;
    assert n / 0x40 == w * 0x1000 + x * 0x40 + y && n % 0x40 == z;
    assert n / 0x1000 == w * 0x40 + x;
    assert n / 0x4_0000 == w;
  }

  /** The character at the head of `s`. */
  lemma Head(s: seq<byte>) returns (c: Scalar)
    requires CharLength(s) > 0
    ensures Encoding(c) == s[..CharLength(s)]
  {
    match CharLength(s)
    case 1 => c := s[0];
    case 2 =>
      TwoOctets(s[0], s[1]);
      c := (s[0] as int - 0xC0) * 0x40 + (s[1] as int - 0x80);
    case 3 =>
      ThreeOctets(s[0], s[1], s[2]);
      c := (s[0] as int - 0xE0) * 0x1000 + (s[1] as int - 0x80) * 0x40 + (s[2] as int - 0x80);
    case _ =>
      FourOctets(s[0], s[1], s[2], s[3]);
      c := (s[0] as int - 0xF0) * 0x4_0000 + (s[1] as int - 0x80) * 0x1000
           + (s[2] as int - 0x80) * 0x40 + (s[3] as int - 0x80);
  }

  lemma {:induction false} EncodingsValid(cs: seq<Scalar>)
    ensures Valid(Encodings(cs))
  {
    if cs != [] {
      EncodingLength(cs[0]);
      HeadKeepsLength(Encoding(cs[0]), Encodings(cs[1..]));
      EncodingsValid(cs[1..]);
    }
  }

  lemma {:induction false} ValidDecodes(s: seq<byte>) returns (cs: seq<Scalar>)
    requires Valid(s)
    ensures Encodings(cs) == s
  {
    if s == [] {
      cs := [];
    } else {
      var n := CharLength(s);
      var head := Head(s);
      cs := ValidDecodes(s[n..]);
      cs := [head] + cs;
      assert s == s[..n] + s[n..];
    }
  }

  /** The valid strings are exactly the encodings of sequences of scalar values. */
  lemma {:induction false} ValidExactly(s: seq<byte>)
    ensures Valid(s) <==> exists cs :: Encodings(cs) == s
  {
    if Valid(s) {
      var cs := ValidDecodes(s);
    }
    if cs :| Encodings(cs) == s {
      EncodingsValid(cs);
    }
  }
}
