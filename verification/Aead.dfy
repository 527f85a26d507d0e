/** Authenticated encryption with associated data, by its interface (sections 2.1 and 2.2 of RFC 5116). */
module Aead {
  import opened Bytes

  /** A cipher with its key and its (constant) nonce fixed. `seal` and `open` take the associated
      data first. Sealing fails exactly on plaintexts longer than `limit`. */
  datatype Cipher = Cipher(
    tagLen: nat,
    limit: nat,
    seal: (seq<byte>, seq<byte>) -> seq<byte>,
    open: (seq<byte>, seq<byte>) -> Option<seq<byte>>)
  {
    /** The only facts about the cipher the proofs use. */
    ghost predicate Lawful() {
      && (forall aad, plain | |plain| <= limit ::
            && |seal(aad, plain)| == |plain| + tagLen
            && open(aad, seal(aad, plain)) == Some(plain))
      && (forall aad, sealed | open(aad, sealed).Some? ::
            |sealed| == |open(aad, sealed).value| + tagLen)
    }
  }

  const TOY_TAG: seq<byte> := [0, 0, 0, 0, 0, 0, 0, 0, 0, 0, 0, 0, 0, 0, 0, 0]

  /** A cipher that seals by appending sixteen zero bytes: the laws above are satisfiable. */
  function Toy(limit: nat): Cipher {
    Cipher(
      16,
      limit,
      (aad: seq<byte>, plain: seq<byte>) => plain + TOY_TAG,
      (aad: seq<byte>, sealed: seq<byte>) =>
        if |sealed| >= 16 && sealed[|sealed| - 16..] == TOY_TAG
        then Some(sealed[..|sealed| - 16]) else None)
  }

  lemma ToyIsLawful(limit: nat)
    ensures Toy(limit).Lawful()
  {
  }

  /** `open_in_place` without prefix: on success the plaintext replaces the front of the buffer;
      what the last `tagLen` bytes then hold is left open. */
  method OpenInPlace(cipher: Cipher, aad: seq<byte>, buffer: BytesMut) returns (ok: bool)
    requires cipher.Lawful() && buffer.Valid()
    modifies buffer
    ensures buffer.Valid() && |buffer.bytes| == |old(buffer.bytes)|
    ensures ok == cipher.open(aad, old(buffer.bytes)).Some?
    ensures ok ==> var plain := cipher.open(aad, old(buffer.bytes)).value;
                   |buffer.bytes| == |plain| + cipher.tagLen && buffer.bytes[..|plain|] == plain
  {
    var plain := cipher.open(aad, buffer.bytes);
    ok := plain.Some?;
    if ok {
      buffer.bytes := plain.value + buffer.bytes[|plain.value|..];
    }
  }

  /** `seal_in_place`: the last `tagLen` bytes of the buffer are room for the tag. */
  method SealInPlace(cipher: Cipher, aad: seq<byte>, buffer: BytesMut) returns (ok: bool)
    requires cipher.Lawful() && buffer.Valid() && |buffer.bytes| >= cipher.tagLen
    modifies buffer
    ensures buffer.Valid()
    ensures ok == (|old(buffer.bytes)| - cipher.tagLen <= cipher.limit)
    ensures buffer.bytes == if ok then cipher.seal(aad, old(buffer.bytes)[..|old(buffer.bytes)| - cipher.tagLen])
                            else old(buffer.bytes)
  {
    var plain := buffer.bytes[..|buffer.bytes| - cipher.tagLen];
    ok := |plain| <= cipher.limit;
    if ok {
      buffer.bytes := cipher.seal(aad, plain);
    }
  }
}
