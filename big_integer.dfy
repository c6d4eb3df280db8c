/** The part of java.math.BigInteger that UInt64 relies on: `toByteArray`,
    the minimal two's complement encoding of a number, most significant byte
    first, and the `BigInteger(byte[])` constructor, which decodes it. */
module BigInteger {
  import opened Java
  import opened ByteOrder

  /** `toByteArray()`: the shortest two's complement big-endian encoding of v
      (one byte when v fits in a signed byte; otherwise the encoding of v
      without its last byte, followed by that byte). */
  function ToByteArray(v: int): (r: seq<JByte>)
    ensures |r| >= 1
    decreases if v < 0 then -v else v
  {
    if -0x80 <= v < 0x80 then [v] else ToByteArray(v / 0x100) + [ToByte(v % 0x100)]
  }

  /** `new BigInteger(byte[] bytes)`: the bytes read as a two's complement
      number, most significant first. */
  function FromByteArray(bytes: seq<JByte>): (r: int)
    requires |bytes| > 0
    ensures bytes[0] >= 0 ==> r == UnsignedBE(bytes)
    ensures bytes[0] < 0 ==> r == UnsignedBE(bytes) - Pow256(|bytes|)
  {
    SignedBEIsTwosComplement(bytes);
    SignedBE(bytes)
  }

  /** Decoding the encoding gives the number back. */
  lemma {:induction false} FromToByteArray(v: int)
    ensures FromByteArray(ToByteArray(v)) == v
    decreases if v < 0 then -v else v
  {
    if !(-0x80 <= v < 0x80) {
      var init := ToByteArray(v / 0x100);
      var r := init + [ToByte(v % 0x100)];
      FromToByteArray(v / 0x100);
      assert r[..|r| - 1] == init;
      assert LowByte(ToByte(v % 0x100)) == v % 0x100;
    }
  }

  /** The encoding is the |r|-byte two's complement pattern of v. */
  lemma {:induction false} ToByteArrayIsBytesBE(v: int)
    ensures ToByteArray(v) == BytesBE(v, |ToByteArray(v)|)
    decreases if v < 0 then -v else v
  {
    if -0x80 <= v < 0x80 {
      assert BytesBE(v, 1) == BytesBE(v / 0x100, 0) + [ToByte(v % 0x100)];
    } else {
      ToByteArrayIsBytesBE(v / 0x100);
    }
  }

  /** For a non-negative v, nothing is left once the encoded bytes are
      shifted out: the encoding holds all of v. */
  lemma {:induction false} ToByteArrayCoversValue(v: nat)
    ensures ShiftBytes(v, |ToByteArray(v)|) == 0
    decreases v
  {
    if v >= 0x80 {
      ToByteArrayCoversValue(v / 0x100);
    }
  }

  /** A value below 256^k needs at most k + 1 bytes: k for its magnitude and
      possibly one for the sign. */
  lemma {:induction false} ToByteArrayLength(v: nat, k: nat)
    requires v < Pow256(k)
    ensures |ToByteArray(v)| <= k + 1
    decreases v
  {
    if v >= 0x80 {
      ToByteArrayLength(v / 0x100, k - 1);
    }
  }
}
