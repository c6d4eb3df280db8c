/** UInt64: an immutable unsigned 64-bit value held as a BigInteger (Java
    class local.tools.primitives.UInt64). */
module UInt64 {
  import opened Java
  import opened ByteOrder
  import opened BigInteger

  const MIN_VALUE: int := 0
  const MAX_VALUE: int := 0xFFFF_FFFF_FFFF_FFFF

  /** The payload, always within [MIN_VALUE, MAX_VALUE]. */
  datatype UInt64 = UInt64(value: int)
  {
    ghost predicate Valid() { MIN_VALUE <= value <= MAX_VALUE }
  }

  /** The private range test `withinRange`. */
  predicate WithinRange(value: int)
  {
    value >= MIN_VALUE && value <= MAX_VALUE
  }

  /** `new UInt64(BigInteger)`: an IllegalArgumentException exactly when the
      value is out of range, and otherwise the value unchanged. */
  function FromBigInteger(value: int): (r: Result<UInt64>)
    ensures r.Success? <==> 0 <= value <= 0xFFFF_FFFF_FFFF_FFFF
    ensures r.Success? ==> r.value.value == value && r.value.Valid()
    ensures r.Failure? ==> r.error == IllegalArgument
  {
    if !WithinRange(value) then Failure(IllegalArgument) else Success(UInt64(value))
  }

  /** `new UInt64(byte a, ..., byte h)`: a zero sign byte is put in front of
      the eight bytes before they are decoded, so the result is their
      unsigned reading and never out of range. */
  function FromBytes(a: JByte, b: JByte, c: JByte, d: JByte, e: JByte, f: JByte, g: JByte, h: JByte): (r: UInt64)
    ensures r.value == UnsignedBE([a, b, c, d, e, f, g, h]) && r.Valid()
  {
    var bytes := [a, b, c, d, e, f, g, h];
    assert [0, a, b, c, d, e, f, g, h] == [0] + bytes;
    SignedBELeadingZero(bytes);
    assert Pow256(8) == 0x1_0000_0000_0000_0000;
    UInt64(FromByteArray([0, a, b, c, d, e, f, g, h]))
  }

  /** `new UInt64(int a, ..., int h)`: the arguments are cast to byte. */
  function FromInts(a: int, b: int, c: int, d: int, e: int, f: int, g: int, h: int): (r: UInt64)
    ensures r.value == UnsignedBE([ToByte(a), ToByte(b), ToByte(c), ToByte(d), ToByte(e), ToByte(f), ToByte(g), ToByte(h)])
  {
    FromBytes(ToByte(a), ToByte(b), ToByte(c), ToByte(d), ToByte(e), ToByte(f), ToByte(g), ToByte(h))
  }

  /** `new UInt64(byte[] bytes)`: reads bytes[0..7] only. */
  function FromArray(bytes: seq<JByte>): (r: UInt64)
    requires |bytes| >= 8
    ensures r.value == UnsignedBE(bytes[..8])
  {
    assert bytes[..8] == [bytes[0], bytes[1], bytes[2], bytes[3], bytes[4], bytes[5], bytes[6], bytes[7]];
    FromBytes(bytes[0], bytes[1], bytes[2], bytes[3], bytes[4], bytes[5], bytes[6], bytes[7])
  }

  /** What the copy loop of `getBytes` leaves in an 8-byte output: the last
      min(8, |bytes|) bytes of `bytes`, right-aligned, over the old contents. */
  function RightAlign(output: seq<JByte>, bytes: seq<JByte>): (r: seq<JByte>)
    requires |output| == 8
    ensures |r| == 8
  {
    seq(8, p requires 0 <= p < 8 => if p + |bytes| >= 8 then bytes[p + |bytes| - 8] else output[p])
  }

  /** The eight bytes `getBytes()` returns: `toByteArray()` right-aligned in
      a zeroed 8-byte array. */
  function Bytes(x: UInt64): (r: seq<JByte>)
    requires x.Valid()
    ensures r == BytesBE(x.value, 8)
  {
    AlignedEncoding(x.value);
    RightAlign(Zeros(8), ToByteArray(x.value))
  }

  /** For every value in range, right-aligning its minimal encoding in eight
      zero bytes gives its eight-byte big-endian encoding: the zero padding
      on the left is what the encoding leaves out, and the sign byte that
      `toByteArray` adds to values of 2^63 and above falls off the left. */
  lemma AlignedEncoding(v: int)
    requires 0 <= v <= 0xFFFF_FFFF_FFFF_FFFF
    ensures RightAlign(Zeros(8), ToByteArray(v)) == BytesBE(v, 8)
  {
    var t := ToByteArray(v);
    var n := |t|;
    ToByteArrayIsBytesBE(v);
    assert Pow256(8) == 0x1_0000_0000_0000_0000;
    ToByteArrayLength(v, 8);
    if n <= 8 {
      BytesBESplit(v, n, 8 - n);
      ToByteArrayCoversValue(v);
      BytesBEZero(8 - n);
      assert BytesBE(v, 8) == Zeros(8 - n) + t;
    } else {
      BytesBESplit(v, 8, 1);
      assert t == BytesBE(ShiftBytes(v, 8), 1) + BytesBE(v, 8);
    }
  }

  /** Static `getBytes(value, output)`: copies `value.toByteArray()` into
      output[0..7] from the right, for as long as both indices are in range;
      positions to the left of the encoding and past index 7 are untouched. */
  method GetBytesInto(value: int, output: array<JByte>) returns (r: array<JByte>)
    requires output.Length >= 8
    modifies output
    ensures r == output
    ensures output[..8] == RightAlign(old(output[..8]), ToByteArray(value))
    ensures output[8..] == old(output[8..])
  {
    var bytes := ToByteArray(value);
    ghost var before := output[..];
    var i, j := 7, |bytes| - 1;
    while i >= 0 && j >= 0
      invariant -1 <= i <= 7 && j == i + |bytes| - 8
      invariant forall p :: 0 <= p < output.Length ==>
        output[p] == (if i < p < 8 && p + |bytes| >= 8 then bytes[p + |bytes| - 8] else before[p])
    {
      output[i] := bytes[j];
      i, j := i - 1, j - 1;
    }
    r := output;
  }

  /** `getBytes()`: the same copy loop into a fresh zeroed 8-byte array, which
      yields the value's eight-byte big-endian encoding. */
  method GetBytes(x: UInt64) returns (r: seq<JByte>)
    requires x.Valid()
    ensures r == BytesBE(x.value, 8)
  {
    var bytes := ToByteArray(x.value);
    var output := new JByte[8](_ => 0);
    var i, j := 7, |bytes| - 1;
    while i >= 0 && j >= 0
      invariant -1 <= i <= 7 && j == i + |bytes| - 8
      invariant forall p :: 0 <= p < 8 ==>
        output[p] == (if p > i && p + |bytes| >= 8 then bytes[p + |bytes| - 8] else 0)
    {
      output[i] := bytes[j];
      i, j := i - 1, j - 1;
    }
    r := output[..];
    assert r == Bytes(x);
  }

  /** `equals`: equality by numeric value. */
  predicate Equals(x: UInt64, y: UInt64)
    ensures Equals(x, y) <==> x == y
  {
    x.value == y.value
  }

  /** Building a UInt64 from its own bytes gives an equal UInt64. */
  lemma FromArrayGetBytes(x: UInt64)
    requires x.Valid()
    ensures Equals(FromArray(Bytes(x)), x)
  {
    var bs := Bytes(x);
    assert bs[..8] == bs;
    assert Pow256(8) == 0x1_0000_0000_0000_0000;
    UnsignedBEOfBytesBE(x.value, 8);
  }

  /** Decoding eight bytes and encoding the value again gives the bytes back. */
  lemma GetBytesFromBytes(a: JByte, b: JByte, c: JByte, d: JByte, e: JByte, f: JByte, g: JByte, h: JByte)
    ensures Bytes(FromBytes(a, b, c, d, e, f, g, h)) == [a, b, c, d, e, f, g, h]
  {
    BytesBEOfUnsignedBE([a, b, c, d, e, f, g, h]);
  }
}
