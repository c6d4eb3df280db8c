/** Float32: an immutable IEEE 754 binary32 value (Java class
    local.tools.primitives.Float32). The float is held as its raw 32-bit
    pattern (`Float.floatToRawIntBits`), and `Float.intBitsToFloat` and
    `Float.floatToRawIntBits` are taken to preserve every bit. */
module Float32 {
  import opened Java
  import opened ByteOrder
  import Int32

  /** `new Float32(float)`, with the float given by its raw bits. */
  datatype Float32 = Float32(bits: JInt)

  /** The canonical NaN pattern that `Float.floatToIntBits` reports for
      every NaN. */
  const CANONICAL_NAN: JInt := 0x7FC0_0000

  /** The pattern of -0.0f. */
  const NEGATIVE_ZERO: JInt := -0x8000_0000

  /** A binary32 pattern is a NaN when its 8 exponent bits are all ones and
      its 23 fraction bits are not all zeros (IEEE 754-2008, section 3.4). */
  predicate IsNaN(bits: JInt)
  {
    var u := bits % 0x1_0000_0000;
    (u / 0x80_0000) % 0x100 == 0xFF && u % 0x80_0000 != 0
  }

  /** `Float.floatToIntBits`: the raw bits, except that every NaN is
      collapsed to the canonical NaN. */
  function FloatToIntBits(bits: JInt): (r: JInt)
    ensures IsNaN(bits) ==> r == CANONICAL_NAN
    ensures !IsNaN(bits) ==> r == bits
    ensures IsNaN(r) == IsNaN(bits)
  {
    if IsNaN(bits) then CANONICAL_NAN else bits
  }

  /** Static `packBytes(byte a, byte b, byte c, byte d)`: the float whose raw
      bits are `Int32.packBytes(a, b, c, d)`, a most significant. */
  function PackBytes(a: JByte, b: JByte, c: JByte, d: JByte): (r: JInt)
    ensures r == ToInt(UnsignedBE([a, b, c, d]))
  {
    Int32.PackBytes(a, b, c, d)
  }

  /** Static `packBytes(int a, int b, int c, int d)`: the arguments are cast
      to byte first. */
  function PackInts(a: int, b: int, c: int, d: int): (r: JInt)
    ensures r == ToInt(UnsignedBE([ToByte(a), ToByte(b), ToByte(c), ToByte(d)]))
  {
    PackBytes(ToByte(a), ToByte(b), ToByte(c), ToByte(d))
  }

  /** `new Float32(byte a, byte b, byte c, byte d)`: the raw bits are
      `Int32.packBytes(a, b, c, d)`. */
  function FromBytes(a: JByte, b: JByte, c: JByte, d: JByte): (r: Float32)
    ensures r.bits == ToInt(UnsignedBE([a, b, c, d]))
    ensures r.bits == PackBytes(a, b, c, d)
  {
    Float32(Int32.PackBytes(a, b, c, d))
  }

  /** `new Float32(int a, int b, int c, int d)`: the arguments are cast to byte. */
  function FromInts(a: int, b: int, c: int, d: int): (r: Float32)
    ensures r.bits == PackInts(a, b, c, d)
  {
    FromBytes(ToByte(a), ToByte(b), ToByte(c), ToByte(d))
  }

  /** `new Float32(byte[] data)`: reads data[0..3] only. */
  function FromArray(data: seq<JByte>): (r: Float32)
    requires |data| >= 4
    ensures r.bits == ToInt(UnsignedBE(data[..4]))
  {
    assert data[..4] == [data[0], data[1], data[2], data[3]];
    FromBytes(data[0], data[1], data[2], data[3])
  }

  /** `getBytes()`: the four raw bytes, most significant first. */
  function GetBytes(x: Float32): (r: seq<JByte>)
    ensures r == BytesBE(x.bits % 0x1_0000_0000, 4)
    ensures PackBytes(r[0], r[1], r[2], r[3]) == x.bits
  {
    Int32.Bytes(x.bits)
  }

  /** Static `getBytes(value, output)`: writes the raw bits to output[0..3]
      only, most significant byte first, and hands the same array back. */
  method GetBytesInto(value: Float32, output: array<JByte>) returns (r: array<JByte>)
    requires output.Length >= 4
    modifies output
    ensures r == output
    ensures output[..4] == GetBytes(value)
    ensures output[4..] == old(output[4..])
  {
    var v := value.bits;
    output[0] := ToByte(UShr32(v, 24));
    output[1] := ToByte(UShr32(v, 16));
    output[2] := ToByte(UShr32(v, 8));
    output[3] := ToByte(v);
    r := output;
  }

  /** `equals`: compares `Float.floatToIntBits` of the two payloads. */
  predicate Equals(x: Float32, y: Float32)
  {
    FloatToIntBits(x.bits) == FloatToIntBits(y.bits)
  }

  /** Two floats are equal exactly when their bits agree or both are NaN. */
  lemma EqualsIffSameBitsOrNaN(x: Float32, y: Float32)
    ensures Equals(x, y) <==> x.bits == y.bits || (IsNaN(x.bits) && IsNaN(y.bits))
  {
    assert IsNaN(CANONICAL_NAN);
  }

  /** All NaNs are equal to each other, but +0.0 and -0.0 are not. */
  lemma EqualsNaNAndZeros(x: Float32, y: Float32)
    requires IsNaN(x.bits) && IsNaN(y.bits)
    ensures Equals(x, y)
    ensures !Equals(Float32(0), Float32(NEGATIVE_ZERO))
  {
  }

  /** `equals` is reflexive, symmetric and transitive. */
  lemma EqualsIsEquivalence(x: Float32, y: Float32, z: Float32)
    ensures Equals(x, x)
    ensures Equals(x, y) ==> Equals(y, x)
    ensures Equals(x, y) && Equals(y, z) ==> Equals(x, z)
  {
  }

  /** Building a Float32 from its own bytes gives the same bits back. */
  lemma FromArrayGetBytes(x: Float32)
    ensures FromArray(GetBytes(x)) == x
  {
    var bs := GetBytes(x);
    assert bs[..4] == bs;
  }
}
