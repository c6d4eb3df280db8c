/** Float64: an immutable IEEE 754 binary64 value (Java class
    local.tools.primitives.Float64). The double is held as its raw 64-bit
    pattern (`Double.doubleToRawLongBits`), and `Double.longBitsToDouble` and
    `Double.doubleToRawLongBits` are taken to preserve every bit. */
module Float64 {
  import opened Java
  import opened ByteOrder
  import Int64

  /** `new Float64(double)`, with the double given by its raw bits. */
  datatype Float64 = Float64(bits: JLong)

  /** The canonical NaN pattern that `Double.doubleToLongBits` reports for
      every NaN. */
  const CANONICAL_NAN: JLong := 0x7FF8_0000_0000_0000

  /** The pattern of -0.0. */
  const NEGATIVE_ZERO: JLong := -0x8000_0000_0000_0000

  /** A binary64 pattern is a NaN when its 11 exponent bits are all ones and
      its 52 fraction bits are not all zeros (IEEE 754-2008, section 3.4). */
  predicate IsNaN(bits: JLong)
  {
    var u := bits % 0x1_0000_0000_0000_0000;
    (u / 0x10_0000_0000_0000) % 0x800 == 0x7FF && u % 0x10_0000_0000_0000 != 0
  }

  /** `Double.doubleToLongBits`: the raw bits, except that every NaN is
      collapsed to the canonical NaN. */
  function DoubleToLongBits(bits: JLong): (r: JLong)
    ensures IsNaN(bits) ==> r == CANONICAL_NAN
    ensures !IsNaN(bits) ==> r == bits
    ensures IsNaN(r) == IsNaN(bits)
  {
    if IsNaN(bits) then CANONICAL_NAN else bits
  }

  /** Static `packBytes(byte a, ..., byte h)`: the double whose raw bits are
      `Int64.packBytes(a, ..., h)`, a most significant. */
  function PackBytes(a: JByte, b: JByte, c: JByte, d: JByte, e: JByte, f: JByte, g: JByte, h: JByte): (r: JLong)
    ensures r == ToLong(UnsignedBE([a, b, c, d, e, f, g, h]))
  {
    Int64.PackBytes(a, b, c, d, e, f, g, h)
  }

  /** Static `packBytes(int a, ..., int h)`: the arguments are cast to byte first. */
  function PackInts(a: int, b: int, c: int, d: int, e: int, f: int, g: int, h: int): (r: JLong)
    ensures r == ToLong(UnsignedBE([ToByte(a), ToByte(b), ToByte(c), ToByte(d), ToByte(e), ToByte(f), ToByte(g), ToByte(h)]))
    ensures r == Int64.PackInts(a, b, c, d, e, f, g, h)
  {
    PackBytes(ToByte(a), ToByte(b), ToByte(c), ToByte(d), ToByte(e), ToByte(f), ToByte(g), ToByte(h))
  }

  /** `new Float64(byte a, ..., byte h)`: the raw bits are `Int64.packBytes`. */
  function FromBytes(a: JByte, b: JByte, c: JByte, d: JByte, e: JByte, f: JByte, g: JByte, h: JByte): (r: Float64)
    ensures r.bits == ToLong(UnsignedBE([a, b, c, d, e, f, g, h]))
  {
    Float64(Int64.PackBytes(a, b, c, d, e, f, g, h))
  }

  /** `new Float64(int a, ..., int h)`: the arguments are cast to byte. */
  function FromInts(a: int, b: int, c: int, d: int, e: int, f: int, g: int, h: int): (r: Float64)
    ensures r.bits == ToLong(UnsignedBE([ToByte(a), ToByte(b), ToByte(c), ToByte(d), ToByte(e), ToByte(f), ToByte(g), ToByte(h)]))
  {
    FromBytes(ToByte(a), ToByte(b), ToByte(c), ToByte(d), ToByte(e), ToByte(f), ToByte(g), ToByte(h))
  }

  /** `new Float64(byte[] data)`: reads data[0..7] only. */
  function FromArray(data: seq<JByte>): (r: Float64)
    requires |data| >= 8
    ensures r.bits == ToLong(UnsignedBE(data[..8]))
  {
    assert data[..8] == [data[0], data[1], data[2], data[3], data[4], data[5], data[6], data[7]];
    FromBytes(data[0], data[1], data[2], data[3], data[4], data[5], data[6], data[7])
  }

  /** The eight bytes the `getBytes` methods compute from a long: its raw
      pattern, most significant byte first. */
  function Bytes(v: JLong): (r: seq<JByte>)
    ensures r == BytesBE(v % 0x1_0000_0000_0000_0000, 8)
    ensures PackBytes(r[0], r[1], r[2], r[3], r[4], r[5], r[6], r[7]) == v
  {
    var u := v % 0x1_0000_0000_0000_0000;
    LowByteOfLow64(v);
    EightBytes(u);
    assert BytesBE(u, 8) == Int64.GetBytes(Int64.Int64(v));
    [ToByte(UShr64(v, 56)), ToByte(UShr64(v, 48)), ToByte(UShr64(v, 40)), ToByte(UShr64(v, 32)),
     ToByte(UShr64(v, 24)), ToByte(UShr64(v, 16)), ToByte(UShr64(v, 8)), ToByte(v)]
  }

  /** Static `getBytes(value, output)`: writes the raw bits to output[0..7]
      only and hands the same array back. */
  method GetBytesInto(value: Float64, output: array<JByte>) returns (r: array<JByte>)
    requires output.Length >= 8
    modifies output
    ensures r == output
    ensures output[..8] == Bytes(value.bits)
    ensures output[8..] == old(output[8..])
  {
    var v := value.bits;
    output[0] := ToByte(UShr64(v, 56));
    output[1] := ToByte(UShr64(v, 48));
    output[2] := ToByte(UShr64(v, 40));
    output[3] := ToByte(UShr64(v, 32));
    output[4] := ToByte(UShr64(v, 24));
    output[5] := ToByte(UShr64(v, 16));
    output[6] := ToByte(UShr64(v, 8));
    output[7] := ToByte(v);
    r := output;
  }

  /** Instance `getBytes(output)`: the same eight bytes of this value's bits,
      written to output[0..7] only. */
  method GetBytesOutput(x: Float64, output: array<JByte>) returns (r: array<JByte>)
    requires output.Length >= 8
    modifies output
    ensures r == output
    ensures output[..8] == Bytes(x.bits)
    ensures output[8..] == old(output[8..])
  {
    var v := x.bits;
    output[0] := ToByte(UShr64(v, 56));
    output[1] := ToByte(UShr64(v, 48));
    output[2] := ToByte(UShr64(v, 40));
    output[3] := ToByte(UShr64(v, 32));
    output[4] := ToByte(UShr64(v, 24));
    output[5] := ToByte(UShr64(v, 16));
    output[6] := ToByte(UShr64(v, 8));
    output[7] := ToByte(v);
    r := output;
  }

  /** `getBytes()`: `getBytes(new byte[8])`, a fresh array of the eight raw
      bytes, most significant first. */
  method GetBytes(x: Float64) returns (r: array<JByte>)
    ensures fresh(r)
    ensures r[..] == BytesBE(x.bits % 0x1_0000_0000_0000_0000, 8)
  {
    var output := new JByte[8];
    r := GetBytesOutput(x, output);
  }

  /** `equals`: compares `Double.doubleToLongBits` of the two payloads. */
  predicate Equals(x: Float64, y: Float64)
  {
    DoubleToLongBits(x.bits) == DoubleToLongBits(y.bits)
  }

  /** Two doubles are equal exactly when their bits agree or both are NaN. */
  lemma EqualsIffSameBitsOrNaN(x: Float64, y: Float64)
    ensures Equals(x, y) <==> x.bits == y.bits || (IsNaN(x.bits) && IsNaN(y.bits))
  {
    assert IsNaN(CANONICAL_NAN);
  }

  /** All NaNs are equal to each other, but +0.0 and -0.0 are not. */
  lemma EqualsNaNAndZeros(x: Float64, y: Float64)
    requires IsNaN(x.bits) && IsNaN(y.bits)
    ensures Equals(x, y)
    ensures !Equals(Float64(0), Float64(NEGATIVE_ZERO))
  {
  }

  /** Building a Float64 from its own bytes gives the same bits back. */
  lemma FromArrayBytes(x: Float64)
    ensures FromArray(Bytes(x.bits)) == x
  {
  }
}
