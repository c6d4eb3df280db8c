/** UInt32: an immutable unsigned 32-bit value (Java class local.tools.primitives.UInt32). */
module UInt32 {
  import opened Java
  import opened ByteOrder
  import Int32

  const MIN_VALUE: JLong := 0
  const MAX_VALUE: JLong := 0xFFFF_FFFF

  /** The payload, a long always within [MIN_VALUE, MAX_VALUE]. */
  datatype UInt32 = UInt32(value: JLong)
  {
    ghost predicate Valid() { MIN_VALUE <= value <= MAX_VALUE }
  }

  /** The private range test `withinRange`. */
  predicate WithinRange(value: JLong)
  {
    MIN_VALUE <= value && value <= MAX_VALUE
  }

  /** `new UInt32(long)`: an IllegalArgumentException exactly when the value
      is out of range, and otherwise the value unchanged. */
  function FromLong(value: JLong): (r: Result<UInt32>)
    ensures r.Success? <==> 0 <= value <= 0xFFFF_FFFF
    ensures r.Success? ==> r.value.value == value && r.value.Valid()
    ensures r.Failure? ==> r.error == IllegalArgument
  {
    if !WithinRange(value) then Failure(IllegalArgument) else Success(UInt32(value))
  }

  /** `new UInt32(byte a, byte b, byte c, byte d)`: `Integer.toUnsignedLong`
      of `Int32.packBytes`, i.e. the four bytes read unsigned, a first; never
      out of range and never checked. */
  function FromBytes(a: JByte, b: JByte, c: JByte, d: JByte): (r: UInt32)
    ensures r.value == UnsignedBE([a, b, c, d]) && r.Valid()
  {
    assert Pow256(4) == 0x1_0000_0000;
    ToIntUnsigned(UnsignedBE([a, b, c, d]));
    UInt32(Int32.PackBytes(a, b, c, d) % 0x1_0000_0000)
  }

  /** `new UInt32(int a, int b, int c, int d)`: the arguments are cast to byte. */
  function FromInts(a: int, b: int, c: int, d: int): (r: UInt32)
    ensures r.value == UnsignedBE([ToByte(a), ToByte(b), ToByte(c), ToByte(d)])
  {
    FromBytes(ToByte(a), ToByte(b), ToByte(c), ToByte(d))
  }

  /** `new UInt32(byte[] data)`: reads data[0..3] only. */
  function FromArray(data: seq<JByte>): (r: UInt32)
    requires |data| >= 4
    ensures r.value == UnsignedBE(data[..4])
  {
    assert data[..4] == [data[0], data[1], data[2], data[3]];
    FromBytes(data[0], data[1], data[2], data[3])
  }

  /** Static `trimRange(number)`: `number & 0xffffffffL`, the low 32 bits
      read unsigned. */
  function TrimRange(number: JLong): (r: JLong)
    ensures 0 <= r <= 0xFFFF_FFFF
    ensures (r - number) % 0x1_0000_0000 == 0
  {
    number % 0x1_0000_0000
  }

  /** Trimming twice is trimming once, and in-range values are left alone. */
  lemma TrimRangeIdempotent(number: JLong)
    ensures TrimRange(TrimRange(number)) == TrimRange(number)
    ensures WithinRange(number) ==> TrimRange(number) == number
  {
  }

  /** The four bytes `getBytes` computes from any long: its low 32 bits, most
      significant byte first. */
  function Bytes(value: JLong): (r: seq<JByte>)
    ensures r == BytesBE(value % 0x1_0000_0000, 4)
  {
    var u := value % 0x1_0000_0000;
    UShr64Low32(value);
    LowByteOfLow32(value);
    FourBytes(u);
    [ToByte(UShr64(value, 24)), ToByte(UShr64(value, 16)), ToByte(UShr64(value, 8)), ToByte(value)]
  }

  /** `getBytes()`: four bytes, most significant first. */
  function GetBytes(x: UInt32): (r: seq<JByte>)
    requires x.Valid()
    ensures r == BytesBE(x.value, 4)
  {
    assert x.value % 0x1_0000_0000 == x.value;
    Bytes(x.value)
  }

  /** Static `getBytes(value, output)`: writes the low 32 bits of any long to
      output[0..3] and touches nothing else. */
  method GetBytesInto(value: JLong, output: array<JByte>) returns (r: array<JByte>)
    requires output.Length >= 4
    modifies output
    ensures r == output
    ensures output[..4] == Bytes(value)
    ensures output[4..] == old(output[4..])
  {
    output[0] := ToByte(UShr64(value, 24));
    output[1] := ToByte(UShr64(value, 16));
    output[2] := ToByte(UShr64(value, 8));
    output[3] := ToByte(value);
    r := output;
  }

  /** `intValue()`: `(int) value`, so values of 2^31 and above wrap to
      negative ints. */
  function IntValue(x: UInt32): (r: JInt)
    requires x.Valid()
    ensures x.value < 0x8000_0000 ==> r == x.value
    ensures x.value >= 0x8000_0000 ==> r == x.value - 0x1_0000_0000
  {
    ToInt(x.value)
  }

  /** `longValue()`: the payload, unchanged. */
  function LongValue(x: UInt32): (r: JLong)
    requires x.Valid()
    ensures 0 <= r <= 0xFFFF_FFFF && FromLong(r) == Success(x)
  {
    x.value
  }

  /** `equals`: equality by payload value. */
  predicate Equals(x: UInt32, y: UInt32)
    ensures Equals(x, y) <==> x == y
  {
    x.value == y.value
  }

  /** Building a UInt32 from its own bytes gives an equal UInt32. */
  lemma FromArrayGetBytes(x: UInt32)
    requires x.Valid()
    ensures Equals(FromArray(GetBytes(x)), x)
  {
    var bs := GetBytes(x);
    assert bs[..4] == bs;
    assert Pow256(4) == 0x1_0000_0000;
    UnsignedBEOfBytesBE(x.value, 4);
  }

  /** Packing four bytes and splitting the value again gives the bytes back. */
  lemma GetBytesFromBytes(a: JByte, b: JByte, c: JByte, d: JByte)
    ensures GetBytes(FromBytes(a, b, c, d)) == [a, b, c, d]
  {
    BytesBEOfUnsignedBE([a, b, c, d]);
  }
}
