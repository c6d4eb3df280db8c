/** UInt16: an immutable unsigned 16-bit value (Java class local.tools.primitives.UInt16). */
module UInt16 {
  import opened Java
  import opened ByteOrder
  import Int16

  const MIN_VALUE: int := 0
  const MAX_VALUE: int := 0xFFFF

  /** The payload, always within [MIN_VALUE, MAX_VALUE]: the scalar
      constructor refuses anything else and the byte constructors cannot
      produce anything else. */
  datatype UInt16 = UInt16(value: int)
  {
    ghost predicate Valid() { MIN_VALUE <= value <= MAX_VALUE }
  }

  /** The private range test `withinRange`. */
  predicate WithinRange(value: int)
  {
    MIN_VALUE <= value && value <= MAX_VALUE
  }

  /** `new UInt16(int)`: an IllegalArgumentException exactly when the value
      is out of range, and otherwise the value unchanged. */
  function FromInt(value: JInt): (r: Result<UInt16>)
    ensures r.Success? <==> 0 <= value <= 0xFFFF
    ensures r.Success? ==> r.value.value == value && r.value.Valid()
    ensures r.Failure? ==> r.error == IllegalArgument
  {
    if !WithinRange(value) then Failure(IllegalArgument) else Success(UInt16(value))
  }

  /** `new UInt16(byte a, byte b)`: `Short.toUnsignedInt` of `Int16.packBytes`,
      i.e. the two bytes read unsigned, a first; never out of range. */
  function FromBytes(a: JByte, b: JByte): (r: UInt16)
    ensures r.value == UnsignedBE([a, b]) && r.Valid()
  {
    assert Pow256(2) == 0x1_0000;
    UInt16(Int16.PackBytes(a, b) % 0x1_0000)
  }

  /** `new UInt16(int a, int b)`: the arguments are cast to byte. */
  function FromInts(a: int, b: int): (r: UInt16)
    ensures r.value == UnsignedBE([ToByte(a), ToByte(b)])
    ensures r.value == (a % 0x100) * 0x100 + b % 0x100
  {
    TwoBytesValue(ToByte(a), ToByte(b));
    LowByteToByte(a);
    LowByteToByte(b);
    FromBytes(ToByte(a), ToByte(b))
  }

  /** `new UInt16(byte[] data)`: reads data[0] and data[1] only. */
  function FromArray(data: seq<JByte>): (r: UInt16)
    requires |data| >= 2
    ensures r.value == UnsignedBE(data[..2])
  {
    assert data[..2] == [data[0], data[1]];
    FromBytes(data[0], data[1])
  }

  /** The two bytes `getBytes` computes from any int: its low 16 bits, high
      byte first. */
  function Bytes(value: JInt): (r: seq<JByte>)
    ensures r == BytesBE(value % 0x1_0000, 2)
  {
    var u := value % 0x1_0000;
    UShr32Low16(value);
    ToByteCongruent(value, u % 0x100);
    TwoBytes(u);
    [ToByte(UShr32(value, 8)), ToByte(value)]
  }

  /** `getBytes()`: two bytes, high byte first. */
  function GetBytes(x: UInt16): (r: seq<JByte>)
    requires x.Valid()
    ensures r == BytesBE(x.value, 2)
  {
    assert x.value % 0x1_0000 == x.value;
    Bytes(x.value)
  }

  /** Static `getBytes(value, output)`: writes the low 16 bits of any int to
      output[0..1] and touches nothing else. */
  method GetBytesInto(value: JInt, output: array<JByte>) returns (r: array<JByte>)
    requires output.Length >= 2
    modifies output
    ensures r == output
    ensures output[..2] == Bytes(value)
    ensures output[2..] == old(output[2..])
  {
    output[0] := ToByte(UShr32(value, 8));
    output[1] := ToByte(value);
    r := output;
  }

  /** `intValue()` / `longValue()`: the payload, never negative. */
  function IntValue(x: UInt16): (r: int)
    requires x.Valid()
    ensures 0 <= r <= 0xFFFF && FromInt(r) == Success(x)
  {
    x.value
  }

  /** `equals`: equality by payload value. */
  predicate Equals(x: UInt16, y: UInt16)
    ensures Equals(x, y) <==> x == y
  {
    x.value == y.value
  }

  /** Building a UInt16 from its own bytes gives an equal UInt16. */
  lemma FromArrayGetBytes(x: UInt16)
    requires x.Valid()
    ensures Equals(FromArray(GetBytes(x)), x)
  {
    var bs := GetBytes(x);
    assert bs[..2] == bs;
    assert Pow256(2) == 0x1_0000;
    UnsignedBEOfBytesBE(x.value, 2);
  }

  /** Packing two bytes and splitting the value again gives the bytes back. */
  lemma GetBytesFromBytes(a: JByte, b: JByte)
    ensures GetBytes(FromBytes(a, b)) == [a, b]
  {
    BytesBEOfUnsignedBE([a, b]);
  }
}
