/** Int8: an immutable signed 8-bit value (Java class local.tools.primitives.Int8). */
module Int8 {
  import opened Java
  import opened ByteOrder

  const MIN_VALUE: JByte := -0x80
  const MAX_VALUE: JByte := 0x7F

  /** `new Int8(byte)` is the datatype constructor itself. */
  datatype Int8 = Int8(value: JByte)

  /** `new Int8(int)`: keeps the low 8 bits of the argument as a signed byte. */
  function FromInt(v: int): (r: Int8)
    ensures (r.value - v) % 0x100 == 0
    ensures MIN_VALUE <= v <= MAX_VALUE ==> r.value == v
  {
    Int8(ToByte(v))
  }

  /** `getBytes()`: a one-byte array holding the payload. */
  function GetBytes(x: Int8): (r: seq<JByte>)
    ensures r == [x.value]
    ensures FromInt(r[0]) == x && UnsignedBE(r) == LowByte(x.value)
  {
    [x.value]
  }

  /** Static `getBytes(value, output)`: stores the byte in output[0] and
      hands the same array back. */
  method GetBytesInto(value: JByte, output: array<JByte>) returns (r: array<JByte>)
    requires output.Length >= 1
    modifies output
    ensures r == output
    ensures output[..] == old(output[..])[0 := value]
  {
    output[0] := value;
    r := output;
  }

  /** `intValue()` / `longValue()`: the payload sign-extended, always in the
      signed byte range. */
  function IntValue(x: Int8): (r: int)
    ensures MIN_VALUE <= r <= MAX_VALUE
    ensures ToByte(r) == x.value
  {
    x.value
  }

  /** `equals`: two Int8 are equal exactly when their payloads are. */
  predicate Equals(x: Int8, y: Int8)
    ensures Equals(x, y) <==> x.value == y.value
    ensures Equals(x, y) <==> x == y
  {
    x.value == y.value
  }

  /** Two ints give equal Int8 exactly when they agree in their low 8 bits. */
  lemma EqualsFromInt(a: int, b: int)
    ensures Equals(FromInt(a), FromInt(b)) <==> a % 0x100 == b % 0x100
  {
  }
}
