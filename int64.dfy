/** Int64: a signed 64-bit value. The class local.tools.primitives.Int64 is
    not part of this model; its `packBytes` and its byte constructors are
    taken to be the eight-byte analogue of Int32's: the bytes read most
    significant first, as a two's complement long. */
module Int64 {
  import opened Java
  import opened ByteOrder

  datatype Int64 = Int64(value: JLong)

  /** Static `packBytes(byte a, ..., byte h)`: a is the most significant byte. */
  function PackBytes(a: JByte, b: JByte, c: JByte, d: JByte, e: JByte, f: JByte, g: JByte, h: JByte): (r: JLong)
    ensures r == ToLong(UnsignedBE([a, b, c, d, e, f, g, h]))
    ensures (r - UnsignedBE([a, b, c, d, e, f, g, h])) % 0x1_0000_0000_0000_0000 == 0
  {
    assert Pow256(8) == 0x1_0000_0000_0000_0000;
    ToLong(UnsignedBE([a, b, c, d, e, f, g, h]))
  }

  /** Static `packBytes(int a, ..., int h)`: each argument is cast to byte first. */
  function PackInts(a: int, b: int, c: int, d: int, e: int, f: int, g: int, h: int): (r: JLong)
    ensures r == ToLong(UnsignedBE([ToByte(a), ToByte(b), ToByte(c), ToByte(d), ToByte(e), ToByte(f), ToByte(g), ToByte(h)]))
  {
    PackBytes(ToByte(a), ToByte(b), ToByte(c), ToByte(d), ToByte(e), ToByte(f), ToByte(g), ToByte(h))
  }

  /** `new Int64(int a, ..., int h)`. */
  function FromInts(a: int, b: int, c: int, d: int, e: int, f: int, g: int, h: int): (r: Int64)
    ensures r.value == PackInts(a, b, c, d, e, f, g, h)
  {
    Int64(PackInts(a, b, c, d, e, f, g, h))
  }

  /** `getBytes()`: eight bytes, most significant first. */
  function GetBytes(x: Int64): (r: seq<JByte>)
    ensures |r| == 8
    ensures PackBytes(r[0], r[1], r[2], r[3], r[4], r[5], r[6], r[7]) == x.value
  {
    var u := x.value % 0x1_0000_0000_0000_0000;
    var r := BytesBE(u, 8);
    assert Pow256(8) == 0x1_0000_0000_0000_0000;
    UnsignedBEOfBytesBE(u, 8);
    assert [r[0], r[1], r[2], r[3], r[4], r[5], r[6], r[7]] == r;
    ToLongPattern(x.value);
    r
  }
}
