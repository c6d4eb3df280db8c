/** Int32: an immutable signed 32-bit value (Java class local.tools.primitives.Int32). */
module Int32 {
  import opened Java
  import opened ByteOrder

  const MIN_VALUE: JInt := -0x8000_0000
  const MAX_VALUE: JInt := 0x7FFF_FFFF

  /** `new Int32(int)` is the datatype constructor itself. */
  datatype Int32 = Int32(value: JInt)

  /** Static `packBytes(byte a, byte b, byte c, byte d)`: a is the most
      significant byte. The shifted bytes have disjoint bits, so the source's
      `|` is their sum; the `<< 24` overflows into the sign bit, which is the
      final cast to int here. */
  function PackBytes(a: JByte, b: JByte, c: JByte, d: JByte): (r: JInt)
    ensures r == ToInt(UnsignedBE([a, b, c, d]))
  {
    FourBytesValue(a, b, c, d);
    ToInt(LowByte(a) * 0x100_0000 + LowByte(b) * 0x1_0000 + LowByte(c) * 0x100 + LowByte(d))
  }

  /** The unsigned reading of four bytes, spelt out. */
  lemma FourBytesValue(a: JByte, b: JByte, c: JByte, d: JByte)
    ensures UnsignedBE([a, b, c, d]) == LowByte(a) * 0x100_0000 + LowByte(b) * 0x1_0000 + LowByte(c) * 0x100 + LowByte(d)
  {
    UnsignedBEAppend([], a);
    assert [a] == [] + [a];
    UnsignedBEAppend([a], b);
    assert [a, b] == [a] + [b];
    UnsignedBEAppend([a, b], c);
    assert [a, b, c] == [a, b] + [c];
    UnsignedBEAppend([a, b, c], d);
    assert [a, b, c, d] == [a, b, c] + [d];
  }

  /** Static `packBytes(int a, int b, int c, int d)`: each argument is cast to
      byte first, so only its low 8 bits count. */
  function PackInts(a: int, b: int, c: int, d: int): (r: JInt)
    ensures r == ToInt(UnsignedBE([ToByte(a), ToByte(b), ToByte(c), ToByte(d)]))
  {
    PackBytes(ToByte(a), ToByte(b), ToByte(c), ToByte(d))
  }

  /** `new Int32(byte a, byte b, byte c, byte d)`. */
  function FromBytes(a: JByte, b: JByte, c: JByte, d: JByte): (r: Int32)
    ensures r.value == ToInt(UnsignedBE([a, b, c, d]))
  {
    Int32(PackBytes(a, b, c, d))
  }

  /** `new Int32(int a, int b, int c, int d)`: the arguments are cast to byte. */
  function FromInts(a: int, b: int, c: int, d: int): (r: Int32)
    ensures r.value == PackInts(a, b, c, d)
  {
    FromBytes(ToByte(a), ToByte(b), ToByte(c), ToByte(d))
  }

  /** `new Int32(byte[] data)`: reads data[0..3] only. */
  function FromArray(data: seq<JByte>): (r: Int32)
    requires |data| >= 4
    ensures r.value == ToInt(UnsignedBE(data[..4]))
  {
    assert data[..4] == [data[0], data[1], data[2], data[3]];
    FromBytes(data[0], data[1], data[2], data[3])
  }

  /** The four bytes `getBytes` computes from an int, high byte first. */
  function Bytes(v: JInt): (r: seq<JByte>)
    ensures r == BytesBE(v % 0x1_0000_0000, 4)
    ensures PackBytes(r[0], r[1], r[2], r[3]) == v
  {
    var r := [ToByte(UShr32(v, 24)), ToByte(UShr32(v, 16)), ToByte(UShr32(v, 8)), ToByte(v)];
    RoundTrip(v, r);
    r
  }

  /** `getBytes()`: four bytes, most significant first. */
  function GetBytes(x: Int32): (r: seq<JByte>)
    ensures |r| == 4
    ensures r == BytesBE(x.value % 0x1_0000_0000, 4)
  {
    Bytes(x.value)
  }

  /** The bytes the source's shifts compute are the reference encoding of the
      value's 32-bit pattern, and they pack back to the value. */
  lemma RoundTrip(v: JInt, r: seq<JByte>)
    requires r == [ToByte(UShr32(v, 24)), ToByte(UShr32(v, 16)), ToByte(UShr32(v, 8)), ToByte(v)]
    ensures r == BytesBE(v % 0x1_0000_0000, 4)
    ensures PackBytes(r[0], r[1], r[2], r[3]) == v
  {
    var u := v % 0x1_0000_0000;
    assert UShr32(v, 24) == u / 0x100_0000 && UShr32(v, 16) == u / 0x1_0000 && UShr32(v, 8) == u / 0x100;
    assert r[3] == ToByte(u) by {
      ToByteCongruent(v, u);
    }
    assert r == BytesBE(u, 4) by {
      FourBytes(u);
    }
    assert UnsignedBE(r) == u by {
      assert Pow256(4) == 0x1_0000_0000;
      UnsignedBEOfBytesBE(u, 4);
    }
    assert PackBytes(r[0], r[1], r[2], r[3]) == ToInt(UnsignedBE(r)) by {
      assert [r[0], r[1], r[2], r[3]] == r;
    }
    ToIntPattern(v);
  }

  /** Static `getBytes(value, output)`: writes output[0..3] only, most
      significant byte first, and hands the same array back. */
  method GetBytesInto(value: JInt, output: array<JByte>) returns (r: array<JByte>)
    requires output.Length >= 4
    modifies output
    ensures r == output
    ensures output[..4] == Bytes(value)
    ensures output[4..] == old(output[4..])
  {
    output[0] := ToByte(UShr32(value, 24));
    output[1] := ToByte(UShr32(value, 16));
    output[2] := ToByte(UShr32(value, 8));
    output[3] := ToByte(value);
    r := output;
  }

  /** `intValue()` / `longValue()`: the payload itself. */
  function IntValue(x: Int32): (r: int)
    ensures MIN_VALUE <= r <= MAX_VALUE && Int32(r) == x
  {
    x.value
  }

  /** `equals`: equality by payload value. */
  predicate Equals(x: Int32, y: Int32)
    ensures Equals(x, y) <==> x == y
  {
    x.value == y.value
  }

  /** Building an Int32 from its own bytes gives an equal Int32. */
  lemma FromArrayGetBytes(x: Int32)
    ensures Equals(FromArray(GetBytes(x)), x)
  {
    var bs := GetBytes(x);
    assert bs[..4] == bs;
  }

  /** Packing four bytes and splitting the value again gives the bytes back. */
  lemma GetBytesFromBytes(a: JByte, b: JByte, c: JByte, d: JByte)
    ensures GetBytes(FromBytes(a, b, c, d)) == [a, b, c, d]
  {
    var bs := [a, b, c, d];
    var u := UnsignedBE(bs);
    assert Pow256(4) == 0x1_0000_0000;
    assert ToInt(u) % 0x1_0000_0000 == u;
    BytesBEOfUnsignedBE(bs);
  }
}
