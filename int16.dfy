/** Int16: an immutable signed 16-bit value (Java class local.tools.primitives.Int16). */
module Int16 {
  import opened Java
  import opened ByteOrder

  const MIN_VALUE: JShort := -0x8000
  const MAX_VALUE: JShort := 0x7FFF

  /** `new Int16(short)` is the datatype constructor itself. */
  datatype Int16 = Int16(value: JShort)

  /** `new Int16(int)`: keeps the low 16 bits of the argument. */
  function FromInt(v: int): (r: Int16)
    ensures (r.value - v) % 0x1_0000 == 0
    ensures MIN_VALUE <= v <= MAX_VALUE ==> r.value == v
  {
    Int16(ToShort(v))
  }

  /** Static `packBytes(byte a, byte b)`: a is the high byte, b the low byte.
      The source combines the shifted bytes with `|`; their bits are
      disjoint, so the combination is their sum. */
  function PackBytes(a: JByte, b: JByte): (r: JShort)
    ensures r == ToShort(UnsignedBE([a, b]))
  {
    assert [a, b][..1] == [a];
    ToShort(LowByte(a) * 0x100 + LowByte(b))
  }

  /** Static `packBytes(int a, int b)`: each argument is cast to byte first,
      so only its low 8 bits count (an end-of-stream -1 becomes 0xFF). */
  function PackInts(a: int, b: int): (r: JShort)
    ensures r == ToShort(UnsignedBE([ToByte(a), ToByte(b)]))
  {
    PackBytes(ToByte(a), ToByte(b))
  }

  /** `new Int16(byte a, byte b)`. */
  function FromBytes(a: JByte, b: JByte): (r: Int16)
    ensures r.value == ToShort(UnsignedBE([a, b]))
  {
    Int16(PackBytes(a, b))
  }

  /** `new Int16(int a, int b)`: the arguments are cast to byte. */
  function FromInts(a: int, b: int): (r: Int16)
    ensures r.value == PackInts(a, b)
  {
    FromBytes(ToByte(a), ToByte(b))
  }

  /** `new Int16(byte[] bytes)`: reads bytes[0] and bytes[1] only. */
  function FromArray(bytes: seq<JByte>): (r: Int16)
    requires |bytes| >= 2
    ensures r.value == ToShort(UnsignedBE(bytes[..2]))
  {
    assert bytes[..2] == [bytes[0], bytes[1]];
    FromBytes(bytes[0], bytes[1])
  }

  /** `getBytes()`: two bytes, high byte first. */
  function GetBytes(x: Int16): (r: seq<JByte>)
    ensures r == BytesBE(x.value % 0x1_0000, 2)
    ensures PackBytes(r[0], r[1]) == x.value
  {
    var r := [ToByte(UShr32(x.value, 8)), ToByte(x.value)];
    RoundTrip(x.value, r);
    r
  }

  /** A value cut to 16 bits by `new Int16(int)` has the bytes of the
      value's own low 16 bits. */
  lemma FromIntBytes(v: int)
    ensures GetBytes(FromInt(v)) == BytesBE(v % 0x1_0000, 2)
  {
    var x := FromInt(v);
    assert x.value % 0x1_0000 == v % 0x1_0000;
  }

  /** The two bytes the source computes are the reference encoding of the
      value's 16-bit pattern, and they pack back to the value. */
  lemma RoundTrip(v: JShort, r: seq<JByte>)
    requires r == [ToByte(UShr32(v, 8)), ToByte(v)]
    ensures r == BytesBE(v % 0x1_0000, 2)
    ensures PackBytes(r[0], r[1]) == v
  {
    var u := v % 0x1_0000;
    assert r[0] == ToByte(u / 0x100) by {
      UShr32Low16(v);
    }
    assert r[1] == ToByte(u % 0x100) by {
      ToByteCongruent(v, u % 0x100);
    }
    assert r == BytesBE(u, 2) by {
      TwoBytes(u);
    }
    assert UnsignedBE(r) == u by {
      UnsignedBEOfBytesBE(u, 2);
    }
    assert PackBytes(r[0], r[1]) == ToShort(UnsignedBE(r)) by {
      assert [r[0], r[1]] == r;
    }
    ToShortPattern(v);
  }

  /** Static `getBytes(value, output)`: writes output[0..1] only, high byte
      first, and hands the same array back. */
  method GetBytesInto(value: JShort, output: array<JByte>) returns (r: array<JByte>)
    requires output.Length >= 2
    modifies output
    ensures r == output
    ensures output[..2] == GetBytes(Int16(value))
    ensures output[2..] == old(output[2..])
  {
    output[0] := ToByte(UShr32(value, 8));
    output[1] := ToByte(value);
    r := output;
  }

  /** `equals`: equality by payload value. */
  predicate Equals(x: Int16, y: Int16)
    ensures Equals(x, y) <==> x == y
  {
    x.value == y.value
  }

  /** Building an Int16 from its own bytes gives an equal Int16. */
  lemma {:induction false} FromArrayGetBytes(x: Int16)
    ensures Equals(FromArray(GetBytes(x)), x)
  {
    var bs := GetBytes(x);
    assert bs[..2] == bs;
  }

  /** Packing two bytes and splitting the value again gives the bytes back. */
  lemma GetBytesFromBytes(a: JByte, b: JByte)
    ensures GetBytes(FromBytes(a, b)) == [a, b]
  {
    var u := UnsignedBE([a, b]);
    assert Pow256(2) == 0x1_0000;
    assert ToShort(u) % 0x1_0000 == u;
    BytesBEOfUnsignedBE([a, b]);
  }
}
