/** BigEndianNumberReader (Java class local.tools.bin.BigEndianNumberReader):
    reads numbers from an input stream, most significant byte first. Every
    method makes exactly as many `read()` calls as its type has bytes; a -1
    from the end of the stream is cast to the byte 0xFF like any other value. */
module BigEndianNumberReader {
  import opened Java
  import opened ByteOrder
  import opened Streams
  import Int8
  import Int16
  import Int32
  import Int64
  import UInt16
  import UInt32
  import UInt64
  import Float32
  import Float64

  class BigEndianNumberReader {
    const source: InputStream

    constructor (source: InputStream)
      ensures this.source == source
    {
      this.source := source;
    }


    /** `readByte()`: the low 8 bits of one read. */
    method ReadByte() returns (r: JByte)
      modifies source
      ensures source.pos == old(source.pos) + 1
      ensures r == AsBytes(old(source.Peek(1)))[0]
    {
      var a := source.Read();
      r := ToByte(a);
    }

    /** `readShort()`: two reads, the first one the high byte. */
    method ReadShort() returns (r: JShort)
      modifies source
      ensures source.pos == old(source.pos) + 2
      ensures r == ToShort(UnsignedBE(AsBytes(old(source.Peek(2)))))
    {
      ghost var read := source.Peek(2);
      var a := source.Read();
      var b := source.Read();
      ReadsOf2(read, a, b);
      assert AsBytes(read) == [ToByte(a), ToByte(b)];
      r := Int16.FromInts(a, b).value;
    }

    /** `readInt()`: four reads, most significant first. */
    method ReadInt() returns (r: JInt)
      modifies source
      ensures source.pos == old(source.pos) + 4
      ensures r == ToInt(UnsignedBE(AsBytes(old(source.Peek(4)))))
    {
      ghost var read := source.Peek(4);
      var a := source.Read();
      var b := source.Read();
      var c := source.Read();
      var d := source.Read();
      ReadsOf4(read, a, b, c, d);
      assert AsBytes(read) == [ToByte(a), ToByte(b), ToByte(c), ToByte(d)];
      r := Int32.FromInts(a, b, c, d).value;
    }

    /** `readLong()`: eight reads, most significant first. */
    method ReadLong() returns (r: JLong)
      modifies source
      ensures source.pos == old(source.pos) + 8
      ensures r == ToLong(UnsignedBE(AsBytes(old(source.Peek(8)))))
    {
      ghost var read := source.Peek(8);
      var a := source.Read();
      var b := source.Read();
      var c := source.Read();
      var d := source.Read();
      var e := source.Read();
      var f := source.Read();
      var g := source.Read();
      var h := source.Read();
      ReadsOf8(read, a, b, c, d, e, f, g, h);
      assert AsBytes(read) == [ToByte(a), ToByte(b), ToByte(c), ToByte(d), ToByte(e), ToByte(f), ToByte(g), ToByte(h)];
      r := Int64.FromInts(a, b, c, d, e, f, g, h).value;
    }

    /** `readInt8()`: one read, cast to a signed byte. */
    method ReadInt8() returns (r: Int8.Int8)
      modifies source
      ensures source.pos == old(source.pos) + 1
      ensures r.value == AsBytes(old(source.Peek(1)))[0]
    {
      var a := source.Read();
      r := Int8.FromInt(a);
    }

    /** `readInt16()`: two reads, the first one the high byte. */
    method ReadInt16() returns (r: Int16.Int16)
      modifies source
      ensures source.pos == old(source.pos) + 2
      ensures r.value == ToShort(UnsignedBE(AsBytes(old(source.Peek(2)))))
    {
      ghost var read := source.Peek(2);
      var a := source.Read();
      var b := source.Read();
      ReadsOf2(read, a, b);
      assert AsBytes(read) == [ToByte(a), ToByte(b)];
      r := Int16.FromInts(a, b);
    }

    /** `readInt32()`: four reads, most significant first. */
    method ReadInt32() returns (r: Int32.Int32)
      modifies source
      ensures source.pos == old(source.pos) + 4
      ensures r.value == ToInt(UnsignedBE(AsBytes(old(source.Peek(4)))))
    {
      ghost var read := source.Peek(4);
      var a := source.Read();
      var b := source.Read();
      var c := source.Read();
      var d := source.Read();
      ReadsOf4(read, a, b, c, d);
      assert AsBytes(read) == [ToByte(a), ToByte(b), ToByte(c), ToByte(d)];
      r := Int32.FromInts(a, b, c, d);
    }

    /** `readInt64()`: eight reads, most significant first. */
    method ReadInt64() returns (r: Int64.Int64)
      modifies source
      ensures source.pos == old(source.pos) + 8
      ensures r.value == ToLong(UnsignedBE(AsBytes(old(source.Peek(8)))))
    {
      ghost var read := source.Peek(8);
      var a := source.Read();
      var b := source.Read();
      var c := source.Read();
      var d := source.Read();
      var e := source.Read();
      var f := source.Read();
      var g := source.Read();
      var h := source.Read();
      ReadsOf8(read, a, b, c, d, e, f, g, h);
      assert AsBytes(read) == [ToByte(a), ToByte(b), ToByte(c), ToByte(d), ToByte(e), ToByte(f), ToByte(g), ToByte(h)];
      r := Int64.FromInts(a, b, c, d, e, f, g, h);
    }

    /** `readFloat32()`: four reads giving the raw bits, most significant first. */
    method ReadFloat32() returns (r: Float32.Float32)
      modifies source
      ensures source.pos == old(source.pos) + 4
      ensures r.bits == ToInt(UnsignedBE(AsBytes(old(source.Peek(4)))))
    {
      ghost var read := source.Peek(4);
      var a := source.Read();
      var b := source.Read();
      var c := source.Read();
      var d := source.Read();
      ReadsOf4(read, a, b, c, d);
      assert AsBytes(read) == [ToByte(a), ToByte(b), ToByte(c), ToByte(d)];
      r := Float32.FromInts(a, b, c, d);
    }

    /** `readFloat64()`: eight reads giving the raw bits, most significant first. */
    method ReadFloat64() returns (r: Float64.Float64)
      modifies source
      ensures source.pos == old(source.pos) + 8
      ensures r.bits == ToLong(UnsignedBE(AsBytes(old(source.Peek(8)))))
    {
      ghost var read := source.Peek(8);
      var a := source.Read();
      var b := source.Read();
      var c := source.Read();
      var d := source.Read();
      var e := source.Read();
      var f := source.Read();
      var g := source.Read();
      var h := source.Read();
      ReadsOf8(read, a, b, c, d, e, f, g, h);
      assert AsBytes(read) == [ToByte(a), ToByte(b), ToByte(c), ToByte(d), ToByte(e), ToByte(f), ToByte(g), ToByte(h)];
      r := Float64.FromInts(a, b, c, d, e, f, g, h);
    }

    /** `readUInt16()`: two reads read unsigned; never a range error. */
    method ReadUInt16() returns (r: UInt16.UInt16)
      modifies source
      ensures source.pos == old(source.pos) + 2
      ensures r.value == UnsignedBE(AsBytes(old(source.Peek(2)))) && r.Valid()
    {
      ghost var read := source.Peek(2);
      var a := source.Read();
      var b := source.Read();
      ReadsOf2(read, a, b);
      assert AsBytes(read) == [ToByte(a), ToByte(b)];
      r := UInt16.FromInts(a, b);
    }

    /** `readUInt32()`: four reads read unsigned; never a range error. */
    method ReadUInt32() returns (r: UInt32.UInt32)
      modifies source
      ensures source.pos == old(source.pos) + 4
      ensures r.value == UnsignedBE(AsBytes(old(source.Peek(4)))) && r.Valid()
    {
      ghost var read := source.Peek(4);
      var a := source.Read();
      var b := source.Read();
      var c := source.Read();
      var d := source.Read();
      ReadsOf4(read, a, b, c, d);
      assert AsBytes(read) == [ToByte(a), ToByte(b), ToByte(c), ToByte(d)];
      r := UInt32.FromInts(a, b, c, d);
    }

    /** `readUInt64()`: eight reads read unsigned; never a range error. */
    method ReadUInt64() returns (r: UInt64.UInt64)
      modifies source
      ensures source.pos == old(source.pos) + 8
      ensures r.value == UnsignedBE(AsBytes(old(source.Peek(8)))) && r.Valid()
    {
      ghost var read := source.Peek(8);
      var a := source.Read();
      var b := source.Read();
      var c := source.Read();
      var d := source.Read();
      var e := source.Read();
      var f := source.Read();
      var g := source.Read();
      var h := source.Read();
      ReadsOf8(read, a, b, c, d, e, f, g, h);
      assert AsBytes(read) == [ToByte(a), ToByte(b), ToByte(c), ToByte(d), ToByte(e), ToByte(f), ToByte(g), ToByte(h)];
      r := UInt64.FromInts(a, b, c, d, e, f, g, h);
    }
  }
}
