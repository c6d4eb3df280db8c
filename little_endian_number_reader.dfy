/** LittleEndianNumberReader (Java class local.tools.bin.LittleEndianNumberReader):
    reads numbers from an input stream, least significant byte first. It
    makes the same reads as the big-endian reader and packs the bytes in
    reverse order. */
module LittleEndianNumberReader {
  import opened Java
  import opened ByteOrder
  import opened Streams
  import Int8
  import Int16
  import Int32
  import Int64
  import UInt16
  import UInt32
  import UInt64
  import Float32
  import Float64

  class LittleEndianNumberReader {
    const source: InputStream

    constructor (source: InputStream)
      ensures this.source == source
    {
      this.source := source;
    }


    /** `readByte()`: the low 8 bits of one read, as in the big-endian reader. */
    method ReadByte() returns (r: JByte)
      modifies source
      ensures source.pos == old(source.pos) + 1
      ensures r == AsBytes(old(source.Peek(1)))[0]
    {
      var a := source.Read();
      r := ToByte(a);
    }

    /** `readShort()`: two reads, the first one the low byte: `Int16.packBytes(second, first)`. */
    method ReadShort() returns (r: JShort)
      modifies source
      ensures source.pos == old(source.pos) + 2
      ensures r == ToShort(UnsignedLE(AsBytes(old(source.Peek(2)))))
    {
      ghost var read := source.Peek(2);
      var b := source.Read();
      var a := source.Read();
      ReadsOf2(read, b, a);
      ReversedReads(read, [ToByte(a), ToByte(b)]);
      r := Int16.PackInts(a, b);
    }

    /** `readInt()`: four reads, least significant first, packed in reverse. */
    method ReadInt() returns (r: JInt)
      modifies source
      ensures source.pos == old(source.pos) + 4
      ensures r == ToInt(UnsignedLE(AsBytes(old(source.Peek(4)))))
    {
      ghost var read := source.Peek(4);
      var d := source.Read();
      var c := source.Read();
      var b := source.Read();
      var a := source.Read();
      ReadsOf4(read, d, c, b, a);
      ReversedReads(read, [ToByte(a), ToByte(b), ToByte(c), ToByte(d)]);
      r := Int32.PackInts(a, b, c, d);
    }

    /** `readLong()`: eight reads, least significant first, packed in reverse. */
    method ReadLong() returns (r: JLong)
      modifies source
      ensures source.pos == old(source.pos) + 8
      ensures r == ToLong(UnsignedLE(AsBytes(old(source.Peek(8)))))
    {
      ghost var read := source.Peek(8);
      var h := source.Read();
      var g := source.Read();
      var f := source.Read();
      var e := source.Read();
      var d := source.Read();
      var c := source.Read();
      var b := source.Read();
      var a := source.Read();
      ReadsOf8(read, h, g, f, e, d, c, b, a);
      ReversedReads(read, [ToByte(a), ToByte(b), ToByte(c), ToByte(d), ToByte(e), ToByte(f), ToByte(g), ToByte(h)]);
      r := Int64.PackInts(a, b, c, d, e, f, g, h);
    }

    /** `readInt8()`: one read, cast to a signed byte, as in the big-endian reader. */
    method ReadInt8() returns (r: Int8.Int8)
      modifies source
      ensures source.pos == old(source.pos) + 1
      ensures r.value == AsBytes(old(source.Peek(1)))[0]
    {
      var a := source.Read();
      r := Int8.FromInt(a);
    }

    /** `readInt16()`: two reads, the first one the low byte. */
    method ReadInt16() returns (r: Int16.Int16)
      modifies source
      ensures source.pos == old(source.pos) + 2
      ensures r.value == ToShort(UnsignedLE(AsBytes(old(source.Peek(2)))))
    {
      ghost var read := source.Peek(2);
      var b := source.Read();
      var a := source.Read();
      ReadsOf2(read, b, a);
      ReversedReads(read, [ToByte(a), ToByte(b)]);
      r := Int16.FromInts(a, b);
    }

    /** `readInt32()`: four reads, least significant first. */
    method ReadInt32() returns (r: Int32.Int32)
      modifies source
      ensures source.pos == old(source.pos) + 4
      ensures r.value == ToInt(UnsignedLE(AsBytes(old(source.Peek(4)))))
    {
      ghost var read := source.Peek(4);
      var d := source.Read();
      var c := source.Read();
      var b := source.Read();
      var a := source.Read();
      ReadsOf4(read, d, c, b, a);
      ReversedReads(read, [ToByte(a), ToByte(b), ToByte(c), ToByte(d)]);
      r := Int32.FromInts(a, b, c, d);
    }

    /** `readInt64()`: eight reads, least significant first. */
    method ReadInt64() returns (r: Int64.Int64)
      modifies source
      ensures source.pos == old(source.pos) + 8
      ensures r.value == ToLong(UnsignedLE(AsBytes(old(source.Peek(8)))))
    {
      ghost var read := source.Peek(8);
      var h := source.Read();
      var g := source.Read();
      var f := source.Read();
      var e := source.Read();
      var d := source.Read();
      var c := source.Read();
      var b := source.Read();
      var a := source.Read();
      ReadsOf8(read, h, g, f, e, d, c, b, a);
      ReversedReads(read, [ToByte(a), ToByte(b), ToByte(c), ToByte(d), ToByte(e), ToByte(f), ToByte(g), ToByte(h)]);
      r := Int64.FromInts(a, b, c, d, e, f, g, h);
    }

    /** `readFloat32()`: four reads giving the raw bits, least significant first. */
    method ReadFloat32() returns (r: Float32.Float32)
      modifies source
      ensures source.pos == old(source.pos) + 4
      ensures r.bits == ToInt(UnsignedLE(AsBytes(old(source.Peek(4)))))
    {
      ghost var read := source.Peek(4);
      var d := source.Read();
      var c := source.Read();
      var b := source.Read();
      var a := source.Read();
      ReadsOf4(read, d, c, b, a);
      ReversedReads(read, [ToByte(a), ToByte(b), ToByte(c), ToByte(d)]);
      r := Float32.FromInts(a, b, c, d);
    }

    /** `readFloat64()`: eight reads giving the raw bits, least significant first. */
    method ReadFloat64() returns (r: Float64.Float64)
      modifies source
      ensures source.pos == old(source.pos) + 8
      ensures r.bits == ToLong(UnsignedLE(AsBytes(old(source.Peek(8)))))
    {
      ghost var read := source.Peek(8);
      var h := source.Read();
      var g := source.Read();
      var f := source.Read();
      var e := source.Read();
      var d := source.Read();
      var c := source.Read();
      var b := source.Read();
      var a := source.Read();
      ReadsOf8(read, h, g, f, e, d, c, b, a);
      ReversedReads(read, [ToByte(a), ToByte(b), ToByte(c), ToByte(d), ToByte(e), ToByte(f), ToByte(g), ToByte(h)]);
      r := Float64.FromInts(a, b, c, d, e, f, g, h);
    }

    /** `readUInt16()`: two reads read unsigned, low byte first; never a range error. */
    method ReadUInt16() returns (r: UInt16.UInt16)
      modifies source
      ensures source.pos == old(source.pos) + 2
      ensures r.value == UnsignedLE(AsBytes(old(source.Peek(2)))) && r.Valid()
    {
      ghost var read := source.Peek(2);
      var b := source.Read();
      var a := source.Read();
      ReadsOf2(read, b, a);
      ReversedReads(read, [ToByte(a), ToByte(b)]);
      r := UInt16.FromInts(a, b);
    }

    /** `readUInt32()`: four reads read unsigned, least significant first; never a range error. */
    method ReadUInt32() returns (r: UInt32.UInt32)
      modifies source
      ensures source.pos == old(source.pos) + 4
      ensures r.value == UnsignedLE(AsBytes(old(source.Peek(4)))) && r.Valid()
    {
      ghost var read := source.Peek(4);
      var d := source.Read();
      var c := source.Read();
      var b := source.Read();
      var a := source.Read();
      ReadsOf4(read, d, c, b, a);
      ReversedReads(read, [ToByte(a), ToByte(b), ToByte(c), ToByte(d)]);
      r := UInt32.FromInts(a, b, c, d);
    }

    /** `readUInt64()`: eight reads read unsigned, least significant first; never a range error. */
    method ReadUInt64() returns (r: UInt64.UInt64)
      modifies source
      ensures source.pos == old(source.pos) + 8
      ensures r.value == UnsignedLE(AsBytes(old(source.Peek(8)))) && r.Valid()
    {
      ghost var read := source.Peek(8);
      var h := source.Read();
      var g := source.Read();
      var f := source.Read();
      var e := source.Read();
      var d := source.Read();
      var c := source.Read();
      var b := source.Read();
      var a := source.Read();
      ReadsOf8(read, h, g, f, e, d, c, b, a);
      ReversedReads(read, [ToByte(a), ToByte(b), ToByte(c), ToByte(d), ToByte(e), ToByte(f), ToByte(g), ToByte(h)]);
      r := UInt64.FromInts(a, b, c, d, e, f, g, h);
    }
  }
}
