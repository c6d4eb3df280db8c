/** NumberReader (Java interface local.tools.bin.NumberReader): the byte
    codec a BinaryReader reads numbers through, one of the big-endian reader
    and the little-endian reader. */
module NumberReader {
  import opened Java
  import opened ByteOrder
  import opened Streams
  import Int8
  import Int16
  import Int32
  import Int64
  import UInt16
  import UInt32
  import UInt64
  import Float32
  import Float64
  import opened BigEndianNumberReader
  import opened LittleEndianNumberReader

  datatype NumberReader =
    | BigEndianReader(be: BigEndianNumberReader)
    | LittleEndianReader(le: LittleEndianNumberReader)
  {
    /** The stream the codec reads from. */
    function Source(): InputStream
    {
      match this
      case BigEndianReader(rd) => rd.source
      case LittleEndianReader(rd) => rd.source
    }

    /** How the codec reads a run of bytes as an unsigned number. */
    function Unsigned(bs: seq<JByte>): nat
    {
      if BigEndianReader? then UnsignedBE(bs) else UnsignedLE(bs)
    }

    /** `readByte()`: 1 read, combined in the codec's byte order. */
    method ReadByte() returns (r: JByte)
      modifies Source()
      ensures Source().pos == old(Source().pos) + 1
      ensures r == AsBytes(old(Source().Peek(1)))[0]
    {
      match this
      case BigEndianReader(rd) => r := rd.ReadByte();
      case LittleEndianReader(rd) => r := rd.ReadByte();
    }

    /** `readShort()`: 2 reads, combined in the codec's byte order. */
    method ReadShort() returns (r: JShort)
      modifies Source()
      ensures Source().pos == old(Source().pos) + 2
      ensures r == ToShort(Unsigned(AsBytes(old(Source().Peek(2)))))
    {
      match this
      case BigEndianReader(rd) => r := rd.ReadShort();
      case LittleEndianReader(rd) => r := rd.ReadShort();
    }

    /** `readInt()`: 4 reads, combined in the codec's byte order. */
    method ReadInt() returns (r: JInt)
      modifies Source()
      ensures Source().pos == old(Source().pos) + 4
      ensures r == ToInt(Unsigned(AsBytes(old(Source().Peek(4)))))
    {
      match this
      case BigEndianReader(rd) => r := rd.ReadInt();
      case LittleEndianReader(rd) => r := rd.ReadInt();
    }

    /** `readLong()`: 8 reads, combined in the codec's byte order. */
    method ReadLong() returns (r: JLong)
      modifies Source()
      ensures Source().pos == old(Source().pos) + 8
      ensures r == ToLong(Unsigned(AsBytes(old(Source().Peek(8)))))
    {
      match this
      case BigEndianReader(rd) => r := rd.ReadLong();
      case LittleEndianReader(rd) => r := rd.ReadLong();
    }

    /** `readInt8()`: 1 read, combined in the codec's byte order. */
    method ReadInt8() returns (r: Int8.Int8)
      modifies Source()
      ensures Source().pos == old(Source().pos) + 1
      ensures r.value == AsBytes(old(Source().Peek(1)))[0]
    {
      match this
      case BigEndianReader(rd) => r := rd.ReadInt8();
      case LittleEndianReader(rd) => r := rd.ReadInt8();
    }

    /** `readInt16()`: 2 reads, combined in the codec's byte order. */
    method ReadInt16() returns (r: Int16.Int16)
      modifies Source()
      ensures Source().pos == old(Source().pos) + 2
      ensures r.value == ToShort(Unsigned(AsBytes(old(Source().Peek(2)))))
    {
      match this
      case BigEndianReader(rd) => r := rd.ReadInt16();
      case LittleEndianReader(rd) => r := rd.ReadInt16();
    }

    /** `readInt32()`: 4 reads, combined in the codec's byte order. */
    method ReadInt32() returns (r: Int32.Int32)
      modifies Source()
      ensures Source().pos == old(Source().pos) + 4
      ensures r.value == ToInt(Unsigned(AsBytes(old(Source().Peek(4)))))
    {
      match this
      case BigEndianReader(rd) => r := rd.ReadInt32();
      case LittleEndianReader(rd) => r := rd.ReadInt32();
    }

    /** `readInt64()`: 8 reads, combined in the codec's byte order. */
    method ReadInt64() returns (r: Int64.Int64)
      modifies Source()
      ensures Source().pos == old(Source().pos) + 8
      ensures r.value == ToLong(Unsigned(AsBytes(old(Source().Peek(8)))))
    {
      match this
      case BigEndianReader(rd) => r := rd.ReadInt64();
      case LittleEndianReader(rd) => r := rd.ReadInt64();
    }

    /** `readFloat32()`: 4 reads, combined in the codec's byte order. */
    method ReadFloat32() returns (r: Float32.Float32)
      modifies Source()
      ensures Source().pos == old(Source().pos) + 4
      ensures r.bits == ToInt(Unsigned(AsBytes(old(Source().Peek(4)))))
    {
      match this
      case BigEndianReader(rd) => r := rd.ReadFloat32();
      case LittleEndianReader(rd) => r := rd.ReadFloat32();
    }

    /** `readFloat64()`: 8 reads, combined in the codec's byte order. */
    method ReadFloat64() returns (r: Float64.Float64)
      modifies Source()
      ensures Source().pos == old(Source().pos) + 8
      ensures r.bits == ToLong(Unsigned(AsBytes(old(Source().Peek(8)))))
    {
      match this
      case BigEndianReader(rd) => r := rd.ReadFloat64();
      case LittleEndianReader(rd) => r := rd.ReadFloat64();
    }

    /** `readUInt16()`: 2 reads, combined in the codec's byte order. */
    method ReadUInt16() returns (r: UInt16.UInt16)
      modifies Source()
      ensures Source().pos == old(Source().pos) + 2
      ensures r.value == Unsigned(AsBytes(old(Source().Peek(2)))) && r.Valid()
    {
      match this
      case BigEndianReader(rd) => r := rd.ReadUInt16();
      case LittleEndianReader(rd) => r := rd.ReadUInt16();
    }

    /** `readUInt32()`: 4 reads, combined in the codec's byte order. */
    method ReadUInt32() returns (r: UInt32.UInt32)
      modifies Source()
      ensures Source().pos == old(Source().pos) + 4
      ensures r.value == Unsigned(AsBytes(old(Source().Peek(4)))) && r.Valid()
    {
      match this
      case BigEndianReader(rd) => r := rd.ReadUInt32();
      case LittleEndianReader(rd) => r := rd.ReadUInt32();
    }

    /** `readUInt64()`: 8 reads, combined in the codec's byte order. */
    method ReadUInt64() returns (r: UInt64.UInt64)
      modifies Source()
      ensures Source().pos == old(Source().pos) + 8
      ensures r.value == Unsigned(AsBytes(old(Source().Peek(8)))) && r.Valid()
    {
      match this
      case BigEndianReader(rd) => r := rd.ReadUInt64();
      case LittleEndianReader(rd) => r := rd.ReadUInt64();
    }
  }
}
