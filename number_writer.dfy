/** NumberWriter (Java interface local.tools.bin.NumberWriter): the byte
    codec a BinaryWriter writes numbers through, one of the big-endian writer
    and the little-endian writer. */
module NumberWriter {
  import opened Java
  import opened ByteOrder
  import opened Streams
  import Int8
  import Int16
  import Int32
  import Int64
  import UInt16
  import UInt32
  import UInt64
  import Float32
  import Float64
  import opened BigEndianNumberWriter
  import opened LittleEndianNumberWriter

  datatype NumberWriter =
    | BigEndianWriter(be: BigEndianNumberWriter)
    | LittleEndianWriter(le: LittleEndianNumberWriter)
  {
    /** The stream the codec appends to. */
    function Target(): OutputStream
    {
      match this
      case BigEndianWriter(w) => w.target
      case LittleEndianWriter(w) => w.target
    }

    ghost predicate Valid()
    {
      LittleEndianWriter? ==> le.Valid()
    }

    /** The order in which the codec puts the bytes of one value, given
        them most significant first. */
    function Layout(bs: seq<JByte>): seq<JByte>
    {
      match this
      case BigEndianWriter(_) => bs
      case LittleEndianWriter(w) => w.arrange(bs)
    }

    /** A codec keeps the number of bytes it is given. */
    lemma LayoutLength(bs: seq<JByte>)
      requires Valid()
      ensures |Layout(bs)| == |bs|
    {
    }

    /** `writeByte(int)`: the low 8 bits of v. */
    method WriteByte(v: JInt)
      modifies Target()
      ensures Target().written == old(Target().written) + Layout([ToByte(v)])
    {
      match this
      case BigEndianWriter(w) => w.WriteByte(v);
      case LittleEndianWriter(w) => w.WriteByte(v);
    }

    /** `writeShort(int)`: the low 16 bits of v. */
    method WriteShort(v: JInt)
      modifies Target()
      ensures Target().written == old(Target().written) + Layout(BytesBE(v % 0x1_0000, 2))
    {
      match this
      case BigEndianWriter(w) => w.WriteShort(v);
      case LittleEndianWriter(w) => w.WriteShort(v);
    }

    /** `writeInt(int)`. */
    method WriteInt(v: JInt)
      modifies Target()
      ensures Target().written == old(Target().written) + Layout(BytesBE(v % 0x1_0000_0000, 4))
    {
      match this
      case BigEndianWriter(w) => w.WriteInt(v);
      case LittleEndianWriter(w) => w.WriteInt(v);
    }

    /** `writeLong(long)`. */
    method WriteLong(v: JLong)
      modifies Target()
      ensures Target().written == old(Target().written) + Layout(BytesBE(v % 0x1_0000_0000_0000_0000, 8))
    {
      match this
      case BigEndianWriter(w) => w.WriteLong(v);
      case LittleEndianWriter(w) => w.WriteLong(v);
    }

    /** `writeFloat(float)`: the raw bits. */
    method WriteFloat(v: Float32.Float32)
      modifies Target()
      ensures Target().written == old(Target().written) + Layout(BytesBE(v.bits % 0x1_0000_0000, 4))
    {
      match this
      case BigEndianWriter(w) => w.WriteFloat(v);
      case LittleEndianWriter(w) => w.WriteFloat(v);
    }

    /** `writeDouble(double)`: the raw bits. */
    method WriteDouble(v: Float64.Float64)
      modifies Target()
      ensures Target().written == old(Target().written) + Layout(BytesBE(v.bits % 0x1_0000_0000_0000_0000, 8))
    {
      match this
      case BigEndianWriter(w) => w.WriteDouble(v);
      case LittleEndianWriter(w) => w.WriteDouble(v);
    }

    /** `writeInt8(Int8)`. */
    method WriteInt8(v: Int8.Int8)
      modifies Target()
      ensures Target().written == old(Target().written) + Layout([v.value])
    {
      match this
      case BigEndianWriter(w) => w.WriteInt8(v);
      case LittleEndianWriter(w) => w.WriteInt8(v);
    }

    /** `writeInt16(Int16)`. */
    method WriteInt16(v: Int16.Int16)
      modifies Target()
      ensures Target().written == old(Target().written) + Layout(BytesBE(v.value % 0x1_0000, 2))
    {
      match this
      case BigEndianWriter(w) => w.WriteInt16(v);
      case LittleEndianWriter(w) => w.WriteInt16(v);
    }

    /** `writeInt32(Int32)`. */
    method WriteInt32(v: Int32.Int32)
      modifies Target()
      ensures Target().written == old(Target().written) + Layout(BytesBE(v.value % 0x1_0000_0000, 4))
    {
      match this
      case BigEndianWriter(w) => w.WriteInt32(v);
      case LittleEndianWriter(w) => w.WriteInt32(v);
    }

    /** `writeInt64(Int64)`. */
    method WriteInt64(v: Int64.Int64)
      modifies Target()
      ensures Target().written == old(Target().written) + Layout(BytesBE(v.value % 0x1_0000_0000_0000_0000, 8))
    {
      match this
      case BigEndianWriter(w) => w.WriteInt64(v);
      case LittleEndianWriter(w) => w.WriteInt64(v);
    }

    /** `writeUInt16(UInt16)`. */
    method WriteUInt16(v: UInt16.UInt16)
      requires v.Valid()
      modifies Target()
      ensures Target().written == old(Target().written) + Layout(BytesBE(v.value, 2))
    {
      match this
      case BigEndianWriter(w) => w.WriteUInt16(v);
      case LittleEndianWriter(w) => w.WriteUInt16(v);
    }

    /** `writeUInt32(UInt32)`. */
    method WriteUInt32(v: UInt32.UInt32)
      requires v.Valid()
      modifies Target()
      ensures Target().written == old(Target().written) + Layout(BytesBE(v.value, 4))
    {
      match this
      case BigEndianWriter(w) => w.WriteUInt32(v);
      case LittleEndianWriter(w) => w.WriteUInt32(v);
    }

    /** `writeUInt64(UInt64)`. */
    method WriteUInt64(v: UInt64.UInt64)
      requires v.Valid()
      modifies Target()
      ensures Target().written == old(Target().written) + Layout(BytesBE(v.value, 8))
    {
      match this
      case BigEndianWriter(w) => w.WriteUInt64(v);
      case LittleEndianWriter(w) => w.WriteUInt64(v);
    }

    /** `writeFloat32(Float32)`. */
    method WriteFloat32(v: Float32.Float32)
      modifies Target()
      ensures Target().written == old(Target().written) + Layout(BytesBE(v.bits % 0x1_0000_0000, 4))
    {
      match this
      case BigEndianWriter(w) => w.WriteFloat32(v);
      case LittleEndianWriter(w) => w.WriteFloat32(v);
    }

    /** `writeFloat64(Float64)`. */
    method WriteFloat64(v: Float64.Float64)
      modifies Target()
      ensures Target().written == old(Target().written) + Layout(BytesBE(v.bits % 0x1_0000_0000_0000_0000, 8))
    {
      match this
      case BigEndianWriter(w) => w.WriteFloat64(v);
      case LittleEndianWriter(w) => w.WriteFloat64(v);
    }
  }
}
