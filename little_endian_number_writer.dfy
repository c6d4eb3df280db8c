/** LittleEndianNumberWriter (Java class local.tools.bin.LittleEndianNumberWriter).
    Its source is not part of this model, so its byte order is not assumed:
    the writer is given, when it is built, the arrangement `arrange` it
    applies to a value's big-endian bytes before appending them. The only
    thing assumed of the arrangement is that it keeps the number of bytes. */
module LittleEndianNumberWriter {
  import opened Java
  import opened ByteOrder
  import opened Streams
  import Int8
  import Int16
  import Int32
  import Int64
  import UInt16
  import UInt32
  import UInt64
  import Float32
  import Float64

  class LittleEndianNumberWriter {
    const target: OutputStream
    /** How the writer orders the bytes of one value, given them most
        significant first. */
    const arrange: seq<JByte> -> seq<JByte>

    /** The arrangement keeps the number of bytes. */
    ghost predicate Valid()
    {
      forall bs :: |arrange(bs)| == |bs|
    }

    constructor (target: OutputStream, arrange: seq<JByte> -> seq<JByte>)
      requires forall bs :: |arrange(bs)| == |bs|
      ensures this.target == target && this.arrange == arrange && Valid()
    {
      this.target := target;
      this.arrange := arrange;
    }

    /** `writeByte(int)`: the low 8 bits of v: the value's bytes, arranged. */
    method WriteByte(v: JInt)
      modifies target
      ensures target.written == old(target.written) + arrange([ToByte(v)])
    {
      target.WriteAll(arrange(Int8.GetBytes(Int8.FromInt(v))));
    }

    /** `writeShort(int)`: the low 16 bits of v: the value's bytes, arranged. */
    method WriteShort(v: JInt)
      modifies target
      ensures target.written == old(target.written) + arrange(BytesBE(v % 0x1_0000, 2))
    {
      Int16.FromIntBytes(v);
      target.WriteAll(arrange(Int16.GetBytes(Int16.FromInt(v))));
    }

    /** `writeInt(int)`: the value's bytes, arranged. */
    method WriteInt(v: JInt)
      modifies target
      ensures target.written == old(target.written) + arrange(BytesBE(v % 0x1_0000_0000, 4))
    {
      target.WriteAll(arrange(Int32.Bytes(v)));
    }

    /** `writeLong(long)`: the value's bytes, arranged. */
    method WriteLong(v: JLong)
      modifies target
      ensures target.written == old(target.written) + arrange(BytesBE(v % 0x1_0000_0000_0000_0000, 8))
    {
      target.WriteAll(arrange(Int64.GetBytes(Int64.Int64(v))));
    }

    /** `writeFloat(float)`: the raw bits: the value's bytes, arranged. */
    method WriteFloat(v: Float32.Float32)
      modifies target
      ensures target.written == old(target.written) + arrange(BytesBE(v.bits % 0x1_0000_0000, 4))
    {
      target.WriteAll(arrange(Float32.GetBytes(v)));
    }

    /** `writeDouble(double)`: the raw bits: the value's bytes, arranged. */
    method WriteDouble(v: Float64.Float64)
      modifies target
      ensures target.written == old(target.written) + arrange(BytesBE(v.bits % 0x1_0000_0000_0000_0000, 8))
    {
      target.WriteAll(arrange(Float64.Bytes(v.bits)));
    }

    /** `writeInt8(Int8)`: the value's bytes, arranged. */
    method WriteInt8(v: Int8.Int8)
      modifies target
      ensures target.written == old(target.written) + arrange([v.value])
    {
      target.WriteAll(arrange(Int8.GetBytes(v)));
    }

    /** `writeInt16(Int16)`: the value's bytes, arranged. */
    method WriteInt16(v: Int16.Int16)
      modifies target
      ensures target.written == old(target.written) + arrange(BytesBE(v.value % 0x1_0000, 2))
    {
      target.WriteAll(arrange(Int16.GetBytes(v)));
    }

    /** `writeInt32(Int32)`: the value's bytes, arranged. */
    method WriteInt32(v: Int32.Int32)
      modifies target
      ensures target.written == old(target.written) + arrange(BytesBE(v.value % 0x1_0000_0000, 4))
    {
      target.WriteAll(arrange(Int32.GetBytes(v)));
    }

    /** `writeInt64(Int64)`: the value's bytes, arranged. */
    method WriteInt64(v: Int64.Int64)
      modifies target
      ensures target.written == old(target.written) + arrange(BytesBE(v.value % 0x1_0000_0000_0000_0000, 8))
    {
      target.WriteAll(arrange(Int64.GetBytes(v)));
    }

    /** `writeUInt16(UInt16)`: the value's bytes, arranged. */
    method WriteUInt16(v: UInt16.UInt16)
      requires v.Valid()
      modifies target
      ensures target.written == old(target.written) + arrange(BytesBE(v.value, 2))
    {
      target.WriteAll(arrange(UInt16.GetBytes(v)));
    }

    /** `writeUInt32(UInt32)`: the value's bytes, arranged. */
    method WriteUInt32(v: UInt32.UInt32)
      requires v.Valid()
      modifies target
      ensures target.written == old(target.written) + arrange(BytesBE(v.value, 4))
    {
      target.WriteAll(arrange(UInt32.GetBytes(v)));
    }

    /** `writeUInt64(UInt64)`: the value's bytes, arranged. */
    method WriteUInt64(v: UInt64.UInt64)
      requires v.Valid()
      modifies target
      ensures target.written == old(target.written) + arrange(BytesBE(v.value, 8))
    {
      target.WriteAll(arrange(UInt64.Bytes(v)));
    }

    /** `writeFloat32(Float32)`: the value's bytes, arranged. */
    method WriteFloat32(v: Float32.Float32)
      modifies target
      ensures target.written == old(target.written) + arrange(BytesBE(v.bits % 0x1_0000_0000, 4))
    {
      target.WriteAll(arrange(Float32.GetBytes(v)));
    }

    /** `writeFloat64(Float64)`: the value's bytes, arranged. */
    method WriteFloat64(v: Float64.Float64)
      modifies target
      ensures target.written == old(target.written) + arrange(BytesBE(v.bits % 0x1_0000_0000_0000_0000, 8))
    {
      target.WriteAll(arrange(Float64.Bytes(v.bits)));
    }
  }
}
