/** BigEndianNumberWriter (Java class local.tools.bin.BigEndianNumberWriter):
    appends numbers to an output stream, most significant byte first, by
    writing the `getBytes()` of the matching value type. */
module BigEndianNumberWriter {
  import opened Java
  import opened ByteOrder
  import opened Streams
  import Int8
  import Int16
  import Int32
  import Int64
  import UInt16
  import UInt32
  import UInt64
  import Float32
  import Float64

  class BigEndianNumberWriter {
    const target: OutputStream

    constructor (target: OutputStream)
      ensures this.target == target
    {
      this.target := target;
    }

    /** `writeByte(int)`: `writeInt8(new Int8(v))`, one byte holding the low
        8 bits of v. */
    method WriteByte(v: JInt)
      modifies target
      ensures target.written == old(target.written) + [ToByte(v)]
    {
      WriteInt8(Int8.FromInt(v));
    }

    /** `writeShort(int)`: `writeInt16(new Int16(v))`, two bytes holding the
        low 16 bits of v, high byte first. */
    method WriteShort(v: JInt)
      modifies target
      ensures target.written == old(target.written) + BytesBE(v % 0x1_0000, 2)
    {
      var x := Int16.FromInt(v);
      assert x.value % 0x1_0000 == v % 0x1_0000;
      WriteInt16(x);
    }

    /** `writeInt(int)`: `writeInt32(new Int32(v))`. */
    method WriteInt(v: JInt)
      modifies target
      ensures target.written == old(target.written) + BytesBE(v % 0x1_0000_0000, 4)
    {
      WriteInt32(Int32.Int32(v));
    }

    /** `writeLong(long)`: `writeInt64(new Int64(v))`. */
    method WriteLong(v: JLong)
      modifies target
      ensures target.written == old(target.written) + BytesBE(v % 0x1_0000_0000_0000_0000, 8)
    {
      WriteInt64(Int64.Int64(v));
    }

    /** `writeFloat(float)`: the four raw bytes of the float. */
    method WriteFloat(v: Float32.Float32)
      modifies target
      ensures target.written == old(target.written) + BytesBE(v.bits % 0x1_0000_0000, 4)
    {
      var data := Float32.GetBytes(v);
      target.WriteAll(data);
    }

    /** `writeDouble(double)`: the eight raw bytes of the double. */
    method WriteDouble(v: Float64.Float64)
      modifies target
      ensures target.written == old(target.written) + BytesBE(v.bits % 0x1_0000_0000_0000_0000, 8)
    {
      var data := Float64.GetBytes(v);
      target.WriteAll(data[..]);
    }

    /** `writeInt8(v)`: appends `v.getBytes()`. */
    method WriteInt8(v: Int8.Int8)
      modifies target
      ensures target.written == old(target.written) + Int8.GetBytes(v)
    {
      target.WriteAll(Int8.GetBytes(v));
    }

    /** `writeInt16(v)`: appends `v.getBytes()`. */
    method WriteInt16(v: Int16.Int16)
      modifies target
      ensures target.written == old(target.written) + Int16.GetBytes(v)
    {
      target.WriteAll(Int16.GetBytes(v));
    }

    /** `writeInt32(v)`: appends `v.getBytes()`, four bytes most significant first. */
    method WriteInt32(v: Int32.Int32)
      modifies target
      ensures target.written == old(target.written) + Int32.GetBytes(v)
    {
      target.WriteAll(Int32.GetBytes(v));
    }

    /** `writeInt64(v)`: appends `v.getBytes()`. */
    method WriteInt64(v: Int64.Int64)
      modifies target
      ensures target.written == old(target.written) + Int64.GetBytes(v)
    {
      target.WriteAll(Int64.GetBytes(v));
    }

    /** `writeFloat32(v)`: appends `v.getBytes()`. */
    method WriteFloat32(v: Float32.Float32)
      modifies target
      ensures target.written == old(target.written) + Float32.GetBytes(v)
    {
      var data := Float32.GetBytes(v);
      target.WriteAll(data);
    }

    /** `writeFloat64(v)`: appends `v.getBytes()`. */
    method WriteFloat64(v: Float64.Float64)
      modifies target
      ensures target.written == old(target.written) + Float64.Bytes(v.bits)
    {
      var data := Float64.GetBytes(v);
      target.WriteAll(data[..]);
    }

    /** `writeUInt16(v)`: appends `v.getBytes()`. */
    method WriteUInt16(v: UInt16.UInt16)
      requires v.Valid()
      modifies target
      ensures target.written == old(target.written) + BytesBE(v.value, 2)
    {
      target.WriteAll(UInt16.GetBytes(v));
    }

    /** `writeUInt32(v)`: appends `v.getBytes()`. */
    method WriteUInt32(v: UInt32.UInt32)
      requires v.Valid()
      modifies target
      ensures target.written == old(target.written) + BytesBE(v.value, 4)
    {
      target.WriteAll(UInt32.GetBytes(v));
    }

    /** `writeUInt64(v)`: appends `v.getBytes()`. */
    method WriteUInt64(v: UInt64.UInt64)
      requires v.Valid()
      modifies target
      ensures target.written == old(target.written) + BytesBE(v.value, 8)
    {
      var data := UInt64.GetBytes(v);
      target.WriteAll(data);
    }
  }
}
