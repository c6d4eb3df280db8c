/** BinaryWriter (Java class local.tools.bin.BinaryWriter): writes Java
    values, value types and strings to an output stream, numbers through the
    number writer its byte order selects. */
module BinaryWriter {
  import opened Java
  import opened ByteOrder
  import opened Streams
  import opened EndianType
  import opened NumberWriter
  import opened BigEndianNumberWriter
  import opened LittleEndianNumberWriter
  import Int8
  import Int16
  import Int32
  import Int64
  import UInt16
  import UInt32
  import UInt64
  import Float32
  import Float64

  /** The end-of-line character `EOL` ('\0') written after a string. */
  const EOL: JChar := 0

  class BinaryWriter {
    const target: OutputStream
    const endianType: EndianType
    const numberWriter: NumberWriter

    /** The number writer appends to this writer's own stream, and it is
        the big-endian one exactly when the byte order is `BigEndian`. */
    ghost predicate Valid()
    {
      numberWriter.Target() == target
      && (numberWriter.BigEndianWriter? <==> endianType == BigEndian)
      && numberWriter.Valid()
    }

    /** `BinaryWriter(target, endianType)`: `BigEndian` selects the
        big-endian number writer, anything else the little-endian one, which
        lays out a value's bytes by `arrange`. */
    constructor (target: OutputStream, endianType: EndianType, arrange: seq<JByte> -> seq<JByte>)
      requires forall bs :: |arrange(bs)| == |bs|
      ensures Valid()
      ensures this.target == target && this.endianType == endianType
      ensures forall bs :: Layout(bs) == (if endianType == BigEndian then bs else arrange(bs))
    {
      this.target := target;
      this.endianType := endianType;
      match endianType
      case BigEndian =>
        var w := new BigEndianNumberWriter(target);
        numberWriter := BigEndianWriter(w);
      case LittleEndian =>
        var w := new LittleEndianNumberWriter(target, arrange);
        numberWriter := LittleEndianWriter(w);
    }

    /** `BinaryWriter(target)`: little-endian by default. */
    constructor Default(target: OutputStream, arrange: seq<JByte> -> seq<JByte>)
      requires forall bs :: |arrange(bs)| == |bs|
      ensures Valid()
      ensures this.target == target && endianType == DEFAULT
      ensures forall bs :: Layout(bs) == arrange(bs)
    {
      this.target := target;
      endianType := DEFAULT;
      var w := new LittleEndianNumberWriter(target, arrange);
      numberWriter := LittleEndianWriter(w);
    }

    /** How this writer lays out the bytes of one number, given them most
        significant first. */
    function Layout(bs: seq<JByte>): seq<JByte>
    {
      numberWriter.Layout(bs)
    }

    /** The proxy `write(int b)`: the low 8 bits of b. */
    method Write(b: JInt)
      modifies target
      ensures target.written == old(target.written) + [ToByte(b)]
    {
      target.Write(b);
    }

    /** The proxy `write(byte[] buffer)`: the buffer unchanged. */
    method WriteAll(buffer: array<JByte>)
      modifies target
      ensures target.written == old(target.written) + buffer[..]
    {
      target.WriteAll(buffer[..]);
    }

    /** The proxy `write(buffer, offset, length)`. */
    method WriteRange(buffer: array<JByte>, offset: int, length: int)
      requires 0 <= offset && 0 <= length && offset + length <= buffer.Length
      modifies target
      ensures target.written == old(target.written) + buffer[offset..offset + length]
    {
      target.WriteRange(buffer, offset, length);
    }

    /** `writeBoolean(b)`: the byte 1 for true, 0 for false. */
    method WriteBoolean(b: bool)
      modifies target
      ensures target.written == old(target.written) + [if b then 1 else 0]
    {
      Write(if b then 1 else 0);
    }

    /** `writeByte(int b)`: the low 8 bits of b, through `write`. */
    method WriteByte(b: JInt)
      modifies target
      ensures target.written == old(target.written) + [ToByte(b)]
    {
      Write(b);
    }

    /** `writeByte(byte b)`: the byte itself, through `write`. */
    method WriteByteValue(b: JByte)
      modifies target
      ensures target.written == old(target.written) + [b]
    {
      Write(b);
    }

    /** `writeChar(value)`: the 16-bit code unit, as `writeShort`. */
    method WriteChar(value: JChar)
      requires Valid()
      modifies target
      ensures target.written == old(target.written) + Layout(BytesBE(value, 2))
    {
      assert value % 0x1_0000 == value;
      numberWriter.WriteShort(value);
    }

    /** `writeShort(value)`. */
    method WriteShort(value: JShort)
      requires Valid()
      modifies target
      ensures target.written == old(target.written) + Layout(BytesBE(value % 0x1_0000, 2))
    {
      numberWriter.WriteShort(value);
    }

    /** `writeInt(value)`. */
    method WriteInt(value: JInt)
      requires Valid()
      modifies target
      ensures target.written == old(target.written) + Layout(BytesBE(value % 0x1_0000_0000, 4))
    {
      numberWriter.WriteInt(value);
    }

    /** `writeLong(value)`. */
    method WriteLong(value: JLong)
      requires Valid()
      modifies target
      ensures target.written == old(target.written) + Layout(BytesBE(value % 0x1_0000_0000_0000_0000, 8))
    {
      numberWriter.WriteLong(value);
    }

    /** `writeFloat(value)`: the raw bits, through the int write. */
    method WriteFloat(value: Float32.Float32)
      requires Valid()
      modifies target
      ensures target.written == old(target.written) + Layout(BytesBE(value.bits % 0x1_0000_0000, 4))
    {
      numberWriter.WriteInt(value.bits);
    }

    /** `writeDouble(value)`: the raw bits, through the long write. */
    method WriteDouble(value: Float64.Float64)
      requires Valid()
      modifies target
      ensures target.written == old(target.written) + Layout(BytesBE(value.bits % 0x1_0000_0000_0000_0000, 8))
    {
      numberWriter.WriteLong(value.bits);
    }

    /** `writeInt8(value)`. */
    method WriteInt8(value: Int8.Int8)
      requires Valid()
      modifies target
      ensures target.written == old(target.written) + Layout([value.value])
    {
      numberWriter.WriteInt8(value);
    }

    /** `writeInt16(value)`. */
    method WriteInt16(value: Int16.Int16)
      requires Valid()
      modifies target
      ensures target.written == old(target.written) + Layout(BytesBE(value.value % 0x1_0000, 2))
    {
      numberWriter.WriteInt16(value);
    }

    /** `writeInt32(value)`. */
    method WriteInt32(value: Int32.Int32)
      requires Valid()
      modifies target
      ensures target.written == old(target.written) + Layout(BytesBE(value.value % 0x1_0000_0000, 4))
    {
      numberWriter.WriteInt32(value);
    }

    /** `writeInt64(value)`. */
    method WriteInt64(value: Int64.Int64)
      requires Valid()
      modifies target
      ensures target.written == old(target.written) + Layout(BytesBE(value.value % 0x1_0000_0000_0000_0000, 8))
    {
      numberWriter.WriteInt64(value);
    }

    /** `writeUInt16(value)`. */
    method WriteUInt16(value: UInt16.UInt16)
      requires Valid() && value.Valid()
      modifies target
      ensures target.written == old(target.written) + Layout(BytesBE(value.value, 2))
    {
      numberWriter.WriteUInt16(value);
    }

    /** `writeUInt32(value)`. */
    method WriteUInt32(value: UInt32.UInt32)
      requires Valid() && value.Valid()
      modifies target
      ensures target.written == old(target.written) + Layout(BytesBE(value.value, 4))
    {
      numberWriter.WriteUInt32(value);
    }

    /** `writeUInt64(value)`. */
    method WriteUInt64(value: UInt64.UInt64)
      requires Valid() && value.Valid()
      modifies target
      ensures target.written == old(target.written) + Layout(BytesBE(value.value, 8))
    {
      numberWriter.WriteUInt64(value);
    }

    /** `writeFloat32(value)`. */
    method WriteFloat32(value: Float32.Float32)
      requires Valid()
      modifies target
      ensures target.written == old(target.written) + Layout(BytesBE(value.bits % 0x1_0000_0000, 4))
    {
      numberWriter.WriteFloat32(value);
    }

    /** `writeFloat64(value)`. */
    method WriteFloat64(value: Float64.Float64)
      requires Valid()
      modifies target
      ensures target.written == old(target.written) + Layout(BytesBE(value.bits % 0x1_0000_0000_0000_0000, 8))
    {
      numberWriter.WriteFloat64(value);
    }

    /** `writeBytes(str)`: the string's bytes, then one `EOL` byte. */
    method WriteBytes(str: seq<JByte>)
      modifies target
      ensures target.written == old(target.written) + str + [0]
    {
      target.WriteAll(str);
      target.Write(EOL);
    }

    /** The bytes `writeChars` produces for cs: each code unit in turn, as
        `writeChar` lays it out. */
    function CharsLayout(cs: seq<JChar>): seq<JByte>
    {
      if cs == [] then [] else CharsLayout(cs[..|cs| - 1]) + Layout(BytesBE(cs[|cs| - 1], 2))
    }

    /** `writeChars(chars)`: one `writeChar` per element, in order. */
    method WriteChars(chars: array<JChar>)
      requires Valid()
      modifies target
      ensures target.written == old(target.written) + CharsLayout(chars[..])
    {
      ghost var cs := chars[..];
      for i := 0 to chars.Length
        invariant target.written == old(target.written) + CharsLayout(cs[..i])
      {
        assert cs[..i + 1][..i] == cs[..i];
        WriteChar(chars[i]);
      }
      assert cs[..chars.Length] == cs;
    }

    /** Every code unit takes two bytes. */
    lemma {:induction false} CharsLayoutLength(cs: seq<JChar>)
      requires Valid()
      ensures |CharsLayout(cs)| == 2 * |cs|
    {
      if cs != [] {
        CharsLayoutLength(cs[..|cs| - 1]);
        numberWriter.LayoutLength(BytesBE(cs[|cs| - 1], 2));
      }
    }

    /** Big-endian, code unit i occupies bytes 2i and 2i + 1, and those two
        bytes read most significant first give the code unit back. */
    lemma {:induction false} CharsLayoutBigEndian(cs: seq<JChar>)
      requires Valid() && endianType == BigEndian
      ensures |CharsLayout(cs)| == 2 * |cs|
      ensures forall i :: 0 <= i < |cs| ==> UnsignedBE(CharsLayout(cs)[2 * i..2 * i + 2]) == cs[i]
    {
      if cs != [] {
        var n := |cs| - 1;
        var init := CharsLayout(cs[..n]);
        var last := BytesBE(cs[n], 2);
        CharsLayoutBigEndian(cs[..n]);
        var all := CharsLayout(cs);
        assert all == init + last by {
          assert Layout(last) == last;
        }
        forall i | 0 <= i < |cs|
          ensures UnsignedBE(all[2 * i..2 * i + 2]) == cs[i]
        {
          PairAt(cs, init, i);
        }
      }
    }
  }

  /** Appending the two big-endian bytes of the last code unit to the
      layout of the others keeps every earlier pair and adds the last one. */
  lemma PairAt(cs: seq<JChar>, init: seq<JByte>, i: int)
    requires |cs| > 0 && |init| == 2 * (|cs| - 1) && 0 <= i < |cs|
    requires forall j :: 0 <= j < |cs| - 1 ==> UnsignedBE(init[2 * j..2 * j + 2]) == cs[j]
    ensures UnsignedBE((init + BytesBE(cs[|cs| - 1], 2))[2 * i..2 * i + 2]) == cs[i]
  {
    var n := |cs| - 1;
    var all := init + BytesBE(cs[n], 2);
    if i < n {
      assert all[2 * i..2 * i + 2] == init[2 * i..2 * i + 2];
    } else {
      assert all[2 * i..2 * i + 2] == BytesBE(cs[n], 2);
      assert Pow256(2) == 0x1_0000;
      UnsignedBEOfBytesBE(cs[n], 2);
    }
  }
}
