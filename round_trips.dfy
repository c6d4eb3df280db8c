/** What a BinaryReader reads back from the bytes a BinaryWriter wrote, both
    with the same byte order. The little-endian writer's arrangement is
    taken here to be least significant byte first, the order its stream
    format documents; the big-endian pair needs no such choice. */
module RoundTrips {
  import opened Java
  import opened ByteOrder
  import opened Streams
  import opened EndianType
  import W = BinaryWriter
  import R = BinaryReader
  import Int8
  import Int16
  import Int32
  import Int64
  import UInt16
  import UInt32
  import UInt64
  import Float32
  import Float64
  import opened BigEndianNumberReader
  import opened LittleEndianNumberReader
  import opened BigEndianNumberWriter

  /** How a writer of byte order e lays out a value's bytes, given them most
      significant first. */
  function Arrange(e: EndianType, bs: seq<JByte>): (r: seq<JByte>)
    ensures |r| == |bs|
  {
    if e == BigEndian then bs else Reverse(bs)
  }

  /** How a reader of byte order e reads bytes as an unsigned number. */
  function ReadUnsigned(e: EndianType, bs: seq<JByte>): nat
  {
    if e == BigEndian then UnsignedBE(bs) else UnsignedLE(bs)
  }

  /** Reading bytes in the order they were laid out gives the number back. */
  lemma ReadArranged(e: EndianType, u: nat, k: nat)
    requires u < Pow256(k)
    ensures ReadUnsigned(e, Arrange(e, BytesBE(u, k))) == u
  {
    UnsignedBEOfBytesBE(u, k);
    if e != BigEndian {
      UnsignedLEIsReversedBE(Reverse(BytesBE(u, k)));
      ReverseReverse(BytesBE(u, k));
    }
  }

  /** The values read at cursor |prefix| from the data a stream holding
      prefix + bs + rest was written with are the bytes bs. */
  lemma ReadsBack(prefix: seq<JByte>, bs: seq<JByte>, rest: seq<JByte>)
    ensures AsBytes(Upcoming(AsUnsigned(prefix + bs + rest), |prefix|, |bs|)) == bs
  {
    var all := prefix + bs + rest;
    var data := AsUnsigned(all);
    var read := Upcoming(data, |prefix|, |bs|);
    forall i | 0 <= i < |bs|
      ensures AsBytes(read)[i] == bs[i]
    {
      assert all[|prefix| + i] == bs[i];
      assert data[|prefix| + i] == LowByte(bs[i]);
      assert read[i] == ReadValue(data, |prefix| + i);
      ToByteLowByte(bs[i]);
    }
  }

  /** A value laid out in k bytes among other bytes is read back from
      where it starts. */
  lemma ValueBack(e: EndianType, u: nat, k: nat, prefix: seq<JByte>, rest: seq<JByte>)
    requires u < Pow256(k)
    ensures ReadUnsigned(e, AsBytes(Upcoming(AsUnsigned(prefix + Arrange(e, BytesBE(u, k)) + rest), |prefix|, k))) == u
  {
    ReadsBack(prefix, Arrange(e, BytesBE(u, k)), rest);
    ReadArranged(e, u, k);
  }

  /** A value that is all a stream holds is read back from its start. */
  lemma OnlyValueBack(e: EndianType, u: nat, k: nat)
    requires u < Pow256(k)
    ensures ReadUnsigned(e, AsBytes(Upcoming(AsUnsigned(Arrange(e, BytesBE(u, k))), 0, k))) == u
  {
    var x := Arrange(e, BytesBE(u, k));
    assert [] + x + [] == x;
    ValueBack(e, u, k, [], []);
  }

  /** The number of bytes of s that `readString()` gives back: those before
      the first 0 or -1 byte. */
  function Terminator(s: seq<JByte>): (k: nat)
    ensures k <= |s|
    ensures forall i :: 0 <= i < k ==> s[i] != 0 && s[i] != -1
    ensures k < |s| ==> s[k] == 0 || s[k] == -1
  {
    if s == [] || s[0] == 0 || s[0] == -1 then 0 else 1 + Terminator(s[1..])
  }

  /** A fresh writer over an empty stream; its little-endian arrangement
      puts the least significant byte first. */
  method NewWriter(e: EndianType) returns (w: W.BinaryWriter)
    ensures fresh(w.target) && w.Valid() && w.target.written == [] && w.endianType == e
    ensures forall bs :: w.Layout(bs) == Arrange(e, bs)
  {
    var out := new OutputStream();
    w := new W.BinaryWriter(out, e, bs => Reverse(bs));
  }

  /** A fresh reader over the data bytes a stream was written with. */
  method NewReader(e: EndianType, written: seq<JByte>) returns (rd: R.BinaryReader)
    ensures fresh(rd) && fresh(rd.source) && rd.Valid() && rd.endianType == e
    ensures rd.source.data == AsUnsigned(written) && rd.source.pos == 0 && rd.position == 0
    ensures forall bs :: rd.Unsigned(bs) == ReadUnsigned(e, bs)
  {
    var inp := new InputStream(AsUnsigned(written));
    rd := new R.BinaryReader(inp, e);
  }

  /** `writeInt(a); writeInt(b)`, then `readInt()` twice: both values come
      back, and the reader has counted eight bytes. */
  method IntsThroughStreams(e: EndianType, a: JInt, b: JInt) returns (ra: JInt, rb: JInt, consumed: int)
    ensures ra == a && rb == b && consumed == 8
  {
    var w := NewWriter(e);
    w.WriteInt(a);
    w.WriteInt(b);
    ghost var x := Arrange(e, BytesBE(a % 0x1_0000_0000, 4));
    ghost var y := Arrange(e, BytesBE(b % 0x1_0000_0000, 4));
    assert w.target.written == [] + x + y == x + y + [];
    var rd := NewReader(e, w.target.written);
    ra := rd.ReadInt();
    rb := rd.ReadInt();
    consumed := rd.position;
    assert Pow256(4) == 0x1_0000_0000;
    ValueBack(e, a % 0x1_0000_0000, 4, [], y);
    ValueBack(e, b % 0x1_0000_0000, 4, x, []);
    ToIntPattern(a);
    ToIntPattern(b);
  }

  /** `writeLong(v)`, then `readLong()`: the value comes back. */
  method LongThroughStreams(e: EndianType, v: JLong) returns (r: JLong, consumed: int)
    ensures r == v && consumed == 8
  {
    var w := NewWriter(e);
    w.WriteLong(v);
    ghost var u := v % 0x1_0000_0000_0000_0000;
    assert w.target.written == Arrange(e, BytesBE(u, 8));
    var rd := NewReader(e, w.target.written);
    ghost var read := rd.source.Peek(8);
    r := rd.ReadLong();
    consumed := rd.position;
    assert r == ToLong(ReadUnsigned(e, AsBytes(read)));
    assert Pow256(8) == 0x1_0000_0000_0000_0000;
    OnlyValueBack(e, u, 8);
    ToLongPattern(v);
  }

  /** `writeChar(c)`, then `readChar()`: the code unit comes back. */
  method CharThroughStreams(e: EndianType, c: JChar) returns (r: JChar, consumed: int)
    ensures r == c && consumed == 2
  {
    var w := NewWriter(e);
    w.WriteChar(c);
    assert w.target.written == Arrange(e, BytesBE(c, 2));
    var rd := NewReader(e, w.target.written);
    ghost var read := rd.source.Peek(2);
    r := rd.ReadChar();
    consumed := rd.position;
    assert r == ReadUnsigned(e, AsBytes(read));
    assert Pow256(2) == 0x1_0000;
    OnlyValueBack(e, c, 2);
  }

  /** `writeBoolean(b)`, then `readBoolean()`: the flag comes back. */
  method BooleanThroughStreams(e: EndianType, b: bool) returns (r: bool, consumed: int)
    ensures r == b && consumed == 1
  {
    var w := NewWriter(e);
    w.WriteBoolean(b);
    var rd := NewReader(e, w.target.written);
    r := rd.ReadBoolean();
    consumed := rd.position;
  }

  /** `writeUInt64(v)`, whose bytes come from `BigInteger.toByteArray`,
      then `readUInt64()`: the value comes back. */
  method UInt64ThroughStreams(e: EndianType, v: UInt64.UInt64) returns (r: UInt64.UInt64, consumed: int)
    requires v.Valid()
    ensures r == v && consumed == 8
  {
    var w := NewWriter(e);
    w.WriteUInt64(v);
    assert w.target.written == Arrange(e, BytesBE(v.value, 8));
    var rd := NewReader(e, w.target.written);
    ghost var read := rd.source.Peek(8);
    r := rd.ReadUInt64();
    consumed := rd.position;
    assert r.value == ReadUnsigned(e, AsBytes(read));
    assert Pow256(8) == 0x1_0000_0000_0000_0000;
    OnlyValueBack(e, v.value, 8);
  }

  /** `writeDouble(d)`, then `readDouble()`: the raw bits come back. */
  method DoubleThroughStreams(e: EndianType, d: Float64.Float64) returns (r: Float64.Float64, consumed: int)
    ensures r.bits == d.bits && consumed == 8
  {
    var w := NewWriter(e);
    w.WriteDouble(d);
    ghost var u := d.bits % 0x1_0000_0000_0000_0000;
    assert w.target.written == Arrange(e, BytesBE(u, 8));
    var rd := NewReader(e, w.target.written);
    ghost var read := rd.source.Peek(8);
    r := rd.ReadDouble();
    consumed := rd.position;
    assert r.bits == ToLong(ReadUnsigned(e, AsBytes(read)));
    assert Pow256(8) == 0x1_0000_0000_0000_0000;
    OnlyValueBack(e, u, 8);
    ToLongPattern(d.bits);
  }

  /** The data a stream holding s and a 0 byte was written with: reading
      a string from its start stops after Terminator(s) bytes, which are
      those of s. */
  lemma StringBack(s: seq<JByte>)
    ensures R.StringLength(AsUnsigned(s + [0]), 0) == Terminator(s)
    ensures AsBytes(Window(AsUnsigned(s + [0]), 0, Terminator(s))) == s[..Terminator(s)]
  {
    var data := AsUnsigned(s + [0]);
    var k := Terminator(s);
    forall i | 0 <= i < k
      ensures data[i] != 0 && data[i] != 0xFF
    {
      assert data[i] == LowByte(s[i]);
    }
    assert k >= |data| || data[k] == 0 || data[k] == 0xFF by {
      if k < |s| {
        assert data[k] == LowByte(s[k]);
      } else {
        assert data[k] == LowByte(0);
      }
    }
    R.StringLengthAt(data, 0, k);
    var r := AsBytes(Window(data, 0, k));
    forall i | 0 <= i < k
      ensures r[i] == s[i]
    {
      assert data[i] == LowByte(s[i]);
      ToByteLowByte(s[i]);
    }
  }

  /** `writeBytes(s)`, then `readString()`: the bytes of s before its first
      0 or -1 byte come back, so all of s when it has neither; the reader
      counts them and the byte that stopped it. */
  method StringThroughStreams(e: EndianType, s: seq<JByte>) returns (r: seq<JByte>, consumed: int)
    ensures r == s[..Terminator(s)] && consumed == Terminator(s) + 1
    ensures (forall i :: 0 <= i < |s| ==> s[i] != 0 && s[i] != -1) ==> r == s
  {
    var w := NewWriter(e);
    w.WriteBytes(s);
    assert w.target.written == s + [0];
    var rd := NewReader(e, w.target.written);
    StringBack(s);
    r := rd.ReadString();
    consumed := rd.position;
  }

  /** Data whose first two bytes, read most significant first, are below
      256 starts with a 0 byte, where reading chars stops at once. */
  lemma CharsStartWithZero(written: seq<JByte>, count: int)
    requires |written| >= 2 && UnsignedBE(written[0..2]) < 0x100
    ensures R.CharsLength(AsUnsigned(written), 0, count) == 0
  {
    assert written[0..2] == [written[0], written[1]];
    TwoBytesValue(written[0], written[1]);
    if count > 0 {
      R.CharsLengthAt(AsUnsigned(written), 0, 0, count);
    }
  }

  /** Big-endian, the first two bytes of the layout of code units are the
      first code unit. */
  lemma FirstPair(w: W.BinaryWriter, cs: seq<JChar>)
    requires w.Valid() && w.endianType == BigEndian && |cs| > 0
    ensures |w.CharsLayout(cs)| >= 2 && UnsignedBE(w.CharsLayout(cs)[0..2]) == cs[0]
  {
    w.CharsLayoutBigEndian(cs);
    assert UnsignedBE(w.CharsLayout(cs)[2 * 0..2 * 0 + 2]) == cs[0];
  }

  /** `writeChars` puts two bytes per code unit and `readChars` takes one
      byte per code unit: big-endian, a first code unit below 256 is
      written with a 0 byte first, and reading it back stops at once. */
  method CharsThroughStreams(chars: array<JChar>) returns (r: seq<JChar>, consumed: int)
    requires 0 < chars.Length <= 0x7FFF_FFFF && chars[0] < 0x100
    ensures r == [] && consumed == 1
  {
    var w := NewWriter(BigEndian);
    w.WriteChars(chars);
    FirstPair(w, chars[..]);
    var written := w.target.written;
    CharsStartWithZero(written, chars.Length);
    var rd := NewReader(BigEndian, written);
    r := rd.ReadChars(chars.Length);
    consumed := rd.position;
  }

  /** The same four values read by the big-endian reader and by the
      little-endian reader: the one packs them in the order read, the other
      in reverse, end-of-stream values included. */
  method OppositeOrders(data: seq<UByte>) returns (be: JInt, le: JInt)
    ensures var v := Upcoming(data, 0, 4);
            be == Int32.PackInts(v[0], v[1], v[2], v[3]) && le == Int32.PackInts(v[3], v[2], v[1], v[0])
  {
    ghost var v := Upcoming(data, 0, 4);
    var forward := new InputStream(data);
    var bigEndian := new BigEndianNumberReader(forward);
    be := bigEndian.ReadInt();
    var backward := new InputStream(data);
    var littleEndian := new LittleEndianNumberReader(backward);
    le := littleEndian.ReadInt();
    assert AsBytes(v) == [ToByte(v[0]), ToByte(v[1]), ToByte(v[2]), ToByte(v[3])];
    ReversedReads(v, [ToByte(v[3]), ToByte(v[2]), ToByte(v[1]), ToByte(v[0])]);
  }

  /** The big-endian codecs on their own: `writeInt(v)` on the writer, then
      `readInt()` on a reader of the written bytes, gives v back. */
  method CodecIntRoundTrip(v: JInt) returns (r: JInt)
    ensures r == v
  {
    var out := new OutputStream();
    var writer := new BigEndianNumberWriter(out);
    writer.WriteInt(v);
    ghost var u := v % 0x1_0000_0000;
    assert out.written == Arrange(BigEndian, BytesBE(u, 4));
    var inp := new InputStream(AsUnsigned(out.written));
    var reader := new BigEndianNumberReader(inp);
    ghost var read := inp.Peek(4);
    r := reader.ReadInt();
    assert r == ToInt(ReadUnsigned(BigEndian, AsBytes(read)));
    assert Pow256(4) == 0x1_0000_0000;
    OnlyValueBack(BigEndian, u, 4);
    ToIntPattern(v);
  }

  /** `writeByte(b)`, then `readByte()`: the byte comes back. */
  method ByteThroughStreams(e: EndianType, b: JByte) returns (r: JByte, consumed: int)
    ensures r == b && consumed == 1
  {
    var w := NewWriter(e);
    w.WriteByteValue(b);
    var rd := NewReader(e, w.target.written);
    ghost var read := rd.source.Peek(1);
    r := rd.ReadByte();
    consumed := rd.position;
    assert [] + [b] + [] == [b];
    ReadsBack([], [b], []);
  }

  /** `writeInt8(v)`, then `readInt8()`: the value comes back. */
  method Int8ThroughStreams(e: EndianType, v: Int8.Int8) returns (r: Int8.Int8, consumed: int)
    ensures r == v && consumed == 1
  {
    var w := NewWriter(e);
    w.WriteInt8(v);
    assert Arrange(e, [v.value]) == [v.value];
    assert w.target.written == [v.value];
    var rd := NewReader(e, w.target.written);
    r := rd.ReadInt8();
    consumed := rd.position;
    assert [] + [v.value] + [] == [v.value];
    ReadsBack([], [v.value], []);
  }

  /** `writeShort(v)`, then `readShort()`: the value comes back. */
  method ShortThroughStreams(e: EndianType, v: JShort) returns (r: JShort, consumed: int)
    ensures r == v && consumed == 2
  {
    var w := NewWriter(e);
    w.WriteShort(v);
    ghost var u := v % 0x1_0000;
    assert w.target.written == Arrange(e, BytesBE(u, 2));
    var rd := NewReader(e, w.target.written);
    ghost var read := rd.source.Peek(2);
    r := rd.ReadShort();
    consumed := rd.position;
    assert r == ToShort(ReadUnsigned(e, AsBytes(read)));
    assert Pow256(2) == 0x1_0000;
    OnlyValueBack(e, u, 2);
    ToShortPattern(v);
  }

  /** `writeInt16(v)`, then `readInt16()`: the value comes back. */
  method Int16ThroughStreams(e: EndianType, v: Int16.Int16) returns (r: Int16.Int16, consumed: int)
    ensures r == v && consumed == 2
  {
    var w := NewWriter(e);
    w.WriteInt16(v);
    ghost var u := v.value % 0x1_0000;
    assert w.target.written == Arrange(e, BytesBE(u, 2));
    var rd := NewReader(e, w.target.written);
    ghost var read := rd.source.Peek(2);
    r := rd.ReadInt16();
    consumed := rd.position;
    assert r.value == ToShort(ReadUnsigned(e, AsBytes(read)));
    assert Pow256(2) == 0x1_0000;
    OnlyValueBack(e, u, 2);
    ToShortPattern(v.value);
  }

  /** `writeInt32(v)`, then `readInt32()`: the value comes back. */
  method Int32ThroughStreams(e: EndianType, v: Int32.Int32) returns (r: Int32.Int32, consumed: int)
    ensures r == v && consumed == 4
  {
    var w := NewWriter(e);
    w.WriteInt32(v);
    ghost var u := v.value % 0x1_0000_0000;
    assert w.target.written == Arrange(e, BytesBE(u, 4));
    var rd := NewReader(e, w.target.written);
    ghost var read := rd.source.Peek(4);
    r := rd.ReadInt32();
    consumed := rd.position;
    assert r.value == ToInt(ReadUnsigned(e, AsBytes(read)));
    assert Pow256(4) == 0x1_0000_0000;
    OnlyValueBack(e, u, 4);
    ToIntPattern(v.value);
  }

  /** `writeInt64(v)`, then `readInt64()`: the value comes back. */
  method Int64ThroughStreams(e: EndianType, v: Int64.Int64) returns (r: Int64.Int64, consumed: int)
    ensures r == v && consumed == 8
  {
    var w := NewWriter(e);
    w.WriteInt64(v);
    ghost var u := v.value % 0x1_0000_0000_0000_0000;
    assert w.target.written == Arrange(e, BytesBE(u, 8));
    var rd := NewReader(e, w.target.written);
    ghost var read := rd.source.Peek(8);
    r := rd.ReadInt64();
    consumed := rd.position;
    assert r.value == ToLong(ReadUnsigned(e, AsBytes(read)));
    assert Pow256(8) == 0x1_0000_0000_0000_0000;
    OnlyValueBack(e, u, 8);
    ToLongPattern(v.value);
  }

  /** `writeUInt16(v)`, then `readUInt16()`: the value comes back. */
  method UInt16ThroughStreams(e: EndianType, v: UInt16.UInt16) returns (r: UInt16.UInt16, consumed: int)
    requires v.Valid()
    ensures r == v && consumed == 2
  {
    var w := NewWriter(e);
    w.WriteUInt16(v);
    assert w.target.written == Arrange(e, BytesBE(v.value, 2));
    var rd := NewReader(e, w.target.written);
    ghost var read := rd.source.Peek(2);
    r := rd.ReadUInt16();
    consumed := rd.position;
    assert r.value == ReadUnsigned(e, AsBytes(read));
    assert Pow256(2) == 0x1_0000;
    OnlyValueBack(e, v.value, 2);
  }

  /** `writeUInt32(v)`, then `readUInt32()`: the value comes back. */
  method UInt32ThroughStreams(e: EndianType, v: UInt32.UInt32) returns (r: UInt32.UInt32, consumed: int)
    requires v.Valid()
    ensures r == v && consumed == 4
  {
    var w := NewWriter(e);
    w.WriteUInt32(v);
    assert w.target.written == Arrange(e, BytesBE(v.value, 4));
    var rd := NewReader(e, w.target.written);
    ghost var read := rd.source.Peek(4);
    r := rd.ReadUInt32();
    consumed := rd.position;
    assert r.value == ReadUnsigned(e, AsBytes(read));
    assert Pow256(4) == 0x1_0000_0000;
    OnlyValueBack(e, v.value, 4);
  }

  /** `writeFloat(f)`, then `readFloat()`: the raw bits come back. */
  method FloatThroughStreams(e: EndianType, f: Float32.Float32) returns (r: Float32.Float32, consumed: int)
    ensures r == f && consumed == 4
  {
    var w := NewWriter(e);
    w.WriteFloat(f);
    ghost var u := f.bits % 0x1_0000_0000;
    assert w.target.written == Arrange(e, BytesBE(u, 4));
    var rd := NewReader(e, w.target.written);
    ghost var read := rd.source.Peek(4);
    r := rd.ReadFloat();
    consumed := rd.position;
    assert r.bits == ToInt(ReadUnsigned(e, AsBytes(read)));
    assert Pow256(4) == 0x1_0000_0000;
    OnlyValueBack(e, u, 4);
    ToIntPattern(f.bits);
  }

  /** `writeFloat32(f)`, then `readFloat32()`: the raw bits come back. */
  method Float32ThroughStreams(e: EndianType, f: Float32.Float32) returns (r: Float32.Float32, consumed: int)
    ensures r == f && consumed == 4
  {
    var w := NewWriter(e);
    w.WriteFloat32(f);
    ghost var u := f.bits % 0x1_0000_0000;
    assert w.target.written == Arrange(e, BytesBE(u, 4));
    var rd := NewReader(e, w.target.written);
    ghost var read := rd.source.Peek(4);
    r := rd.ReadFloat32();
    consumed := rd.position;
    assert r.bits == ToInt(ReadUnsigned(e, AsBytes(read)));
    assert Pow256(4) == 0x1_0000_0000;
    OnlyValueBack(e, u, 4);
    ToIntPattern(f.bits);
  }

  /** `writeFloat64(d)`, then `readFloat64()`: the raw bits come back. */
  method Float64ThroughStreams(e: EndianType, d: Float64.Float64) returns (r: Float64.Float64, consumed: int)
    ensures r == d && consumed == 8
  {
    var w := NewWriter(e);
    w.WriteFloat64(d);
    ghost var u := d.bits % 0x1_0000_0000_0000_0000;
    assert w.target.written == Arrange(e, BytesBE(u, 8));
    var rd := NewReader(e, w.target.written);
    ghost var read := rd.source.Peek(8);
    r := rd.ReadFloat64();
    consumed := rd.position;
    assert r.bits == ToLong(ReadUnsigned(e, AsBytes(read)));
    assert Pow256(8) == 0x1_0000_0000_0000_0000;
    OnlyValueBack(e, u, 8);
    ToLongPattern(d.bits);
  }
}
