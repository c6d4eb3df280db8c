/** BinaryReader (Java class local.tools.bin.BinaryReader): reads Java
    values, value types and strings from an input stream through the number
    reader its byte order selects, and keeps its own count of the bytes it
    has consumed. */
module BinaryReader {
  import opened Java
  import opened ByteOrder
  import opened Streams
  import opened EndianType
  import opened NumberReader
  import opened BigEndianNumberReader
  import opened LittleEndianNumberReader
  import Int8
  import Int16
  import Int32
  import Int64
  import UInt16
  import UInt32
  import UInt64
  import Float32
  import Float64

  /** The end-of-line character `EOL` ('\0') that ends a string. */
  const EOL: JChar := 0
  /** The end-of-stream character `END`: `(char) -1`. */
  const END: JChar := 0xFFFF

  /** How many data bytes from cursor p on `readString()` collects: it
      stops at the end of the data, at a 0 byte, and at a 0xFF byte, which
      the cast to byte turns into -1 and so into `END`. */
  function StringLength(data: seq<UByte>, p: nat): (n: nat)
    ensures p >= |data| ==> n == 0
    ensures n == 0 || p + n <= |data|
    ensures forall i :: p <= i < p + n ==> data[i] != 0 && data[i] != 0xFF
    ensures p + n < |data| ==> data[p + n] == 0 || data[p + n] == 0xFF
    decreases |data| - p
  {
    if p >= |data| || data[p] == 0 || data[p] == 0xFF then 0 else 1 + StringLength(data, p + 1)
  }

  /** The scanned bytes determine StringLength: n bytes none of which ends a
      string, followed by one that does or by the end of the data. */
  lemma {:induction false} StringLengthAt(data: seq<UByte>, p: nat, n: nat)
    requires n == 0 || p + n <= |data|
    requires forall i :: p <= i < p + n ==> data[i] != 0 && data[i] != 0xFF
    requires p + n >= |data| || data[p + n] == 0 || data[p + n] == 0xFF
    ensures StringLength(data, p) == n
    decreases n
  {
    if n > 0 {
      StringLengthAt(data, p + 1, n - 1);
    }
  }

  /** How many data bytes from cursor p on `readChars(count)` collects: at
      most count, stopping at the end of the data and at a 0 byte (a 0xFF
      byte becomes the character 0x00FF, which is not `END`). */
  function CharsLength(data: seq<UByte>, p: nat, count: int): (n: nat)
    ensures count <= 0 || p >= |data| ==> n == 0
    ensures n == 0 || n <= count
    ensures n == 0 || p + n <= |data|
    ensures forall i :: p <= i < p + n ==> data[i] != 0
    ensures n < count ==> p + n >= |data| || data[p + n] == 0
    decreases |data| - p
  {
    if count <= 0 || p >= |data| || data[p] == 0 then 0 else 1 + CharsLength(data, p + 1, count - 1)
  }

  /** The scanned bytes determine CharsLength: n bytes, none of them 0, and
      then either count is used up or the next byte is 0 or the data ends. */
  lemma {:induction false} CharsLengthAt(data: seq<UByte>, p: nat, n: nat, count: int)
    requires n <= count
    requires n == 0 || p + n <= |data|
    requires forall i :: p <= i < p + n ==> data[i] != 0
    requires n == count || p + n >= |data| || data[p + n] == 0
    ensures CharsLength(data, p, count) == n
    decreases n
  {
    if n > 0 {
      CharsLengthAt(data, p + 1, n - 1, count - 1);
    }
  }

  /** Data bytes widened to characters, as `(char) read()` does. */
  function Chars(d: seq<UByte>): (r: seq<JChar>)
    ensures |r| == |d| && forall i :: 0 <= i < |d| ==> r[i] == d[i]
  {
    seq(|d|, i requires 0 <= i < |d| => d[i] as JChar)
  }

  /** The characters `readString()` tests each read against: `(char) (byte) r`
      is `END` or `EOL` exactly for -1, 0 and 0xFF. */
  lemma StringStop(r: int)
    requires -1 <= r < 0x100
    ensures ToChar(ToByte(r)) == END || ToChar(ToByte(r)) == EOL <==> r == -1 || r == 0 || r == 0xFF
  {
  }

  /** The characters `readChars` tests each read against: `(char) r` is
      `END` or `EOL` exactly for -1 and 0. */
  lemma CharStop(r: int)
    requires -1 <= r < 0x100
    ensures ToChar(r) == END || ToChar(r) == EOL <==> r == -1 || r == 0
  {
  }

  /** The skip `seek(target)` performs from position, as written: it is
      refused when target is at or after position, and otherwise skips the
      negative distance back to target. */
  function SeekSkip(position: int, target: int): (r: Result<int>)
    ensures r.Failure? <==> target >= position
    ensures r.Success? ==> r.value < 0 && position + r.value == target
  {
    if target >= position then Failure(IO) else Success(target - position)
  }

  /** As written, seeking forward is refused and seeking backward is accepted. */
  lemma SeekSkipInverted()
    ensures SeekSkip(0, 4) == Failure(IO)
    ensures SeekSkip(4, 0) == Success(-4)
  {
  }

  /** The skip `seek(target)` is documented to perform: a seek back is
      refused, a seek forward skips the distance to target. */
  function ForwardSeekSkip(position: int, target: int): (r: Result<nat>)
    ensures r.Failure? <==> target < position
    ensures r.Success? ==> position + r.value == target
  {
    if target < position then Failure(IO) else Success(target - position)
  }

  class BinaryReader {
    const source: InputStream
    const endianType: EndianType
    const numberReader: NumberReader
    /** `getPosition()`: the bytes consumed so far by this reader's own count. */
    var position: int

    ghost predicate Valid()
    {
      numberReader.Source() == source
      && (numberReader.BigEndianReader? <==> endianType == BigEndian)
    }

    /** `BinaryReader(source, endianType)`: `BigEndian` selects the big-endian
        number reader, anything else the little-endian one. */
    constructor (source: InputStream, endianType: EndianType)
      ensures Valid() && position == 0
      ensures this.source == source && this.endianType == endianType
    {
      this.source := source;
      this.endianType := endianType;
      position := 0;
      match endianType
      case BigEndian =>
        var rd := new BigEndianNumberReader(source);
        numberReader := BigEndianReader(rd);
      case LittleEndian =>
        var rd := new LittleEndianNumberReader(source);
        numberReader := LittleEndianReader(rd);
    }

    /** `BinaryReader(source)`: little-endian by default. */
    constructor Default(source: InputStream)
      ensures Valid() && position == 0
      ensures this.source == source && endianType == DEFAULT
    {
      this.source := source;
      endianType := DEFAULT;
      var rd := new LittleEndianNumberReader(source);
      numberReader := LittleEndianReader(rd);
      position := 0;
    }

    /** How this reader reads a run of bytes as an unsigned number. */
    function Unsigned(bs: seq<JByte>): nat
    {
      if endianType == BigEndian then UnsignedBE(bs) else UnsignedLE(bs)
    }

    /** `skip(count)`: counts count bytes whatever the stream skips, and
        returns what the stream skipped. */
    method Skip(count: int) returns (k: int)
      requires Valid()
      modifies this, source
      ensures Valid() && position == old(position) + count
      ensures k == (if count <= 0 then 0 else |Window(source.data, old(source.pos), count)|)
      ensures source.pos == old(source.pos) + k
    {
      position := position + count;
      k := source.Skip(count);
    }

    /** `seek(target)` as written: refused when target is at or after the
        current position; otherwise the position is set back to target
        while the stream does not move. */
    method Seek(target: JLong) returns (outcome: Result<()>)
      requires Valid()
      modifies this, source
      ensures Valid() && source.pos == old(source.pos)
      ensures outcome.Failure? <==> SeekSkip(old(position), target).Failure?
      ensures outcome.Failure? ==> outcome.error == IO && position == old(position)
      ensures outcome.Success? ==> position == target
    {
      if target >= position {
        return Failure(IO);
      }
      var count := target - position;
      var _ := Skip(count);
      outcome := Success(());
    }

    /** `seek(target)` as documented: a seek back is refused, a seek forward
        skips the distance to target in the stream and in the count. */
    method SeekForward(target: JLong) returns (outcome: Result<()>)
      requires Valid()
      modifies this, source
      ensures Valid()
      ensures outcome.Failure? <==> ForwardSeekSkip(old(position), target).Failure?
      ensures outcome.Failure? ==> outcome.error == IO && position == old(position) && source.pos == old(source.pos)
      ensures outcome.Success? ==> position == target
      ensures outcome.Success? ==> source.pos == old(source.pos) + |Window(source.data, old(source.pos), target - old(position))|
    {
      if target < position {
        return Failure(IO);
      }
      var count := target - position;
      var _ := Skip(count);
      outcome := Success(());
    }

    /** `read()`: one byte from the stream, counted even at the end. */
    method Read() returns (r: int)
      requires Valid()
      modifies this, source
      ensures Valid() && position == old(position) + 1
      ensures r == ReadValue(source.data, old(source.pos)) && source.pos == old(source.pos) + 1
    {
      position := position + 1;
      r := source.Read();
    }

    /** `read(buffer)`: fills buffer from the stream and adds the result of
        the stream's read to the count, -1 at the end included. */
    method ReadBuffer(buffer: array<JByte>) returns (r: int)
      requires Valid()
      modifies this, source, buffer
      ensures Valid() && position == old(position) + r
      ensures var w := Window(source.data, old(source.pos), buffer.Length);
              source.pos == old(source.pos) + |w|
              && buffer[..] == AsBytes(w) + old(buffer[..])[|w|..]
              && r == (if buffer.Length == 0 then 0 else if old(source.pos) >= |source.data| then -1 else |w|)
    {
      r := source.ReadInto(buffer, 0, buffer.Length);
      position := position + r;
    }

    /** `read(buffer, index, count)`: as `read(buffer)`, into buffer[index..]. */
    method ReadRange(buffer: array<JByte>, index: JInt, count: JInt) returns (r: int)
      requires Valid()
      requires 0 <= index && 0 <= count && index + count <= buffer.Length
      modifies this, source, buffer
      ensures Valid() && position == old(position) + r
      ensures var w := Window(source.data, old(source.pos), count);
              source.pos == old(source.pos) + |w|
              && buffer[..] == old(buffer[..])[..index] + AsBytes(w) + old(buffer[..])[index + |w|..]
              && r == (if count == 0 then 0 else if old(source.pos) >= |source.data| then -1 else |w|)
    {
      r := source.ReadInto(buffer, index, count);
      position := position + r;
    }

    /** `readBytes(count)`: up to count bytes, fewer near the end of the
        data; at the very end the count goes back by one. */
    method ReadBytes(count: JInt) returns (bytes: seq<JByte>)
      requires Valid() && count >= 0
      modifies this, source
      ensures Valid()
      ensures bytes == AsBytes(Window(source.data, old(source.pos), count))
      ensures source.pos == old(source.pos) + |bytes|
      ensures position == old(position) + (if count > 0 && old(source.pos) >= |source.data| then -1 else |bytes|)
    {
      var buffer := new JByte[count](_ => 0);
      ghost var w := Window(source.data, source.pos, count);
      var r := ReadBuffer(buffer);
      if r < 0 {
        bytes := [];
      } else if r == count {
        bytes := buffer[..];
      } else {
        bytes := buffer[..r];
      }
    }

    /** `readBoolean()`: whether one read is not 0 (so true at the end). */
    method ReadBoolean() returns (b: bool)
      requires Valid()
      modifies this, source
      ensures Valid() && position == old(position) + 1 && source.pos == old(source.pos) + 1
      ensures b <==> ReadValue(source.data, old(source.pos)) != 0
    {
      var r := Read();
      b := r != 0;
    }

    /** `readByte()`. */
    method ReadByte() returns (r: JByte)
      requires Valid()
      modifies this, source
      ensures Valid() && position == old(position) + 1 && source.pos == old(source.pos) + 1
      ensures r == AsBytes(old(source.Peek(1)))[0]
    {
      position := position + 1;
      r := numberReader.ReadByte();
    }

    /** `readChar()`: a short read as an unsigned 16-bit character. */
    method ReadChar() returns (r: JChar)
      requires Valid()
      modifies this, source
      ensures Valid() && position == old(position) + 2 && source.pos == old(source.pos) + 2
      ensures r == Unsigned(AsBytes(old(source.Peek(2))))
    {
      ghost var bs := AsBytes(source.Peek(2));
      position := position + 2;
      var s := numberReader.ReadShort();
      r := ToChar(s);
      assert Pow256(2) == 0x1_0000;
    }

    /** `readShort()`. */
    method ReadShort() returns (r: JShort)
      requires Valid()
      modifies this, source
      ensures Valid() && position == old(position) + 2 && source.pos == old(source.pos) + 2
      ensures r == ToShort(Unsigned(AsBytes(old(source.Peek(2)))))
    {
      position := position + 2;
      r := numberReader.ReadShort();
    }

    /** `readInt()`. */
    method ReadInt() returns (r: JInt)
      requires Valid()
      modifies this, source
      ensures Valid() && position == old(position) + 4 && source.pos == old(source.pos) + 4
      ensures r == ToInt(Unsigned(AsBytes(old(source.Peek(4)))))
    {
      position := position + 4;
      r := numberReader.ReadInt();
    }

    /** `readLong()`. */
    method ReadLong() returns (r: JLong)
      requires Valid()
      modifies this, source
      ensures Valid() && position == old(position) + 8 && source.pos == old(source.pos) + 8
      ensures r == ToLong(Unsigned(AsBytes(old(source.Peek(8)))))
    {
      position := position + 8;
      r := numberReader.ReadLong();
    }

    /** `readFloat()`: the raw bits of an int read. */
    method ReadFloat() returns (r: Float32.Float32)
      requires Valid()
      modifies this, source
      ensures Valid() && position == old(position) + 4 && source.pos == old(source.pos) + 4
      ensures r.bits == ToInt(Unsigned(AsBytes(old(source.Peek(4)))))
    {
      position := position + 4;
      var bits := numberReader.ReadInt();
      r := Float32.Float32(bits);
    }

    /** `readDouble()`: the raw bits of a long read. */
    method ReadDouble() returns (r: Float64.Float64)
      requires Valid()
      modifies this, source
      ensures Valid() && position == old(position) + 8 && source.pos == old(source.pos) + 8
      ensures r.bits == ToLong(Unsigned(AsBytes(old(source.Peek(8)))))
    {
      position := position + 8;
      var bits := numberReader.ReadLong();
      r := Float64.Float64(bits);
    }

    /** `readInt8()`. */
    method ReadInt8() returns (r: Int8.Int8)
      requires Valid()
      modifies this, source
      ensures Valid() && position == old(position) + 1 && source.pos == old(source.pos) + 1
      ensures r.value == AsBytes(old(source.Peek(1)))[0]
    {
      position := position + 1;
      r := numberReader.ReadInt8();
    }

    /** `readInt16()`. */
    method ReadInt16() returns (r: Int16.Int16)
      requires Valid()
      modifies this, source
      ensures Valid() && position == old(position) + 2 && source.pos == old(source.pos) + 2
      ensures r.value == ToShort(Unsigned(AsBytes(old(source.Peek(2)))))
    {
      position := position + 2;
      r := numberReader.ReadInt16();
    }

    /** `readInt32()`. */
    method ReadInt32() returns (r: Int32.Int32)
      requires Valid()
      modifies this, source
      ensures Valid() && position == old(position) + 4 && source.pos == old(source.pos) + 4
      ensures r.value == ToInt(Unsigned(AsBytes(old(source.Peek(4)))))
    {
      position := position + 4;
      r := numberReader.ReadInt32();
    }

    /** `readInt64()`. */
    method ReadInt64() returns (r: Int64.Int64)
      requires Valid()
      modifies this, source
      ensures Valid() && position == old(position) + 8 && source.pos == old(source.pos) + 8
      ensures r.value == ToLong(Unsigned(AsBytes(old(source.Peek(8)))))
    {
      position := position + 8;
      r := numberReader.ReadInt64();
    }

    /** `readUInt16()`. */
    method ReadUInt16() returns (r: UInt16.UInt16)
      requires Valid()
      modifies this, source
      ensures Valid() && position == old(position) + 2 && source.pos == old(source.pos) + 2
      ensures r.value == Unsigned(AsBytes(old(source.Peek(2)))) && r.Valid()
    {
      position := position + 2;
      r := numberReader.ReadUInt16();
    }

    /** `readUInt32()`. */
    method ReadUInt32() returns (r: UInt32.UInt32)
      requires Valid()
      modifies this, source
      ensures Valid() && position == old(position) + 4 && source.pos == old(source.pos) + 4
      ensures r.value == Unsigned(AsBytes(old(source.Peek(4)))) && r.Valid()
    {
      position := position + 4;
      r := numberReader.ReadUInt32();
    }

    /** `readUInt64()`. */
    method ReadUInt64() returns (r: UInt64.UInt64)
      requires Valid()
      modifies this, source
      ensures Valid() && position == old(position) + 8 && source.pos == old(source.pos) + 8
      ensures r.value == Unsigned(AsBytes(old(source.Peek(8)))) && r.Valid()
    {
      position := position + 8;
      r := numberReader.ReadUInt64();
    }

    /** `readFloat32()`. */
    method ReadFloat32() returns (r: Float32.Float32)
      requires Valid()
      modifies this, source
      ensures Valid() && position == old(position) + 4 && source.pos == old(source.pos) + 4
      ensures r.bits == ToInt(Unsigned(AsBytes(old(source.Peek(4)))))
    {
      position := position + 4;
      r := numberReader.ReadFloat32();
    }

    /** `readFloat64()`. */
    method ReadFloat64() returns (r: Float64.Float64)
      requires Valid()
      modifies this, source
      ensures Valid() && position == old(position) + 8 && source.pos == old(source.pos) + 8
      ensures r.bits == ToLong(Unsigned(AsBytes(old(source.Peek(8)))))
    {
      position := position + 8;
      r := numberReader.ReadFloat64();
    }

    /** `readString()`: the bytes up to the first 0 or 0xFF byte or the end
        of the data; the terminating read is consumed and counted. */
    method ReadString() returns (s: seq<JByte>)
      requires Valid()
      modifies this, source
      ensures Valid()
      ensures var n := StringLength(source.data, old(source.pos));
              s == AsBytes(Window(source.data, old(source.pos), n))
              && position == old(position) + n + 1
              && source.pos == old(source.pos) + n + 1
    {
      ghost var p := source.pos;
      var buffer: seq<JByte> := [];
      while true
        invariant Valid() && source.pos == p + |buffer|
        invariant |buffer| == 0 || source.pos <= |source.data|
        invariant forall i :: p <= i < source.pos ==>
                    source.data[i] != 0 && source.data[i] != 0xFF && buffer[i - p] == ToByte(source.data[i])
        invariant position == old(position) + |buffer|
        decreases |source.data| - source.pos
      {
        var r := Read();
        var b := ToByte(r);
        StringStop(r);
        if ToChar(b) == END || ToChar(b) == EOL {
          StringLengthAt(source.data, p, |buffer|);
          break;
        }
        assert p + |buffer| < |source.data| && r == source.data[p + |buffer|];
        buffer := buffer + [b];
      }
      var data := new JByte[|buffer|];
      for i := 0 to |buffer|
        modifies data
        invariant data[..i] == buffer[..i]
      {
        data[i] := buffer[i];
      }
      s := data[..];
    }

    /** `readString(length)`: the bytes of `readBytes(length)`. */
    method ReadStringOfLength(length: JInt) returns (s: seq<JByte>)
      requires Valid() && length >= 0
      modifies this, source
      ensures Valid()
      ensures s == AsBytes(Window(source.data, old(source.pos), length))
      ensures source.pos == old(source.pos) + |s|
      ensures position == old(position) + (if length > 0 && old(source.pos) >= |source.data| then -1 else |s|)
    {
      s := ReadBytes(length);
    }

    /** `readChars(count)`: up to count data bytes as characters, stopping
        at a 0 byte or the end of the data, whose read is consumed and
        counted. */
    method ReadChars(count: JInt) returns (cs: seq<JChar>)
      requires Valid()
      modifies this, source
      ensures Valid()
      ensures var n := CharsLength(source.data, old(source.pos), count);
              var k := if n < count then n + 1 else n;
              cs == Chars(Window(source.data, old(source.pos), n))
              && position == old(position) + k
              && source.pos == old(source.pos) + k
    {
      ghost var p := source.pos;
      var buffer: seq<JChar> := [];
      var i := 0;
      while i < count
        invariant Valid() && 0 <= i && source.pos == p + i
        invariant i == 0 || i <= count
        invariant |buffer| == i
        invariant i == 0 || source.pos <= |source.data|
        invariant forall j :: p <= j < source.pos ==> source.data[j] != 0 && buffer[j - p] == source.data[j]
        invariant position == old(position) + i
      {
        var r := Read();
        var c := ToChar(r);
        CharStop(r);
        if c == END || c == EOL {
          CharsLengthAt(source.data, p, i, count);
          assert Chars(Window(source.data, p, i)) == buffer;
          return buffer;
        }
        assert p + i < |source.data| && r == source.data[p + i];
        buffer := buffer + [c];
        i := i + 1;
      }
      if count > 0 {
        CharsLengthAt(source.data, p, i, count);
      }
      assert Chars(Window(source.data, p, i)) == buffer;
      cs := buffer;
    }
  }
}
