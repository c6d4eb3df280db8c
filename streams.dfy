/** The java.io streams the codecs read from and write to, as in-memory
    streams: an input stream over a fixed sequence of data bytes with a
    cursor, and an output stream that only appends. */
module Streams {
  import opened Java
  import opened ByteOrder

  /** The (byte) cast applied to each element: how a read value or a data
      byte ends up in a Java byte. */
  function AsBytes(xs: seq<int>): (r: seq<JByte>)
    ensures |r| == |xs|
    ensures forall i :: 0 <= i < |xs| ==> r[i] == ToByte(xs[i])
  {
    seq(|xs|, i requires 0 <= i < |xs| => ToByte(xs[i]))
  }

  /** The data bytes an output stream's bytes become when they are read back
      (`& 0xff`). */
  function AsUnsigned(bs: seq<JByte>): (r: seq<UByte>)
    ensures |r| == |bs|
    ensures forall i :: 0 <= i < |bs| ==> r[i] == LowByte(bs[i])
  {
    seq(|bs|, i requires 0 <= i < |bs| => LowByte(bs[i]))
  }

  /** Writing bytes and reading them back as data bytes gives the same bytes. */
  lemma AsBytesAsUnsigned(bs: seq<JByte>)
    ensures AsBytes(AsUnsigned(bs)) == bs
  {
    forall i | 0 <= i < |bs|
      ensures AsBytes(AsUnsigned(bs))[i] == bs[i]
    {
      ToByteLowByte(bs[i]);
    }
  }

  /** Bytes read least significant first are the big-endian reading of the
      reads in reverse order. */
  lemma ReversedReads(read: seq<int>, bytes: seq<JByte>)
    requires |bytes| == |read|
    requires forall i :: 0 <= i < |read| ==> bytes[i] == ToByte(read[|read| - 1 - i])
    ensures UnsignedLE(AsBytes(read)) == UnsignedBE(bytes)
  {
    UnsignedLEIsReversedBE(AsBytes(read));
    assert Reverse(AsBytes(read)) == bytes;
  }

  /** What `read()` returns when the cursor is at p: the data byte there, or
      -1 once the data is exhausted. */
  function ReadValue(data: seq<UByte>, p: nat): (r: int)
    ensures -1 <= r < 0x100
    ensures r == -1 <==> p >= |data|
  {
    if p < |data| then data[p] as int else -1
  }

  /** The values k successive `read()` calls return from cursor p on. */
  function Upcoming(data: seq<UByte>, p: nat, k: nat): (r: seq<int>)
    ensures |r| == k
  {
    seq(k, i requires 0 <= i < k => ReadValue(data, p + i))
  }

  /** The data bytes a request for k bytes at cursor p obtains: up to k of
      them, fewer near the end, none past it. */
  function Window(data: seq<UByte>, p: nat, k: nat): (r: seq<UByte>)
    ensures |r| == (if p >= |data| then 0 else Min(k, |data| - p))
    ensures forall i :: 0 <= i < |r| ==> p + i < |data| && r[i] == data[p + i]
  {
    if p >= |data| then [] else data[p..Min(p + k, |data|)]
  }

  function Min(a: int, b: int): int
  {
    if a < b then a else b
  }

  /** Two successive reads, one value each. */
  lemma ReadsOf2(read: seq<int>, a: int, b: int)
    requires |read| == 2 && read[0] == a && read[1] == b
    ensures read == [a, b]
  {
  }

  /** Four successive reads, one value each. */
  lemma ReadsOf4(read: seq<int>, a: int, b: int, c: int, d: int)
    requires |read| == 4 && read[0] == a && read[1] == b && read[2] == c && read[3] == d
    ensures read == [a, b, c, d]
  {
  }

  /** Eight successive reads, one value each. */
  lemma ReadsOf8(read: seq<int>, a: int, b: int, c: int, d: int, e: int, f: int, g: int, h: int)
    requires |read| == 8 && read[0] == a && read[1] == b && read[2] == c && read[3] == d
    requires read[4] == e && read[5] == f && read[6] == g && read[7] == h
    ensures read == [a, b, c, d, e, f, g, h]
  {
  }

  /** `java.io.InputStream` over a fixed sequence of data bytes. The cursor
      counts the bytes taken, and a `read()` at or past the end counts too:
      every cursor at or past the end of the data stands for the same
      exhausted stream. */
  class InputStream {
    const data: seq<UByte>
    var pos: nat

    constructor (data: seq<UByte>)
      ensures this.data == data && pos == 0
    {
      this.data := data;
      pos := 0;
    }

    /** The values the next k `read()` calls return. */
    function Peek(k: nat): (r: seq<int>)
      reads this
      ensures |r| == k
    {
      Upcoming(data, pos, k)
    }

    /** `read()`: the next data byte (0..255), or -1 at the end. */
    method Read() returns (r: int)
      modifies this
      ensures r == ReadValue(data, old(pos)) && pos == old(pos) + 1
    {
      if pos < |data| {
        r := data[pos];
      } else {
        r := -1;
      }
      pos := pos + 1;
    }

    /** `read(b, off, len)`, as `InputStream` specifies it: 0 when len is 0,
        -1 at the end, and otherwise up to len bytes stored in b[off..]. */
    method ReadInto(buffer: array<JByte>, off: int, len: int) returns (n: int)
      requires 0 <= off && 0 <= len && off + len <= buffer.Length
      modifies this, buffer
      ensures var w := Window(data, old(pos), len);
              pos == old(pos) + |w|
              && buffer[..] == old(buffer[..])[..off] + AsBytes(w) + old(buffer[..])[off + |w|..]
              && n == (if len == 0 then 0 else if old(pos) >= |data| then -1 else |w|)
    {
      var w := Window(data, pos, len);
      forall i | 0 <= i < |w| {
        buffer[off + i] := ToByte(w[i]);
      }
      if len == 0 {
        n := 0;
      } else if pos >= |data| {
        n := -1;
      } else {
        n := |w|;
      }
      pos := pos + |w|;
    }

    /** `skip(n)`: moves forward by min(n, what is left), not at all when n
        is not positive, and says how far it moved. */
    method Skip(n: int) returns (k: int)
      modifies this
      ensures k == (if n <= 0 then 0 else |Window(data, old(pos), n)|)
      ensures pos == old(pos) + k
    {
      k := if n <= 0 then 0 else |Window(data, pos, n)|;
      pos := pos + k;
    }
  }

  /** `java.io.OutputStream`: everything written is appended. */
  class OutputStream {
    var written: seq<JByte>

    constructor ()
      ensures written == []
    {
      written := [];
    }

    /** `write(int b)`: appends the low 8 bits of b. */
    method Write(b: int)
      modifies this
      ensures written == old(written) + [ToByte(b)]
    {
      written := written + [ToByte(b)];
    }

    /** `write(byte[] b)`: appends b unchanged. */
    method WriteAll(bs: seq<JByte>)
      modifies this
      ensures written == old(written) + bs
    {
      written := written + bs;
    }

    /** `write(byte[] b, int off, int len)`: appends b[off..off+len]. */
    method WriteRange(buffer: array<JByte>, off: int, len: int)
      requires 0 <= off && 0 <= len && off + len <= buffer.Length
      modifies this
      ensures written == old(written) + buffer[off..off + len]
    {
      written := written + buffer[off..off + len];
    }
  }
}
