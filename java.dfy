/** The fixed-width integral types of the Java language and the casts, masks
    and shifts that the library uses on them, stated over unbounded integers. */
module Java {

  /** Java `byte`: 8-bit two's complement. */
  type JByte = x: int | -0x80 <= x < 0x80
  /** Java `short`: 16-bit two's complement. */
  type JShort = x: int | -0x8000 <= x < 0x8000
  /** Java `int`: 32-bit two's complement. */
  type JInt = x: int | -0x8000_0000 <= x < 0x8000_0000
  /** Java `long`: 64-bit two's complement. */
  type JLong = x: int | -0x8000_0000_0000_0000 <= x < 0x8000_0000_0000_0000
  /** Java `char`: unsigned 16-bit code unit. */
  type JChar = x: int | 0 <= x < 0x1_0000
  /** A data byte as `InputStream.read()` returns it (0..255). */
  type UByte = x: int | 0 <= x < 0x100

  /** The exceptions the library raises, as values. */
  datatype Error =
    | IllegalArgument  // `IllegalArgumentException`: a value outside a type's range
    | IO               // `IOException`

  /** A result or the exception that replaces it. */
  datatype Result<T> = Success(value: T) | Failure(error: Error)

  /** 2^n for the byte-multiple shift distances the library uses. */
  function Pow2(n: nat): (r: nat)
    requires n % 8 == 0 && n <= 64
    ensures r > 0
  {
    match n
    case 0 => 1
    case 8 => 0x100
    case 16 => 0x1_0000
    case 24 => 0x100_0000
    case 32 => 0x1_0000_0000
    case 40 => 0x100_0000_0000
    case 48 => 0x1_0000_0000_0000
    case 56 => 0x100_0000_0000_0000
    case _ => 0x1_0000_0000_0000_0000
  }

  /** `(byte) x`: the low 8 bits of x, read as two's complement. */
  function ToByte(x: int): (r: JByte)
    ensures (r - x) % 0x100 == 0
  {
    var low := x % 0x100;
    if low < 0x80 then low else low - 0x100
  }

  /** `(short) x`: the low 16 bits of x, read as two's complement. */
  function ToShort(x: int): (r: JShort)
    ensures (r - x) % 0x1_0000 == 0
  {
    var low := x % 0x1_0000;
    if low < 0x8000 then low else low - 0x1_0000
  }

  /** `(int) x`: the low 32 bits of x, read as two's complement. */
  function ToInt(x: int): (r: JInt)
    ensures (r - x) % 0x1_0000_0000 == 0
  {
    var low := x % 0x1_0000_0000;
    if low < 0x8000_0000 then low else low - 0x1_0000_0000
  }

  /** `(long) x`: the low 64 bits of x, read as two's complement. */
  function ToLong(x: int): (r: JLong)
    ensures (r - x) % 0x1_0000_0000_0000_0000 == 0
  {
    var low := x % 0x1_0000_0000_0000_0000;
    if low < 0x8000_0000_0000_0000 then low else low - 0x1_0000_0000_0000_0000
  }

  /** `(char) x`: the low 16 bits of x, unsigned. */
  function ToChar(x: int): (r: JChar)
    ensures (r - x) % 0x1_0000 == 0
  {
    x % 0x1_0000
  }

  /** `x & 0xff`: the low 8 bits of x, unsigned (also `Byte.toUnsignedInt`). */
  function LowByte(x: int): (r: UByte)
    ensures (r - x) % 0x100 == 0
  {
    x % 0x100
  }

  /** `x >>> n` on a Java `int`: the 32-bit pattern shifted right, zero filled. */
  function UShr32(x: int, n: nat): (r: int)
    requires n % 8 == 0 && n < 32
    ensures 0 <= r < 0x1_0000_0000
  {
    (x % 0x1_0000_0000) / Pow2(n)
  }

  /** `x >>> n` on a Java `long`: the 64-bit pattern shifted right, zero filled. */
  function UShr64(x: int, n: nat): (r: int)
    requires n % 8 == 0 && n < 64
    ensures 0 <= r < 0x1_0000_0000_0000_0000
  {
    (x % 0x1_0000_0000_0000_0000) / Pow2(n)
  }

  /** A cast to byte of an unsigned byte value gives back the signed byte it came from. */
  lemma ToByteLowByte(b: JByte)
    ensures ToByte(LowByte(b)) == b
  {
  }

  /** A signed byte keeps its value under `(byte)`, and `& 0xff` undoes `(byte)`. */
  lemma LowByteToByte(x: int)
    ensures LowByte(ToByte(x)) == x % 0x100
  {
  }

  /** `(byte)` depends only on the low 8 bits of its argument. */
  lemma ToByteCongruent(x: int, y: int)
    requires x % 0x100 == y % 0x100
    ensures ToByte(x) == ToByte(y)
  {
  }

  /** An unsigned 32-bit pattern survives `(int)` followed by
      `Integer.toUnsignedLong`. */
  lemma ToIntUnsigned(u: int)
    requires 0 <= u < 0x1_0000_0000
    ensures ToInt(u) % 0x1_0000_0000 == u
  {
  }

  /** The low byte of the low 32 bits is the low byte. */
  lemma LowByteOfLow32(v: int)
    ensures ToByte(v % 0x1_0000_0000) == ToByte(v)
  {
    var u := v % 0x1_0000_0000;
    assert v == u + 0x1_0000_0000 * (v / 0x1_0000_0000);
    ByteOfSum(u, 0x100_0000 * (v / 0x1_0000_0000));
  }

  /** The low byte of the low 64 bits is the low byte. */
  lemma LowByteOfLow64(v: int)
    ensures ToByte(v % 0x1_0000_0000_0000_0000) == ToByte(v)
  {
    var u := v % 0x1_0000_0000_0000_0000;
    assert v == u + 0x1_0000_0000_0000_0000 * (v / 0x1_0000_0000_0000_0000);
    ByteOfSum(u, 0x100_0000_0000_0000 * (v / 0x1_0000_0000_0000_0000));
  }

  /** A short's unsigned 16-bit pattern casts back to the short. */
  lemma ToShortPattern(v: JShort)
    ensures ToShort(v % 0x1_0000) == v
  {
    if v < 0 {
      assert v % 0x1_0000 == v + 0x1_0000;
    }
  }

  /** An int's unsigned 32-bit pattern casts back to the int. */
  lemma ToIntPattern(v: JInt)
    ensures ToInt(v % 0x1_0000_0000) == v
  {
    if v < 0 {
      assert v % 0x1_0000_0000 == v + 0x1_0000_0000;
    }
  }

  /** A long's unsigned 64-bit pattern casts back to the long. */
  lemma ToLongPattern(v: JLong)
    ensures ToLong(v % 0x1_0000_0000_0000_0000) == v
  {
    if v < 0 {
      assert v % 0x1_0000_0000_0000_0000 == v + 0x1_0000_0000_0000_0000;
    }
  }

  /** `(byte) (v >>> 8)` on an int is the high byte of v's low 16 bits. */
  lemma UShr32Low16(v: int)
    ensures ToByte(UShr32(v, 8)) == ToByte((v % 0x1_0000) / 0x100)
  {
    var w := v % 0x1_0000_0000;
    var u := v % 0x1_0000;
    assert w % 0x1_0000 == u;
    assert w / 0x100 == u / 0x100 + 0x100 * (w / 0x1_0000);
    ToByteCongruent(w / 0x100, u / 0x100);
  }

  /** `(byte) (v >>> n)` on a long, for n < 32, only sees v's low 32 bits. */
  lemma UShr64Low32(v: int)
    ensures ToByte(UShr64(v, 24)) == ToByte((v % 0x1_0000_0000) / 0x100_0000)
    ensures ToByte(UShr64(v, 16)) == ToByte((v % 0x1_0000_0000) / 0x1_0000)
    ensures ToByte(UShr64(v, 8)) == ToByte((v % 0x1_0000_0000) / 0x100)
  {
    var w := v % 0x1_0000_0000_0000_0000;
    var u := v % 0x1_0000_0000;
    var k := w / 0x1_0000_0000;
    assert w % 0x1_0000_0000 == u;
    assert w == u + 0x1_0000_0000 * k;
    Shifted(w, u, k);
  }

  /** The three shifted forms of a 64-bit pattern whose low 32 bits are u. */
  lemma Shifted(w: nat, u: nat, k: int)
    requires w == u + 0x1_0000_0000 * k
    ensures ToByte(w / 0x100_0000) == ToByte(u / 0x100_0000)
    ensures ToByte(w / 0x1_0000) == ToByte(u / 0x1_0000)
    ensures ToByte(w / 0x100) == ToByte(u / 0x100)
  {
    assert w / 0x100_0000 == u / 0x100_0000 + 0x100 * k;
    ByteOfSum(u / 0x100_0000, k);
    assert w / 0x1_0000 == u / 0x1_0000 + 0x100 * (0x100 * k);
    ByteOfSum(u / 0x1_0000, 0x100 * k);
    assert w / 0x100 == u / 0x100 + 0x100 * (0x1_0000 * k);
    ByteOfSum(u / 0x100, 0x1_0000 * k);
  }

  /** Adding a multiple of 256 does not change the cast to byte. */
  lemma ByteOfSum(x: int, k: int)
    ensures ToByte(x + 0x100 * k) == ToByte(x)
  {
    assert (x + 0x100 * k) % 0x100 == x % 0x100;
  }
}
