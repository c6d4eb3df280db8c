/** Reference definitions of big-endian and little-endian byte order, independent
    of the shift-and-mask formulas the value types use, and the round trips
    between numbers and byte sequences. */
module ByteOrder {
  import opened Java

  /** 256^n. */
  function Pow256(n: nat): (r: nat)
    ensures r > 0
  {
    if n == 0 then 1 else 0x100 * Pow256(n - 1)
  }

  /** The value of bs read as an unsigned number, most significant byte first. */
  function UnsignedBE(bs: seq<JByte>): (r: nat)
    ensures r < Pow256(|bs|)
  {
    if bs == [] then 0 else UnsignedBE(bs[..|bs| - 1]) * 0x100 + LowByte(bs[|bs| - 1])
  }

  /** The value of bs read as an unsigned number, least significant byte first. */
  function UnsignedLE(bs: seq<JByte>): (r: nat)
    ensures r < Pow256(|bs|)
  {
    if bs == [] then 0 else LowByte(bs[0]) + 0x100 * UnsignedLE(bs[1..])
  }

  /** The value of a non-empty bs read as a two's complement number, most
      significant byte first: the first byte signed, the others unsigned. */
  function SignedBE(bs: seq<JByte>): (r: int)
    requires |bs| > 0
  {
    if |bs| == 1 then bs[0] else SignedBE(bs[..|bs| - 1]) * 0x100 + LowByte(bs[|bs| - 1])
  }

  /** The n low-order bytes of v in two's complement, most significant first. */
  function BytesBE(v: int, n: nat): (r: seq<JByte>)
    ensures |r| == n
    decreases n
  {
    if n == 0 then [] else BytesBE(v / 0x100, n - 1) + [ToByte(v % 0x100)]
  }

  /** v shifted right (arithmetically) by n whole bytes. */
  function ShiftBytes(v: int, n: nat): int
    decreases n
  {
    if n == 0 then v else ShiftBytes(v / 0x100, n - 1)
  }

  /** n zero bytes. */
  function Zeros(n: nat): (r: seq<JByte>)
    ensures |r| == n && forall i :: 0 <= i < n ==> r[i] == 0
  {
    seq(n, _ => 0)
  }

  /** s in the opposite order. */
  function Reverse<T>(s: seq<T>): (r: seq<T>)
    ensures |r| == |s|
    ensures forall i :: 0 <= i < |s| ==> r[i] == s[|s| - 1 - i]
  {
    if s == [] then [] else Reverse(s[1..]) + [s[0]]
  }

  /** Reversing twice gives the sequence back. */
  lemma ReverseReverse<T>(s: seq<T>)
    ensures Reverse(Reverse(s)) == s
  {
    forall i | 0 <= i < |s|
      ensures Reverse(Reverse(s))[i] == s[i]
    {
      assert Reverse(Reverse(s))[i] == Reverse(s)[|s| - 1 - i];
    }
  }

  /** Encoding a number in range and decoding it again gives the number back. */
  lemma {:induction false} UnsignedBEOfBytesBE(v: int, n: nat)
    requires 0 <= v < Pow256(n)
    ensures UnsignedBE(BytesBE(v, n)) == v
  {
    if n > 0 {
      var bs := BytesBE(v, n);
      assert bs[..n - 1] == BytesBE(v / 0x100, n - 1);
      UnsignedBEOfBytesBE(v / 0x100, n - 1);
    }
  }

  /** Decoding bytes and encoding the number again gives the bytes back. */
  lemma {:induction false} BytesBEOfUnsignedBE(bs: seq<JByte>)
    ensures BytesBE(UnsignedBE(bs), |bs|) == bs
  {
    if bs != [] {
      var n := |bs|;
      var init, last := bs[..n - 1], bs[n - 1];
      BytesBEOfUnsignedBE(init);
      var q := UnsignedBE(init);
      var v := UnsignedBE(bs);
      assert v == q * 0x100 + LowByte(last);
      ByteDivMod(q, LowByte(last));
      ToByteLowByte(last);
      assert BytesBE(v, n) == BytesBE(q, n - 1) + [last];
      assert bs == init + [last];
    }
  }

  /** Dividing q * 256 + r by 256, for a byte r, gives q back, and r as remainder. */
  lemma ByteDivMod(q: int, r: int)
    requires 0 <= r < 0x100
    ensures (q * 0x100 + r) / 0x100 == q && (q * 0x100 + r) % 0x100 == r
  {
  }

  /** Little-endian reading is big-endian reading of the reversed bytes. */
  lemma {:induction false} UnsignedLEIsReversedBE(bs: seq<JByte>)
    ensures UnsignedLE(bs) == UnsignedBE(Reverse(bs))
  {
    if bs != [] {
      UnsignedLEIsReversedBE(bs[1..]);
      var r := Reverse(bs);
      assert r[..|r| - 1] == Reverse(bs[1..]);
      assert r[|r| - 1] == bs[0];
    }
  }

  /** A two's complement reading differs from the unsigned reading exactly
      when the leading byte is negative, and then by 256^|bs|. */
  lemma {:induction false} SignedBEIsTwosComplement(bs: seq<JByte>)
    requires |bs| > 0
    ensures SignedBE(bs) == UnsignedBE(bs) - (if bs[0] < 0 then Pow256(|bs|) else 0)
  {
    if |bs| > 1 {
      var init := bs[..|bs| - 1];
      SignedBEIsTwosComplement(init);
      assert init[0] == bs[0];
    }
  }

  /** A leading zero byte makes the two's complement reading unsigned. */
  lemma SignedBELeadingZero(bs: seq<JByte>)
    ensures SignedBE([0] + bs) == UnsignedBE(bs)
  {
    SignedBEIsTwosComplement([0] + bs);
    ZeroPrefix(bs);
  }

  /** A leading zero byte does not change the unsigned reading. */
  lemma {:induction false} ZeroPrefix(bs: seq<JByte>)
    ensures UnsignedBE([0] + bs) == UnsignedBE(bs)
  {
    if bs != [] {
      var init := bs[..|bs| - 1];
      assert ([0] + bs)[..|bs|] == [0] + init;
      ZeroPrefix(init);
    }
  }

  /** The last n bytes of a longer encoding are the n-byte encoding; the
      leading ones encode what is left after shifting n bytes out. */
  lemma {:induction false} BytesBESplit(v: int, n: nat, k: nat)
    ensures BytesBE(v, n + k) == BytesBE(ShiftBytes(v, n), k) + BytesBE(v, n)
    decreases n
  {
    if n > 0 {
      BytesBESplit(v / 0x100, n - 1, k);
      assert BytesBE(v, n + k) == BytesBE(v / 0x100, n - 1 + k) + [ToByte(v % 0x100)];
    }
  }

  /** Every byte of the encoding of zero is zero. */
  lemma {:induction false} BytesBEZero(k: nat)
    ensures BytesBE(0, k) == Zeros(k)
  {
    if k > 0 {
      BytesBEZero(k - 1);
    }
  }

  /** Appending a byte shifts the unsigned reading left by one byte. */
  lemma UnsignedBEAppend(bs: seq<JByte>, b: JByte)
    ensures UnsignedBE(bs + [b]) == UnsignedBE(bs) * 0x100 + LowByte(b)
  {
    assert (bs + [b])[..|bs|] == bs;
  }

  /** The unsigned reading of two bytes, spelt out. */
  lemma TwoBytesValue(a: JByte, b: JByte)
    ensures UnsignedBE([a, b]) == LowByte(a) * 0x100 + LowByte(b)
  {
    assert [a, b][..1] == [a];
    assert [a][..0] == [];
  }

  /** Byte i of an n-byte encoding is the cast to byte of v shifted right by
      the n - 1 - i bytes that follow it. */
  lemma {:induction false} ByteAt(v: int, n: nat, i: nat)
    requires i < n
    ensures BytesBE(v, n)[i] == ToByte(ShiftBytes(v, n - 1 - i))
    decreases n
  {
    if i == n - 1 {
      ToByteCongruent(v % 0x100, v);
    } else {
      ByteAt(v / 0x100, n - 1, i);
    }
  }

  /** Shifting by one more byte divides the shifted value by 256. */
  lemma {:induction false} ShiftBytesStep(v: int, k: nat)
    ensures ShiftBytes(v, k + 1) == ShiftBytes(v, k) / 0x100
    decreases k
  {
    if k > 0 {
      ShiftBytesStep(v / 0x100, k - 1);
    }
  }

  /** Shifting a non-negative value by k bytes, for k up to 7, divides by 256^k. */
  lemma ShiftBytesSmall(u: nat)
    ensures ShiftBytes(u, 1) == u / 0x100
    ensures ShiftBytes(u, 2) == u / 0x1_0000
    ensures ShiftBytes(u, 3) == u / 0x100_0000
    ensures ShiftBytes(u, 4) == u / 0x1_0000_0000
    ensures ShiftBytes(u, 5) == u / 0x100_0000_0000
    ensures ShiftBytes(u, 6) == u / 0x1_0000_0000_0000
    ensures ShiftBytes(u, 7) == u / 0x100_0000_0000_0000
  {
    ShiftBytesStep(u, 0);
    ShiftBytesStep(u, 1);
    ShiftBytesStep(u, 2);
    ShiftBytesStep(u, 3);
    ShiftBytesStep(u, 4);
    ShiftBytesStep(u, 5);
    ShiftBytesStep(u, 6);
    assert u / 0x100 / 0x100 == u / 0x1_0000;
    assert u / 0x1_0000 / 0x100 == u / 0x100_0000;
    assert u / 0x100_0000 / 0x100 == u / 0x1_0000_0000;
    assert u / 0x1_0000_0000 / 0x100 == u / 0x100_0000_0000;
    assert u / 0x100_0000_0000 / 0x100 == u / 0x1_0000_0000_0000;
    assert u / 0x1_0000_0000_0000 / 0x100 == u / 0x100_0000_0000_0000;
  }

  /** A four-byte encoding, byte by byte, in terms of the shifted value. */
  lemma FourShifts(v: int)
    ensures BytesBE(v, 4) == [ToByte(ShiftBytes(v, 3)), ToByte(ShiftBytes(v, 2)), ToByte(ShiftBytes(v, 1)), ToByte(v)]
  {
    ByteAt(v, 4, 0);
    ByteAt(v, 4, 1);
    ByteAt(v, 4, 2);
    ByteAt(v, 4, 3);
  }

  /** An eight-byte encoding, byte by byte, in terms of the shifted value. */
  lemma EightShifts(v: int)
    ensures BytesBE(v, 8) == [ToByte(ShiftBytes(v, 7)), ToByte(ShiftBytes(v, 6)),
                              ToByte(ShiftBytes(v, 5)), ToByte(ShiftBytes(v, 4)),
                              ToByte(ShiftBytes(v, 3)), ToByte(ShiftBytes(v, 2)),
                              ToByte(ShiftBytes(v, 1)), ToByte(v)]
  {
    ByteAt(v, 8, 0);
    ByteAt(v, 8, 1);
    ByteAt(v, 8, 2);
    ByteAt(v, 8, 3);
    ByteAt(v, 8, 4);
    ByteAt(v, 8, 5);
    ByteAt(v, 8, 6);
    ByteAt(v, 8, 7);
  }

  /** The four low-order bytes of a non-negative number, byte by byte. */
  lemma FourBytes(u: nat)
    ensures BytesBE(u, 4) == [ToByte(u / 0x100_0000), ToByte(u / 0x1_0000), ToByte(u / 0x100), ToByte(u)]
  {
    FourShifts(u);
    ShiftBytesSmall(u);
  }

  /** The eight low-order bytes of a non-negative number, byte by byte. */
  lemma EightBytes(u: nat)
    ensures BytesBE(u, 8) == [ToByte(u / 0x100_0000_0000_0000), ToByte(u / 0x1_0000_0000_0000),
                              ToByte(u / 0x100_0000_0000), ToByte(u / 0x1_0000_0000),
                              ToByte(u / 0x100_0000), ToByte(u / 0x1_0000), ToByte(u / 0x100), ToByte(u)]
  {
    EightShifts(u);
    ShiftBytesSmall(u);
  }

  /** The two low-order bytes of a 16-bit pattern, byte by byte. */
  lemma TwoBytes(u: int)
    requires 0 <= u < 0x1_0000
    ensures BytesBE(u, 2) == [ToByte(u / 0x100), ToByte(u % 0x100)]
  {
    var hi := u / 0x100;
    assert hi % 0x100 == hi;
    assert BytesBE(hi, 1) == BytesBE(hi / 0x100, 0) + [ToByte(hi % 0x100)];
    assert BytesBE(u, 2) == BytesBE(hi, 1) + [ToByte(u % 0x100)];
  }
}
