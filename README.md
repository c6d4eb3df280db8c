# BinaryTools in Dafny

A Dafny model of the core of BinaryTools, a Java library for reading and
writing binary data. The model covers three parts:

- **Value types.** `Int8`, `Int16`, `UInt16`, `Int32`, `UInt32`, `UInt64`,
  `Float32` and `Float64` are immutable numbers. Each one packs itself from
  bytes (most significant byte first) and splits itself back into bytes.
- **Byte-order codecs.** `BigEndianNumberReader` and
  `LittleEndianNumberReader` read numbers from an input stream, one `read()`
  per byte. `BigEndianNumberWriter` writes them to an output stream.
- **Stream facades.** `BinaryReader` and `BinaryWriter` pick a codec by
  `EndianType`. They add booleans, characters, strings and character arrays.
  `BinaryReader` also keeps its own count of consumed bytes
  (`getPosition`), which `skip` and `seek` update.

## How the model is built

Java integers are Dafny `int` subset types: `JByte`, `JShort`, `JInt`,
`JLong`, `JChar` and `UByte` (module `Java`). Each cast is written out:

- `(byte)`, `(short)`, `(int)`, `(long)` and `(char)` are `ToByte`, `ToShort`,
  `ToInt`, `ToLong` and `ToChar`.
- `& 0xff` is `LowByte`.
- `>>>` is `UShr32` or `UShr64`.

The value types combine shifted bytes with `|`. Their bits never overlap, so
the model writes the combination as a sum.

Module `ByteOrder` holds the reference encodings:

- `UnsignedBE` and `UnsignedLE` read a byte sequence as an unsigned number.
- `BytesBE` gives the `n` low bytes of a number, most significant first.

Every codec is proved against these references, and the references are
proved inverse to each other.

The streams are in memory (module `Streams`):

- An `InputStream` holds its data bytes and a cursor.
- `read()` returns the byte at the cursor, or -1 once the data is
  exhausted. The cursor moves on in both cases.
- An `OutputStream` appends to `written`.

The Java classes whose fields change become Dafny classes with `modifies`
frames. The `NumberReader` and `NumberWriter` interfaces become datatypes
with one constructor per implementation.

## Model

Source paths are relative to the repository root.

| member | source | states |
|---|---|---|
| Int8.FromInt | src/main/java/local/tools/primitives/Int8.java:48-50 | `new Int8(int)` keeps the argument modulo 256, and keeps it unchanged when it is in byte range |
| Int8.GetBytes | src/main/java/local/tools/primitives/Int8.java:44-46 | one byte, the value itself; `new Int8(int)` of that byte gives the value back |
| Int8.GetBytesInto | src/main/java/local/tools/primitives/Int8.java:39-42 | static `getBytes` writes output[0] only and returns the same array |
| Int8.IntValue | src/main/java/local/tools/primitives/Int8.java:57-59 | the widened value is in byte range, and casting it back to byte gives the payload |
| Int8.Equals | src/main/java/local/tools/primitives/Int8.java:84-99 | equal exactly when the payloads are equal |
| Int8.EqualsFromInt | src/main/java/local/tools/primitives/Int8.java:48-50 | two `new Int8(int)` are equal exactly when the arguments agree modulo 256 |
| Int16.FromInt | src/main/java/local/tools/primitives/Int16.java:39-41 | `new Int16(int)` keeps the argument modulo 2^16, and keeps it unchanged in short range |
| Int16.PackBytes | src/main/java/local/tools/primitives/Int16.java:63-65 | the short whose 16-bit pattern is the two bytes read most significant first |
| Int16.PackInts | src/main/java/local/tools/primitives/Int16.java:59-61 | packs the low 8 bits of each argument |
| Int16.FromBytes | src/main/java/local/tools/primitives/Int16.java:51-53 | the value packed from the two bytes |
| Int16.FromInts | src/main/java/local/tools/primitives/Int16.java:47-49 | the value packed from the arguments cast to byte |
| Int16.FromArray | src/main/java/local/tools/primitives/Int16.java:55-57 | the value packed from the first two array elements |
| Int16.GetBytes | src/main/java/local/tools/primitives/Int16.java:73-75 | the reference big-endian encoding of the 16-bit pattern, and it packs back to the value |
| Int16.FromIntBytes | src/main/java/local/tools/primitives/Int16.java:39-41 | a value cut to 16 bits has the bytes of the argument's low 16 bits |
| Int16.RoundTrip | src/main/java/local/tools/primitives/Int16.java:63-71 | the shift-and-cast bytes of static `getBytes` equal the reference encoding and pack back to the value |
| Int16.GetBytesInto | src/main/java/local/tools/primitives/Int16.java:67-71 | writes output[0..1] with the value's bytes, leaves the rest alone and returns the same array |
| Int16.Equals | src/main/java/local/tools/primitives/Int16.java:105-120 | equal exactly when the payloads are equal |
| Int16.FromArrayGetBytes | src/main/java/local/tools/primitives/Int16.java:55-57 | building from one's own bytes gives an equal value |
| Int16.GetBytesFromBytes | src/main/java/local/tools/primitives/Int16.java:51-53 | packing two bytes and splitting again gives the same two bytes |
| UInt16.FromInt | src/main/java/local/tools/primitives/UInt16.java:39-43 | succeeds exactly for 0..0xFFFF with that value; otherwise fails with `IllegalArgumentException` |
| UInt16.FromBytes | src/main/java/local/tools/primitives/UInt16.java:49-51 | the two bytes read unsigned, most significant first; always in range |
| UInt16.FromInts | src/main/java/local/tools/primitives/UInt16.java:45-47 | the arguments' low bytes read unsigned: (a mod 256)·256 + b mod 256 |
| UInt16.FromArray | src/main/java/local/tools/primitives/UInt16.java:53-55 | the first two array elements read unsigned |
| UInt16.Bytes | src/main/java/local/tools/primitives/UInt16.java:57-61 | static `getBytes` gives the reference encoding of the argument's low 16 bits |
| UInt16.GetBytes | src/main/java/local/tools/primitives/UInt16.java:63-65 | the reference two-byte encoding of the value |
| UInt16.GetBytesInto | src/main/java/local/tools/primitives/UInt16.java:57-61 | writes output[0..1] only and returns the same array |
| UInt16.IntValue | src/main/java/local/tools/primitives/UInt16.java:68-70 | in 0..0xFFFF, and the checked constructor accepts it and gives the same value |
| UInt16.Equals | src/main/java/local/tools/primitives/UInt16.java:95-110 | equal exactly when the payloads are equal |
| UInt16.FromArrayGetBytes | src/main/java/local/tools/primitives/UInt16.java:53-55 | building from one's own bytes gives an equal value |
| UInt16.GetBytesFromBytes | src/main/java/local/tools/primitives/UInt16.java:49-51 | packing two bytes and splitting again gives the same two bytes |
| Int32.PackBytes | src/main/java/local/tools/primitives/Int32.java:59-61 | the int whose 32-bit pattern is the four bytes read most significant first |
| Int32.FourBytesValue | src/main/java/local/tools/primitives/Int32.java:59-61 | the four bytes read unsigned are the sum of their shifted low bytes, as the source combines them |
| Int32.PackInts | src/main/java/local/tools/primitives/Int32.java:55-57 | packs the low 8 bits of each argument |
| Int32.FromBytes | src/main/java/local/tools/primitives/Int32.java:47-49 | the value packed from the four bytes |
| Int32.FromInts | src/main/java/local/tools/primitives/Int32.java:43-45 | the value packed from the arguments cast to byte |
| Int32.FromArray | src/main/java/local/tools/primitives/Int32.java:51-53 | the value packed from the first four array elements |
| Int32.Bytes | src/main/java/local/tools/primitives/Int32.java:63-69 | static `getBytes` gives the reference encoding of the 32-bit pattern, and it packs back to the value |
| Int32.GetBytes | src/main/java/local/tools/primitives/Int32.java:71-73 | four bytes: the reference encoding of the 32-bit pattern |
| Int32.RoundTrip | src/main/java/local/tools/primitives/Int32.java:59-69 | the shift-and-cast bytes equal the reference encoding and pack back to the value |
| Int32.GetBytesInto | src/main/java/local/tools/primitives/Int32.java:63-69 | writes output[0..3] only and returns the same array |
| Int32.IntValue | src/main/java/local/tools/primitives/Int32.java:76-78 | in int range, and it is the payload |
| Int32.Equals | src/main/java/local/tools/primitives/Int32.java:103-118 | equal exactly when the payloads are equal |
| Int32.FromArrayGetBytes | src/main/java/local/tools/primitives/Int32.java:51-53 | building from one's own bytes gives an equal value |
| Int32.GetBytesFromBytes | src/main/java/local/tools/primitives/Int32.java:47-49 | packing four bytes and splitting again gives the same four bytes |
| UInt32.FromLong | src/main/java/local/tools/primitives/UInt32.java:39-43 | succeeds exactly for 0..0xFFFFFFFF with that value; otherwise fails with `IllegalArgumentException` |
| UInt32.FromBytes | src/main/java/local/tools/primitives/UInt32.java:49-51 | the four bytes read unsigned; always in range |
| UInt32.FromInts | src/main/java/local/tools/primitives/UInt32.java:45-47 | the arguments' low bytes read unsigned |
| UInt32.FromArray | src/main/java/local/tools/primitives/UInt32.java:53-55 | the first four array elements read unsigned |
| UInt32.TrimRange | src/main/java/local/tools/primitives/UInt32.java:57-59 | in 0..0xFFFFFFFF and congruent to the argument modulo 2^32 |
| UInt32.TrimRangeIdempotent | src/main/java/local/tools/primitives/UInt32.java:57-59 | trimming twice is trimming once, and a value in range is left unchanged |
| UInt32.Bytes | src/main/java/local/tools/primitives/UInt32.java:61-67 | static `getBytes` gives the reference encoding of the argument's low 32 bits |
| UInt32.GetBytes | src/main/java/local/tools/primitives/UInt32.java:69-71 | the reference four-byte encoding of the value |
| UInt32.GetBytesInto | src/main/java/local/tools/primitives/UInt32.java:61-67 | writes output[0..3] only and returns the same array |
| UInt32.IntValue | src/main/java/local/tools/primitives/UInt32.java:74-76 | the value reinterpreted as a signed int: unchanged below 2^31, minus 2^32 from there on |
| UInt32.LongValue | src/main/java/local/tools/primitives/UInt32.java:79-81 | in 0..0xFFFFFFFF, and the checked constructor gives the same value back |
| UInt32.Equals | src/main/java/local/tools/primitives/UInt32.java:101-116 | equal exactly when the payloads are equal |
| UInt32.FromArrayGetBytes | src/main/java/local/tools/primitives/UInt32.java:53-55 | building from one's own bytes gives an equal value |
| UInt32.GetBytesFromBytes | src/main/java/local/tools/primitives/UInt32.java:49-51 | packing four bytes and splitting again gives the same four bytes |
| UInt64.FromBigInteger | src/main/java/local/tools/primitives/UInt64.java:42-46 | succeeds exactly for 0..2^64-1 with that value; otherwise fails with `IllegalArgumentException` |
| UInt64.FromBytes | src/main/java/local/tools/primitives/UInt64.java:56-58 | the eight bytes read unsigned; always in range |
| UInt64.FromInts | src/main/java/local/tools/primitives/UInt64.java:48-50 | the arguments' low bytes read unsigned |
| UInt64.FromArray | src/main/java/local/tools/primitives/UInt64.java:52-54 | the first eight array elements read unsigned |
| UInt64.RightAlign | src/main/java/local/tools/primitives/UInt64.java:60-66 | copying `toByteArray` into the last bytes of the 8-byte output keeps its length |
| UInt64.Bytes | src/main/java/local/tools/primitives/UInt64.java:68-75 | the reference eight-byte encoding of the value |
| UInt64.AlignedEncoding | src/main/java/local/tools/primitives/UInt64.java:60-66 | for any value in range, `toByteArray` right-aligned in eight zero bytes is the reference encoding, sign byte included |
| UInt64.GetBytesInto | src/main/java/local/tools/primitives/UInt64.java:60-66 | output[0..7] becomes the old bytes with `toByteArray` right-aligned over them; the rest is unchanged |
| UInt64.GetBytes | src/main/java/local/tools/primitives/UInt64.java:68-75 | the instance `getBytes` loop gives the reference eight-byte encoding |
| UInt64.Equals | src/main/java/local/tools/primitives/UInt64.java:105-120 | equal exactly when the payloads are equal |
| UInt64.FromArrayGetBytes | src/main/java/local/tools/primitives/UInt64.java:52-54 | building from one's own bytes gives an equal value |
| UInt64.GetBytesFromBytes | src/main/java/local/tools/primitives/UInt64.java:56-58 | packing eight bytes and splitting again gives the same eight bytes |
| BigInteger.ToByteArray | src/main/java/local/tools/primitives/UInt64.java:60-66 | `toByteArray` is never empty; what its bytes mean is stated by `FromToByteArray`, `ToByteArrayIsBytesBE` and `ToByteArrayLength` |
| BigInteger.FromByteArray | src/main/java/local/tools/primitives/UInt64.java:60-66 | two's-complement reading of a byte array: the unsigned value, minus 256^n when the sign bit is set |
| BigInteger.FromToByteArray | src/main/java/local/tools/primitives/UInt64.java:60-66 | `toByteArray` is decoded back to the same number |
| BigInteger.ToByteArrayIsBytesBE | src/main/java/local/tools/primitives/UInt64.java:60-66 | `toByteArray` is the number's low bytes, most significant first |
| BigInteger.ToByteArrayCoversValue | src/main/java/local/tools/primitives/UInt64.java:60-66 | no bit of a non-negative number lies above its `toByteArray` bytes |
| BigInteger.ToByteArrayLength | src/main/java/local/tools/primitives/UInt64.java:60-66 | a number below 256^k needs at most k + 1 bytes (the extra one is the sign byte) |
| Float32.FloatToIntBits | src/main/java/local/tools/primitives/Float32.java:103-118 | every NaN maps to the one canonical NaN; other bit patterns are unchanged |
| Float32.PackBytes | src/main/java/local/tools/primitives/Float32.java:56-59 | the raw bits are the four bytes read most significant first, as an int |
| Float32.PackInts | src/main/java/local/tools/primitives/Float32.java:52-54 | packs the low 8 bits of each argument |
| Float32.FromBytes | src/main/java/local/tools/primitives/Float32.java:43-46 | the raw bits packed from the four bytes |
| Float32.FromInts | src/main/java/local/tools/primitives/Float32.java:39-41 | the raw bits packed from the arguments cast to byte |
| Float32.FromArray | src/main/java/local/tools/primitives/Float32.java:48-50 | the raw bits packed from the first four array elements |
| Float32.GetBytes | src/main/java/local/tools/primitives/Float32.java:70-73 | the reference encoding of the raw bits, which packs back to them |
| Float32.GetBytesInto | src/main/java/local/tools/primitives/Float32.java:61-68 | writes output[0..3] only and returns the same array |
| Float32.EqualsIffSameBitsOrNaN | src/main/java/local/tools/primitives/Float32.java:103-118 | equal exactly when the raw bits are equal or both values are NaN |
| Float32.EqualsNaNAndZeros | src/main/java/local/tools/primitives/Float32.java:103-118 | any two NaNs are equal, and 0.0 differs from -0.0 |
| Float32.EqualsIsEquivalence | src/main/java/local/tools/primitives/Float32.java:103-118 | `equals` is reflexive, symmetric and transitive |
| Float32.FromArrayGetBytes | src/main/java/local/tools/primitives/Float32.java:48-50 | building from one's own bytes gives the same raw bits |
| Float64.DoubleToLongBits | src/main/java/local/tools/primitives/Float64.java:119-134 | every NaN maps to the one canonical NaN; other bit patterns are unchanged |
| Float64.PackBytes | src/main/java/local/tools/primitives/Float64.java:56-59 | the raw bits are the eight bytes read most significant first, as a long |
| Float64.PackInts | src/main/java/local/tools/primitives/Float64.java:52-54 | packs the low 8 bits of each argument, as the long packer does |
| Float64.FromBytes | src/main/java/local/tools/primitives/Float64.java:43-46 | the raw bits packed from the eight bytes |
| Float64.FromInts | src/main/java/local/tools/primitives/Float64.java:39-41 | the raw bits packed from the arguments cast to byte |
| Float64.FromArray | src/main/java/local/tools/primitives/Float64.java:48-50 | the raw bits packed from the first eight array elements |
| Float64.Bytes | src/main/java/local/tools/primitives/Float64.java:61-72 | the shift-and-cast bytes are the reference encoding of the raw bits and pack back to them |
| Float64.GetBytesInto | src/main/java/local/tools/primitives/Float64.java:61-72 | static `getBytes` writes output[0..7] only and returns the same array |
| Float64.GetBytesOutput | src/main/java/local/tools/primitives/Float64.java:74-85 | instance `getBytes(output)` writes output[0..7] only and returns the same array |
| Float64.GetBytes | src/main/java/local/tools/primitives/Float64.java:87-89 | a new eight-byte array holding the reference encoding of the raw bits |
| Float64.EqualsIffSameBitsOrNaN | src/main/java/local/tools/primitives/Float64.java:119-134 | equal exactly when the raw bits are equal or both values are NaN |
| Float64.EqualsNaNAndZeros | src/main/java/local/tools/primitives/Float64.java:119-134 | any two NaNs are equal, and 0.0 differs from -0.0 |
| Float64.FromArrayBytes | src/main/java/local/tools/primitives/Float64.java:48-50 | building from one's own bytes gives the same raw bits |
| ByteOrder.UnsignedBEOfBytesBE | src/main/java/local/tools/primitives/Int32.java:59-69 | reading the big-endian bytes of a value in range gives the value |
| ByteOrder.BytesBEOfUnsignedBE | src/main/java/local/tools/primitives/Int32.java:59-69 | encoding the value of a byte sequence gives the same bytes |
| ByteOrder.UnsignedLEIsReversedBE | src/main/java/local/tools/bin/LittleEndianNumberReader.java:53-59 | least-significant-first reading is big-endian reading of the reversed bytes |
| ByteOrder.SignedBEIsTwosComplement | src/main/java/local/tools/primitives/UInt64.java:42-46 | a signed reading is the unsigned one, minus 256^n when the sign bit is set |
| ByteOrder.BytesBESplit | src/main/java/local/tools/primitives/UInt64.java:60-66 | the n + k low bytes are the higher k bytes followed by the lower n |
| BigEndianNumberReader.BigEndianNumberReader.ReadByte | src/main/java/local/tools/bin/BigEndianNumberReader.java:41-43 | one read, cast to byte (-1 at the end) |
| BigEndianNumberReader.BigEndianNumberReader.ReadShort | src/main/java/local/tools/bin/BigEndianNumberReader.java:46-50 | two reads, most significant first; the cursor moves by two |
| BigEndianNumberReader.BigEndianNumberReader.ReadInt | src/main/java/local/tools/bin/BigEndianNumberReader.java:53-59 | four reads, most significant first |
| BigEndianNumberReader.BigEndianNumberReader.ReadLong | src/main/java/local/tools/bin/BigEndianNumberReader.java:62-72 | eight reads, most significant first |
| BigEndianNumberReader.BigEndianNumberReader.ReadInt8 | src/main/java/local/tools/bin/BigEndianNumberReader.java:99-102 | one read as a byte |
| BigEndianNumberReader.BigEndianNumberReader.ReadInt16 | src/main/java/local/tools/bin/BigEndianNumberReader.java:105-109 | two reads packed as a short |
| BigEndianNumberReader.BigEndianNumberReader.ReadInt32 | src/main/java/local/tools/bin/BigEndianNumberReader.java:112-118 | four reads packed as an int |
| BigEndianNumberReader.BigEndianNumberReader.ReadInt64 | src/main/java/local/tools/bin/BigEndianNumberReader.java:121-131 | eight reads packed as a long |
| BigEndianNumberReader.BigEndianNumberReader.ReadFloat32 | src/main/java/local/tools/bin/BigEndianNumberReader.java:134-140 | raw bits from four reads |
| BigEndianNumberReader.BigEndianNumberReader.ReadFloat64 | src/main/java/local/tools/bin/BigEndianNumberReader.java:143-153 | raw bits from eight reads |
| BigEndianNumberReader.BigEndianNumberReader.ReadUInt16 | src/main/java/local/tools/bin/BigEndianNumberReader.java:163-167 | two reads read unsigned; never out of range |
| BigEndianNumberReader.BigEndianNumberReader.ReadUInt32 | src/main/java/local/tools/bin/BigEndianNumberReader.java:170-176 | four reads read unsigned; never out of range |
| BigEndianNumberReader.BigEndianNumberReader.ReadUInt64 | src/main/java/local/tools/bin/BigEndianNumberReader.java:179-189 | eight reads read unsigned; never out of range |
| LittleEndianNumberReader.LittleEndianNumberReader.ReadByte | src/main/java/local/tools/bin/LittleEndianNumberReader.java:41-43 | one read, cast to byte |
| LittleEndianNumberReader.LittleEndianNumberReader.ReadShort | src/main/java/local/tools/bin/LittleEndianNumberReader.java:46-50 | two reads, least significant first |
| LittleEndianNumberReader.LittleEndianNumberReader.ReadInt | src/main/java/local/tools/bin/LittleEndianNumberReader.java:53-59 | four reads, least significant first |
| LittleEndianNumberReader.LittleEndianNumberReader.ReadLong | src/main/java/local/tools/bin/LittleEndianNumberReader.java:62-72 | eight reads, least significant first |
| LittleEndianNumberReader.LittleEndianNumberReader.ReadInt8 | src/main/java/local/tools/bin/LittleEndianNumberReader.java:99-102 | one read as a byte |
| LittleEndianNumberReader.LittleEndianNumberReader.ReadInt16 | src/main/java/local/tools/bin/LittleEndianNumberReader.java:105-109 | two reads, least significant first, as a short |
| LittleEndianNumberReader.LittleEndianNumberReader.ReadInt32 | src/main/java/local/tools/bin/LittleEndianNumberReader.java:112-118 | four reads, least significant first, as an int |
| LittleEndianNumberReader.LittleEndianNumberReader.ReadInt64 | src/main/java/local/tools/bin/LittleEndianNumberReader.java:121-131 | eight reads, least significant first, as a long |
| LittleEndianNumberReader.LittleEndianNumberReader.ReadFloat32 | src/main/java/local/tools/bin/LittleEndianNumberReader.java:134-140 | raw bits from four reads, least significant first |
| LittleEndianNumberReader.LittleEndianNumberReader.ReadFloat64 | src/main/java/local/tools/bin/LittleEndianNumberReader.java:143-153 | raw bits from eight reads, least significant first |
| LittleEndianNumberReader.LittleEndianNumberReader.ReadUInt16 | src/main/java/local/tools/bin/LittleEndianNumberReader.java:163-167 | two reads read unsigned, least significant first |
| LittleEndianNumberReader.LittleEndianNumberReader.ReadUInt32 | src/main/java/local/tools/bin/LittleEndianNumberReader.java:170-176 | four reads read unsigned, least significant first |
| LittleEndianNumberReader.LittleEndianNumberReader.ReadUInt64 | src/main/java/local/tools/bin/LittleEndianNumberReader.java:179-189 | eight reads read unsigned, least significant first |
| BigEndianNumberWriter.BigEndianNumberWriter.WriteByte | src/main/java/local/tools/bin/BigEndianNumberWriter.java:44-46 | appends the low 8 bits of the argument |
| BigEndianNumberWriter.BigEndianNumberWriter.WriteShort | src/main/java/local/tools/bin/BigEndianNumberWriter.java:49-51 | appends the big-endian encoding of the low 16 bits |
| BigEndianNumberWriter.BigEndianNumberWriter.WriteInt | src/main/java/local/tools/bin/BigEndianNumberWriter.java:54-56 | appends the big-endian encoding of the 32-bit pattern |
| BigEndianNumberWriter.BigEndianNumberWriter.WriteLong | src/main/java/local/tools/bin/BigEndianNumberWriter.java:59-61 | appends the big-endian encoding of the 64-bit pattern |
| BigEndianNumberWriter.BigEndianNumberWriter.WriteFloat | src/main/java/local/tools/bin/BigEndianNumberWriter.java:64-67 | appends the encoding of the raw 32 bits |
| BigEndianNumberWriter.BigEndianNumberWriter.WriteDouble | src/main/java/local/tools/bin/BigEndianNumberWriter.java:70-73 | appends the encoding of the raw 64 bits |
| BigEndianNumberWriter.BigEndianNumberWriter.WriteInt8 | src/main/java/local/tools/bin/BigEndianNumberWriter.java:78-80 | appends the value's bytes |
| BigEndianNumberWriter.BigEndianNumberWriter.WriteInt16 | src/main/java/local/tools/bin/BigEndianNumberWriter.java:83-85 | appends the value's bytes |
| BigEndianNumberWriter.BigEndianNumberWriter.WriteInt32 | src/main/java/local/tools/bin/BigEndianNumberWriter.java:88-90 | appends the value's bytes |
| BigEndianNumberWriter.BigEndianNumberWriter.WriteInt64 | src/main/java/local/tools/bin/BigEndianNumberWriter.java:93-95 | appends the value's bytes |
| BigEndianNumberWriter.BigEndianNumberWriter.WriteFloat32 | src/main/java/local/tools/bin/BigEndianNumberWriter.java:98-101 | appends the value's bytes |
| BigEndianNumberWriter.BigEndianNumberWriter.WriteFloat64 | src/main/java/local/tools/bin/BigEndianNumberWriter.java:104-107 | appends the value's bytes |
| BigEndianNumberWriter.BigEndianNumberWriter.WriteUInt16 | src/main/java/local/tools/bin/BigEndianNumberWriter.java:117-119 | appends the value's two bytes |
| BigEndianNumberWriter.BigEndianNumberWriter.WriteUInt32 | src/main/java/local/tools/bin/BigEndianNumberWriter.java:122-124 | appends the value's four bytes |
| BigEndianNumberWriter.BigEndianNumberWriter.WriteUInt64 | src/main/java/local/tools/bin/BigEndianNumberWriter.java:127-129 | appends the value's eight bytes |
| BigEndianNumberReader.BigEndianNumberReader.constructor | src/main/java/local/tools/bin/BigEndianNumberReader.java:35-37 | the reader reads from the given stream |
| LittleEndianNumberReader.LittleEndianNumberReader.constructor | src/main/java/local/tools/bin/LittleEndianNumberReader.java:35-37 | the reader reads from the given stream |
| BigEndianNumberWriter.BigEndianNumberWriter.constructor | src/main/java/local/tools/bin/BigEndianNumberWriter.java:38-40 | the writer appends to the given stream |
| LittleEndianNumberWriter.LittleEndianNumberWriter.constructor | src/main/java/local/tools/bin/BinaryWriter.java:71 | the writer appends to the given stream, with an arrangement that keeps the number of bytes |
| LittleEndianNumberWriter.LittleEndianNumberWriter.WriteByte | src/main/java/local/tools/bin/NumberWriter.java:32 | appends the low 8 bits of the argument, arranged |
| LittleEndianNumberWriter.LittleEndianNumberWriter.WriteFloat | src/main/java/local/tools/bin/NumberWriter.java:40 | appends the four bytes of the raw 32 bits in the writer's arrangement |
| LittleEndianNumberWriter.LittleEndianNumberWriter.WriteDouble | src/main/java/local/tools/bin/NumberWriter.java:42 | appends the eight bytes of the raw 64 bits in the writer's arrangement |
| LittleEndianNumberWriter.LittleEndianNumberWriter.WriteInt8 | src/main/java/local/tools/bin/NumberWriter.java:44 | appends the value's byte, arranged |
| LittleEndianNumberWriter.LittleEndianNumberWriter.WriteInt16 | src/main/java/local/tools/bin/NumberWriter.java:46 | appends the value's two bytes in the writer's arrangement |
| LittleEndianNumberWriter.LittleEndianNumberWriter.WriteInt32 | src/main/java/local/tools/bin/NumberWriter.java:48 | appends the value's four bytes in the writer's arrangement |
| LittleEndianNumberWriter.LittleEndianNumberWriter.WriteInt64 | src/main/java/local/tools/bin/NumberWriter.java:50 | appends the value's eight bytes in the writer's arrangement |
| LittleEndianNumberWriter.LittleEndianNumberWriter.WriteUInt16 | src/main/java/local/tools/bin/NumberWriter.java:54 | appends a valid value's two bytes in the writer's arrangement |
| LittleEndianNumberWriter.LittleEndianNumberWriter.WriteUInt32 | src/main/java/local/tools/bin/NumberWriter.java:56 | appends a valid value's four bytes in the writer's arrangement |
| LittleEndianNumberWriter.LittleEndianNumberWriter.WriteUInt64 | src/main/java/local/tools/bin/NumberWriter.java:58 | appends a valid value's eight bytes in the writer's arrangement |
| LittleEndianNumberWriter.LittleEndianNumberWriter.WriteFloat32 | src/main/java/local/tools/bin/NumberWriter.java:60 | appends the raw bits' four bytes in the writer's arrangement |
| LittleEndianNumberWriter.LittleEndianNumberWriter.WriteFloat64 | src/main/java/local/tools/bin/NumberWriter.java:62 | appends the raw bits' eight bytes in the writer's arrangement |
| LittleEndianNumberWriter.LittleEndianNumberWriter.WriteShort | src/main/java/local/tools/bin/NumberWriter.java:34 | appends the two bytes of the low 16 bits in the writer's arrangement |
| LittleEndianNumberWriter.LittleEndianNumberWriter.WriteInt | src/main/java/local/tools/bin/NumberWriter.java:36 | appends the four bytes of the 32-bit pattern in the writer's arrangement |
| LittleEndianNumberWriter.LittleEndianNumberWriter.WriteLong | src/main/java/local/tools/bin/NumberWriter.java:38 | appends the eight bytes of the 64-bit pattern in the writer's arrangement |
| BinaryReader.StringLength | src/main/java/local/tools/bin/BinaryReader.java:237-249 | the bytes before the first 0 or 0xFF byte or the end of the data |
| BinaryReader.StringLengthAt | src/main/java/local/tools/bin/BinaryReader.java:237-249 | that length is the only one with no stop byte before it and a stop byte or the end after it |
| BinaryReader.CharsLength | src/main/java/local/tools/bin/BinaryReader.java:256-264 | at most count bytes, stopping before a 0 byte or the end of the data |
| BinaryReader.CharsLengthAt | src/main/java/local/tools/bin/BinaryReader.java:256-264 | that length is the only one the scan can stop at |
| BinaryReader.StringStop | src/main/java/local/tools/bin/BinaryReader.java:237-249 | `(char)(byte) r` is `END` or `EOL` exactly when r is -1, 0 or 0xFF |
| BinaryReader.CharStop | src/main/java/local/tools/bin/BinaryReader.java:256-264 | `(char) r` is `END` or `EOL` exactly when r is -1 or 0 |
| BinaryReader.SeekSkip | src/main/java/local/tools/bin/BinaryReader.java:96-101 | as written: refused exactly when the target is at or after the position; otherwise a negative skip |
| BinaryReader.SeekSkipInverted | src/main/java/local/tools/bin/BinaryReader.java:96-101 | as written, seeking from 0 to 4 is refused and seeking from 4 to 0 is accepted |
| BinaryReader.ForwardSeekSkip | src/main/java/local/tools/bin/BinaryReader.java:96-101 | as intended: refused exactly when the target is behind the position; otherwise it skips the distance to it |
| BinaryReader.BinaryReader.constructor | src/main/java/local/tools/bin/BinaryReader.java:73-83 | `BigEndian` selects the big-endian codec, anything else the little-endian one; position 0 |
| BinaryReader.BinaryReader.Default | src/main/java/local/tools/bin/BinaryReader.java:65-67 | little-endian by default |
| BinaryReader.BinaryReader.Skip | src/main/java/local/tools/bin/BinaryReader.java:91-94 | the position grows by the requested count; the stream moves by what it can skip |
| BinaryReader.BinaryReader.Seek | src/main/java/local/tools/bin/BinaryReader.java:96-101 | as written: a forward seek fails with an I/O error; a backward one moves the position back but not the stream |
| BinaryReader.BinaryReader.SeekForward | src/main/java/local/tools/bin/BinaryReader.java:96-101 | as intended: a backward seek fails and changes nothing; a forward one moves position and stream together |
| BinaryReader.BinaryReader.Read | src/main/java/local/tools/bin/BinaryReader.java:115-118 | one byte or -1; the position counts it either way |
| BinaryReader.BinaryReader.ReadBuffer | src/main/java/local/tools/bin/BinaryReader.java:121-125 | fills the buffer's front with what is left; the position grows by the result, -1 included |
| BinaryReader.BinaryReader.ReadRange | src/main/java/local/tools/bin/BinaryReader.java:128-132 | fills buffer[index..] and leaves the rest; the position grows by the result |
| BinaryReader.BinaryReader.ReadBytes | src/main/java/local/tools/bin/BinaryReader.java:135-140 | up to count bytes; at the end of the data an empty array and a position one lower |
| BinaryReader.BinaryReader.ReadBoolean | src/main/java/local/tools/bin/BinaryReader.java:144-146 | true exactly when the read is not 0 (so true at the end) |
| BinaryReader.BinaryReader.ReadByte | src/main/java/local/tools/bin/BinaryReader.java:148-151 | one byte through the codec; position +1 |
| BinaryReader.BinaryReader.ReadChar | src/main/java/local/tools/bin/BinaryReader.java:153-156 | two bytes read unsigned in the reader's order; position +2 |
| BinaryReader.BinaryReader.ReadShort | src/main/java/local/tools/bin/BinaryReader.java:158-161 | two bytes in the reader's order; position +2 |
| BinaryReader.BinaryReader.ReadInt | src/main/java/local/tools/bin/BinaryReader.java:163-166 | four bytes in the reader's order; position +4 |
| BinaryReader.BinaryReader.ReadLong | src/main/java/local/tools/bin/BinaryReader.java:168-171 | eight bytes in the reader's order; position +8 |
| BinaryReader.BinaryReader.ReadFloat | src/main/java/local/tools/bin/BinaryReader.java:173-176 | the raw bits of an int read; position +4 |
| BinaryReader.BinaryReader.ReadDouble | src/main/java/local/tools/bin/BinaryReader.java:178-181 | the raw bits of a long read; position +8 |
| BinaryReader.BinaryReader.ReadInt8 | src/main/java/local/tools/bin/BinaryReader.java:185-188 | one byte; position +1 |
| BinaryReader.BinaryReader.ReadInt16 | src/main/java/local/tools/bin/BinaryReader.java:190-193 | two bytes in the reader's order; position +2 |
| BinaryReader.BinaryReader.ReadInt32 | src/main/java/local/tools/bin/BinaryReader.java:195-198 | four bytes in the reader's order; position +4 |
| BinaryReader.BinaryReader.ReadInt64 | src/main/java/local/tools/bin/BinaryReader.java:200-203 | eight bytes in the reader's order; position +8 |
| BinaryReader.BinaryReader.ReadUInt16 | src/main/java/local/tools/bin/BinaryReader.java:210-213 | two bytes read unsigned; position +2 |
| BinaryReader.BinaryReader.ReadUInt32 | src/main/java/local/tools/bin/BinaryReader.java:215-218 | four bytes read unsigned; position +4 |
| BinaryReader.BinaryReader.ReadUInt64 | src/main/java/local/tools/bin/BinaryReader.java:220-223 | eight bytes read unsigned; position +8 |
| BinaryReader.BinaryReader.ReadFloat32 | src/main/java/local/tools/bin/BinaryReader.java:225-228 | raw bits of four bytes; position +4 |
| BinaryReader.BinaryReader.ReadFloat64 | src/main/java/local/tools/bin/BinaryReader.java:230-233 | raw bits of eight bytes; position +8 |
| BinaryReader.BinaryReader.ReadString | src/main/java/local/tools/bin/BinaryReader.java:237-249 | the bytes up to the first 0 or 0xFF byte or the end; the stopping read is consumed and counted |
| BinaryReader.BinaryReader.ReadStringOfLength | src/main/java/local/tools/bin/BinaryReader.java:251-254 | the bytes `readBytes(length)` returns |
| BinaryReader.BinaryReader.ReadChars | src/main/java/local/tools/bin/BinaryReader.java:256-264 | up to count bytes widened to chars, stopping at a 0 byte or the end, whose read is consumed |
| BinaryWriter.BinaryWriter.constructor | src/main/java/local/tools/bin/BinaryWriter.java:64-74 | `BigEndian` selects the big-endian codec, anything else the little-endian one |
| BinaryWriter.BinaryWriter.Default | src/main/java/local/tools/bin/BinaryWriter.java:56-58 | little-endian by default |
| BinaryWriter.BinaryWriter.Write | src/main/java/local/tools/bin/BinaryWriter.java:78-80 | appends the low 8 bits |
| BinaryWriter.BinaryWriter.WriteAll | src/main/java/local/tools/bin/BinaryWriter.java:83-85 | appends the buffer unchanged |
| BinaryWriter.BinaryWriter.WriteRange | src/main/java/local/tools/bin/BinaryWriter.java:88-90 | appends buffer[offset..offset+length] |
| BinaryWriter.BinaryWriter.WriteBoolean | src/main/java/local/tools/bin/BinaryWriter.java:104-106 | appends 1 for true, 0 for false |
| BinaryWriter.BinaryWriter.WriteByte | src/main/java/local/tools/bin/BinaryWriter.java:108-110 | appends the low 8 bits |
| BinaryWriter.BinaryWriter.WriteByteValue | src/main/java/local/tools/bin/BinaryWriter.java:112-114 | appends the byte |
| BinaryWriter.BinaryWriter.WriteChar | src/main/java/local/tools/bin/BinaryWriter.java:116-118 | appends the code unit's two bytes in the writer's order |
| BinaryWriter.BinaryWriter.WriteShort | src/main/java/local/tools/bin/BinaryWriter.java:120-122 | appends two bytes in the writer's order |
| BinaryWriter.BinaryWriter.WriteInt | src/main/java/local/tools/bin/BinaryWriter.java:124-126 | appends four bytes in the writer's order |
| BinaryWriter.BinaryWriter.WriteLong | src/main/java/local/tools/bin/BinaryWriter.java:128-130 | appends eight bytes in the writer's order |
| BinaryWriter.BinaryWriter.WriteFloat | src/main/java/local/tools/bin/BinaryWriter.java:132-136 | appends the raw 32 bits as an int write |
| BinaryWriter.BinaryWriter.WriteDouble | src/main/java/local/tools/bin/BinaryWriter.java:138-141 | appends the raw 64 bits as a long write |
| BinaryWriter.BinaryWriter.WriteInt8 | src/main/java/local/tools/bin/BinaryWriter.java:145-147 | appends the value's byte |
| BinaryWriter.BinaryWriter.WriteInt16 | src/main/java/local/tools/bin/BinaryWriter.java:149-151 | appends the value's two bytes in the writer's order |
| BinaryWriter.BinaryWriter.WriteInt32 | src/main/java/local/tools/bin/BinaryWriter.java:153-155 | appends the value's four bytes in the writer's order |
| BinaryWriter.BinaryWriter.WriteInt64 | src/main/java/local/tools/bin/BinaryWriter.java:157-159 | appends the value's eight bytes in the writer's order |
| BinaryWriter.BinaryWriter.WriteUInt16 | src/main/java/local/tools/bin/BinaryWriter.java:165-167 | appends the value's two bytes in the writer's order |
| BinaryWriter.BinaryWriter.WriteUInt32 | src/main/java/local/tools/bin/BinaryWriter.java:169-171 | appends the value's four bytes in the writer's order |
| BinaryWriter.BinaryWriter.WriteUInt64 | src/main/java/local/tools/bin/BinaryWriter.java:173-175 | appends the value's eight bytes in the writer's order |
| BinaryWriter.BinaryWriter.WriteFloat32 | src/main/java/local/tools/bin/BinaryWriter.java:177-179 | appends the raw bits' four bytes in the writer's order |
| BinaryWriter.BinaryWriter.WriteFloat64 | src/main/java/local/tools/bin/BinaryWriter.java:181-183 | appends the raw bits' eight bytes in the writer's order |
| BinaryWriter.BinaryWriter.WriteBytes | src/main/java/local/tools/bin/BinaryWriter.java:187-191 | appends the string's bytes, then one `EOL` byte |
| BinaryWriter.BinaryWriter.WriteChars | src/main/java/local/tools/bin/BinaryWriter.java:193-197 | appends each code unit's two bytes, in array order |
| BinaryWriter.BinaryWriter.CharsLayoutLength | src/main/java/local/tools/bin/BinaryWriter.java:193-197 | `writeChars` writes exactly two bytes per code unit |
| BinaryWriter.BinaryWriter.CharsLayoutBigEndian | src/main/java/local/tools/bin/BinaryWriter.java:193-197 | big-endian, bytes 2i and 2i+1 read most significant first are code unit i |
| RoundTrips.ReadArranged | src/main/java/local/tools/bin/BinaryReader.java:73-83 | reading bytes in the order a writer of the same byte order laid them out gives the number back |
| RoundTrips.ValueBack | src/main/java/local/tools/bin/BinaryReader.java:163-166 | a value laid out among other bytes is read back from where it starts |
| RoundTrips.Terminator | src/main/java/local/tools/bin/BinaryWriter.java:187-191 | the length of the part of a string before its first 0 or -1 byte |
| RoundTrips.IntsThroughStreams | src/main/java/local/tools/bin/BinaryWriter.java:124-126 | `writeInt(a); writeInt(b)` then two `readInt()` give a and b back in either byte order, and the position is 8 |
| RoundTrips.LongThroughStreams | src/main/java/local/tools/bin/BinaryWriter.java:128-130 | `writeLong` then `readLong` gives the value back in either byte order |
| RoundTrips.CharThroughStreams | src/main/java/local/tools/bin/BinaryWriter.java:116-118 | `writeChar` then `readChar` gives the code unit back in either byte order |
| RoundTrips.BooleanThroughStreams | src/main/java/local/tools/bin/BinaryWriter.java:104-106 | `writeBoolean` then `readBoolean` gives the flag back |
| RoundTrips.UInt64ThroughStreams | src/main/java/local/tools/bin/BinaryWriter.java:173-175 | `writeUInt64` then `readUInt64` gives the value back in either byte order |
| RoundTrips.DoubleThroughStreams | src/main/java/local/tools/bin/BinaryWriter.java:138-141 | `writeDouble` then `readDouble` gives the raw bits back in either byte order |
| RoundTrips.ByteThroughStreams | src/main/java/local/tools/bin/BinaryWriter.java:108-114 | `writeByte` then `readByte` gives the byte back in either byte order; position 1 |
| RoundTrips.Int8ThroughStreams | src/main/java/local/tools/bin/BinaryWriter.java:145-147 | `writeInt8` then `readInt8` gives the value back; position 1 |
| RoundTrips.ShortThroughStreams | src/main/java/local/tools/bin/BinaryWriter.java:120-122 | `writeShort` then `readShort` gives the value back in either byte order; position 2 |
| RoundTrips.Int16ThroughStreams | src/main/java/local/tools/bin/BinaryWriter.java:149-151 | `writeInt16` then `readInt16` gives the value back in either byte order |
| RoundTrips.Int32ThroughStreams | src/main/java/local/tools/bin/BinaryWriter.java:153-155 | `writeInt32` then `readInt32` gives the value back in either byte order |
| RoundTrips.Int64ThroughStreams | src/main/java/local/tools/bin/BinaryWriter.java:157-159 | `writeInt64` then `readInt64` gives the value back in either byte order |
| RoundTrips.UInt16ThroughStreams | src/main/java/local/tools/bin/BinaryWriter.java:165-167 | `writeUInt16` then `readUInt16` gives every valid value back in either byte order |
| RoundTrips.UInt32ThroughStreams | src/main/java/local/tools/bin/BinaryWriter.java:169-171 | `writeUInt32` then `readUInt32` gives every valid value back in either byte order |
| RoundTrips.FloatThroughStreams | src/main/java/local/tools/bin/BinaryWriter.java:132-136 | `writeFloat` then `readFloat` gives the raw bits back in either byte order |
| RoundTrips.Float32ThroughStreams | src/main/java/local/tools/bin/BinaryWriter.java:177-179 | `writeFloat32` then `readFloat32` gives the raw bits back in either byte order |
| RoundTrips.Float64ThroughStreams | src/main/java/local/tools/bin/BinaryWriter.java:181-183 | `writeFloat64` then `readFloat64` gives the raw bits back in either byte order |
| RoundTrips.StringBack | src/main/java/local/tools/bin/BinaryReader.java:237-249 | reading a string from the bytes of s and a 0 stops at s's first 0 or -1 byte |
| RoundTrips.StringThroughStreams | src/main/java/local/tools/bin/BinaryWriter.java:187-191 | `writeBytes(s)` then `readString()` gives back s up to its first 0 or -1 byte, so all of s when it has none |
| RoundTrips.CharsStartWithZero | src/main/java/local/tools/bin/BinaryReader.java:256-264 | data whose first big-endian pair is below 256 starts with a 0 byte, where reading chars stops at once |
| RoundTrips.FirstPair | src/main/java/local/tools/bin/BinaryWriter.java:193-197 | big-endian, the first two bytes `writeChars` writes are the first code unit |
| RoundTrips.CharsThroughStreams | src/main/java/local/tools/bin/BinaryReader.java:256-264 | `writeChars` then `readChars` does not round-trip: a first code unit below 256 reads back as no chars at all |
| RoundTrips.OppositeOrders | src/main/java/local/tools/bin/LittleEndianNumberReader.java:53-59 | the same four reads pack in read order big-endian and in reverse order little-endian, end-of-stream values included |
| RoundTrips.CodecIntRoundTrip | src/main/java/local/tools/bin/BigEndianNumberWriter.java:54-56 | the big-endian codecs on their own: `writeInt` then `readInt` gives the value back |

## Left out

- Floating point: `Float32` and `Float64` carry their raw IEEE bits. `floatValue`, `doubleValue` and the other `Number` conversions are not modelled. `intBitsToFloat` followed by `floatToRawIntBits` is taken to keep the bits, NaN payloads included.
- `Float32.EqualsIffSameBitsOrNaN`, `Float64.EqualsIffSameBitsOrNaN`: `equals` is modelled through `floatToIntBits`/`doubleToLongBits`, which put every NaN on one canonical pattern, rather than by float comparison.
- Character encodings: `writeBytes(String)` and `readString` work on the string's bytes. The platform charset of `String.getBytes` and `new String(bytes)` is not modelled.
- The file-name constructors, `close`, `flush` and `available` are I/O on real files or streams and are not modelled.
- `hashCode` and `toString` of the value types are not modelled.
- `UInt8`, `readUInt8` and `writeUInt8`: `UInt8.java` is not part of this model.
- `Int64.java` is not part of this model. `Int64` is modelled as the eight-byte analogue of `Int32` (`packBytes`, `getBytes`).
- `LittleEndianNumberWriter.java` is not part of this model. Its byte order is a parameter of the writer (`arrange`); the only assumption is that it keeps the number of bytes. The round trips in `RoundTrips` take it to be least significant byte first, the order the little-endian readers use.
- `LittleEndianNumberWriter.LittleEndianNumberWriter.WriteShort`: states only that the arranged two bytes are appended, because the arrangement is a parameter; the same holds for every other method of that class.
- The big-endian and little-endian readers' `readFloat` and `readDouble` return Java floats built through `floatValue()`. They are not modelled; `BinaryReader` does not use them. `readDouble` narrows its value to a float, which loses precision.
- `NumberReader.java` and `NumberWriter.java` are interfaces. They are modelled as datatypes with one constructor per codec, whose methods dispatch.
- `BinaryReader.BinaryReader.Skip`: the `long` position is an unbounded integer, so overflow of the position is not modelled.
- The input stream is an in-memory stream. `read(byte[], int, int)` fills as much as is left, and `skip` moves by as much as is left. Blocking and short reads of other streams are not modelled.
- Out-of-range array indices and negative sizes, which throw in Java, are preconditions in the model (`FromArray`, `GetBytesInto`, `ReadRange`, `ReadBytes`, `ReadStringOfLength`, `BinaryWriter.BinaryWriter.WriteRange`): a negative length reaches `new byte[count]` or the stream's bounds check and throws, and the model does not describe those exceptions.
- The `Equals` predicates compare two values of the same type. Java's `equals(Object)` also returns false for `null` and for an object of another class; a typed predicate cannot be given such arguments, so that case is not modelled.
- The in-memory input stream follows the general `java.io.InputStream` contract for `read(b, off, len)`: a zero-length read returns 0, even at the end of the data, where `ByteArrayInputStream` returns -1. So `readBytes(0)` at the end of the data leaves the position unchanged in the model, while over a `ByteArrayInputStream` it would lower it by one.

## Findings

| source | as written | input that shows it | evidently intended | confidence | as-written member | corrected member |
|---|---|---|---|---|---|---|
| src/main/java/local/tools/bin/BinaryReader.java:97 | `seek` throws "Requested seek back" when the target is at or after the current position, and otherwise calls `skip` with a negative count | position 0, `seek(4)` throws; position 4, `seek(0)` moves the position back to 0 while the stream does not move | refuse a seek backwards, and skip forward to the target | not executed | BinaryReader.SeekSkipInverted | BinaryReader.BinaryReader.SeekForward |
