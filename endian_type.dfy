/** EndianType: the byte order a BinaryReader or BinaryWriter is built for.
    The enum local.tools.bin.EndianType is not part of this model; only its
    two values that the reader and writer name are. */
module EndianType {
  datatype EndianType = BigEndian | LittleEndian

  /** The order the constructors without an explicit order use. */
  const DEFAULT: EndianType := LittleEndian
}
