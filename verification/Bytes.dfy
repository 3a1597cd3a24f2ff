// Bytes, as files and messages hold them.
module ByteStrings {
  type Byte = b: nat | b < 256

  type Bytes = seq<Byte>
}
