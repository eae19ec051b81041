/** Byte strings; the source stores bytes as char. */
module ByteStrings {
  type Byte = char
  type Bytes = seq<Byte>

  /** The range of size_t. */
  const SIZE_T: nat := 0x1_0000_0000_0000_0000
  /** No allocation and no message reaches a quarter of the address space. */
  const MAX_SIZE: nat := SIZE_T / 4
}
