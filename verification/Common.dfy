/** Small shared vocabulary: optional values, bytes and the 32-bit bound of the wire formats. */
module Common {
  datatype Option<+T> = None | Some(value: T)

  datatype Result<+T> = Ok(value: T) | Err

  type byte = x: int | 0 <= x < 256

  type bytes = seq<byte>

  /** Length of public, private and message keys. */
  const KEY_LENGTH: nat := 32

  const U16_LIMIT: nat := 0x1_0000

  const U32_LIMIT: nat := 0x1_0000_0000
}
