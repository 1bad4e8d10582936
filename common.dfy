// Shared vocabulary: optional values (a C pointer that may be null) and the
// terminating character of C strings.
module Common {
  /** A value that may be absent, the way a C pointer may be null. */
  datatype Option<T> = None | Some(value: T)

  /** The character that ends every C string. */
  const NUL: char := '\0'

  /** Largest value of a `uint32_t` plus one. */
  const U32: nat := 0x1_0000_0000

  /** Largest value of a `uint64_t` plus one. */
  const U64: nat := 0x1_0000_0000_0000_0000
}
