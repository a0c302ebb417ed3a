/** What several modules share. */
module Common {

  datatype Option<T> = None | Some(value: T)

  /** Number of values of a 64-bit word: uint64_t, and std::uint_fast32_t on LP64 systems. */
  const WORD: nat := 0x1_0000_0000_0000_0000
}
