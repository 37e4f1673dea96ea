/** Fixed-width integer types of the C++ sources and the Option used for the default generator slot. */
module Types {

  type u8 = x: int | 0 <= x < 0x100
  type u16 = x: int | 0 <= x < 0x1_0000
  type u32 = x: int | 0 <= x < 0x1_0000_0000

  /** A slot that may be empty, as an empty std::function is. */
  datatype Option<+T> = None | Some(value: T)
}
