/** What every part of the model shares: optional values and the widths of machine words. */
module Basics {
  datatype Option<+T> = None | Some(value: T)

  const U32: int := 0x1_0000_0000
  const U64: int := 0x1_0000_0000_0000_0000
}
