/** Rust's fixed-width unsigned integers as subset types of `int`. */
module BoundedInts {

  const TWO_TO_THE_8: int := 0x100
  const TWO_TO_THE_16: int := 0x1_0000
  const TWO_TO_THE_32: int := 0x1_0000_0000

  type uint8 = x: int | 0 <= x < TWO_TO_THE_8
  type uint16 = x: int | 0 <= x < TWO_TO_THE_16
  type uint32 = x: int | 0 <= x < TWO_TO_THE_32
}
