/** Types that several of the models share. */
module Basics {

  datatype Option<T> = None | Some(value: T)

  type Bit = b: int | 0 <= b < 2
  type Byte = x: int | 0 <= x < 0x100
  type Addr = a: int | 0 <= a < 0x1_0000
  type Word = x: int | 0 <= x < 0x1_0000_0000
}
