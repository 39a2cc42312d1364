/** Machine words of the C++ program: the widths that its arithmetic wraps at. */
module Words {

  const U32 := 0x1_0000_0000
  const U64 := 0x1_0000_0000_0000_0000
  const I64 := 0x8000_0000_0000_0000

  type uint32 = x: nat | x < 0x1_0000_0000
  type uint64 = x: nat | x < 0x1_0000_0000_0000_0000
  type int64 = x: int | -0x8000_0000_0000_0000 <= x < 0x8000_0000_0000_0000

  /** Unsigned 64-bit subtraction, which wraps below zero. */
  function Minus(a: uint64, b: uint64): uint64 {
    if a >= b then a - b else U64 + a - b
  }

  /** Conversion of a uint64 to an int64: the same 64 bits, read as two's complement. */
  function Signed(x: uint64): int64 {
    if x < I64 then x else x - U64
  }

  /** Conversion of an int64 to a uint64: the same 64 bits, read without a sign. */
  function Unsigned(x: int64): uint64 {
    if x >= 0 then x else U64 + x
  }
}
