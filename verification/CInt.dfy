/** C integer conversions used by the firmware, on unbounded integers. */
module CInt {

  const TWO8 := 0x100
  const TWO16 := 0x1_0000
  const TWO32 := 0x1_0000_0000

  /** Conversion to an unsigned 8-bit integer. */
  function U8(x: int): nat {
    x % TWO8
  }

  /** Conversion to an unsigned 16-bit integer. */
  function U16(x: int): nat {
    x % TWO16
  }

  /** Conversion to an unsigned 32-bit integer. */
  function U32(x: int): nat {
    x % TWO32
  }

  /** Conversion to a signed 16-bit integer (two's complement). */
  function S16(x: int): int {
    var u := x % TWO16;
    if u < 0x8000 then u else u - TWO16
  }

  /** Conversion to a signed 32-bit integer (two's complement). */
  function S32(x: int): int {
    var u := x % TWO32;
    if u < 0x8000_0000 then u else u - TWO32
  }

  function Min(a: int, b: int): int {
    if a < b then a else b
  }

  function Max(a: int, b: int): int {
    if a < b then b else a
  }

  function Abs(a: int): nat {
    if a < 0 then -a else a
  }
}
