/** Fixed-width integers of the C++ source and the conversions between them. */
module Common {

  type uint8 = x: int | 0 <= x < 0x100
  type uint16 = x: int | 0 <= x < 0x1_0000
  type uint32 = x: int | 0 <= x < 0x1_0000_0000
  type int8 = x: int | -0x80 <= x < 0x80
  type int16 = x: int | -0x8000 <= x < 0x8000

  datatype Option<+T> = None | Some(value: T) {
    function GetOr(default: T): T {
      if Some? then value else default
    }
  }

  /** Narrowing to `uint8_t`: the value modulo 256, also for negative arguments. */
  function ToUint8(x: int): uint8 {
    x % 0x100
  }

  /** Narrowing of a `uint16_t` to `int16_t`: two's complement. */
  function ToInt16(x: uint16): int16 {
    if x < 0x8000 then x else x - 0x1_0000
  }

  /** A condition as a count. */
  function One(b: bool): nat {
    if b then 1 else 0
  }
}
