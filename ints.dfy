/** Fixed-width integer types of the C++ sources, as subsets of `int`. */
module Ints {

  type uint8 = x: int | 0 <= x < 0x100
  type uint16 = x: int | 0 <= x < 0x1_0000
  type uint32 = x: int | 0 <= x < 0x1_0000_0000
  type uint64 = x: int | 0 <= x < 0x1_0000_0000_0000_0000
  type int32 = x: int | -0x8000_0000 <= x < 0x8000_0000

  /** The two's-complement conversion of an unbounded integer to a 32-bit `int`
      (what `static_cast<int>` does to a `size_t` on the targets of the library). */
  function ToInt32(n: int): (r: int32)
    ensures (r - n) % 0x1_0000_0000 == 0
    ensures 0 <= n < 0x8000_0000 ==> r == n
  {
    var m := n % 0x1_0000_0000;
    if m < 0x8000_0000 then m else m - 0x1_0000_0000
  }

  /** Narrowing of any integer to `uint8_t`: the value modulo 256. */
  function ToUint8(n: int): (r: uint8)
    ensures (r - n) % 0x100 == 0
    ensures 0 <= n < 0x100 ==> r == n
  {
    n % 0x100
  }

  /** Narrowing of any integer to `uint16_t`: the value modulo 65536. */
  function ToUint16(n: int): (r: uint16)
    ensures (r - n) % 0x1_0000 == 0
    ensures 0 <= n < 0x1_0000 ==> r == n
  {
    n % 0x1_0000
  }

  /** Narrowing of any integer to `uint32_t`: the value modulo 2^32. */
  function ToUint32(n: int): (r: uint32)
    ensures (r - n) % 0x1_0000_0000 == 0
    ensures 0 <= n < 0x1_0000_0000 ==> r == n
  {
    n % 0x1_0000_0000
  }
}
