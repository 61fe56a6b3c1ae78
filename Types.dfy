/** Fixed-width integers, an optional value and bit helpers shared by the
    switch and encoder modules.  C's `uint8_t`, `uint16_t`, `int8_t` and a
    32-bit `unsigned long` are subset types of `int`; every place where the
    C code truncates a wider value into one of them does so explicitly. */
module Types {

  type uint8 = x: int | 0 <= x < 0x100
  type uint16 = x: int | 0 <= x < 0x1_0000
  type int8 = x: int | -0x80 <= x < 0x80
  type uint32 = x: int | 0 <= x < 0x1_0000_0000

  /** A hardware pin number (`pinid_t`). */
  type PinId = nat

  datatype Option<+T> = None | Some(value: T)

  function Min(a: int, b: int): int { if a < b then a else b }

  /** The value a C store into a `uint16_t` keeps of `x`. */
  function ToUint16(x: int): (r: uint16)
    ensures 0 <= x < 0x1_0000 ==> r == x
    ensures (r - x) % 0x1_0000 == 0
  {
    x % 0x1_0000
  }

  /** The single-bit mask `1 << n` of an 8-bit flags byte. */
  function Bit(n: nat): bv8
    requires n < 8
  {
    match n
    case 0 => 0x01
    case 1 => 0x02
    case 2 => 0x04
    case 3 => 0x08
    case 4 => 0x10
    case 5 => 0x20
    case 6 => 0x40
    case _ => 0x80
  }

  /** Arduino's `bitRead(x, n)`. */
  predicate BitRead(x: bv8, n: nat)
    requires n < 8
  {
    x & Bit(n) != 0
  }

  /** Arduino's `bitWrite(x, n, v)`: sets bit `n` of `x` to `v`. */
  function BitWrite(x: bv8, n: nat, v: bool): (r: bv8)
    requires n < 8
    ensures BitRead(r, n) == v
    ensures r & !Bit(n) == x & !Bit(n)
  {
    if v then x | Bit(n) else x & !Bit(n)
  }
}
