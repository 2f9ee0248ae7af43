// Small definitions shared by every module of the model: an Option type for
// the source's null pointers, the ammunition kinds, and the fixed-width
// integer ranges the source's fields are declared with.
module Shared {

  datatype Option<T> = None | Some(value: T)

  /** EAmmoType: the ammunition kinds the player's ledger is seeded with
      (the enum's own header is not part of this model). */
  datatype AmmoType = NineMm | AssaultRifle

  const INT8_MIN: int := -0x80
  const INT8_MAX: int := 0x7f
  const INT32_MIN: int := -0x8000_0000
  const INT32_MAX: int := 0x7fff_ffff

  predicate IsInt8(x: int) { INT8_MIN <= x <= INT8_MAX }

  predicate IsInt32(x: int) { INT32_MIN <= x <= INT32_MAX }

  /** Conversion of an int to int8 as the compilers the engine supports
      perform it: two's-complement wrap-around modulo 256. */
  function WrapInt8(x: int): (r: int)
    ensures IsInt8(r)
    ensures (r - x) % 256 == 0
    ensures IsInt8(x) ==> r == x
  {
    (x - INT8_MIN) % 256 + INT8_MIN
  }
}
