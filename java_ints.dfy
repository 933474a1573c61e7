/** Java's fixed-width integer types as they appear in the ticket service:
    quantities and port arguments are `int`, account ids are `long`. */
module JavaInts {

  const INT32_MIN: int := -0x8000_0000
  const INT32_MAX: int := 0x7FFF_FFFF
  const TWO_TO_32: int := 0x1_0000_0000

  newtype int32 = x: int | -0x8000_0000 <= x < 0x8000_0000
  newtype int64 = x: int | -0x8000_0000_0000_0000 <= x < 0x8000_0000_0000_0000

  /** The value a Java `int` expression takes when its exact result is `x`:
      two's-complement wrap-around to 32 bits. */
  function Wrap32(x: int): (r: int32)
    ensures (r as int - x) % TWO_TO_32 == 0
    ensures INT32_MIN <= x <= INT32_MAX ==> r as int == x
  {
    ((x - INT32_MIN) % TWO_TO_32 + INT32_MIN) as int32
  }
}
