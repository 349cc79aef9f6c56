/**
 * Go's fixed-width integers.  Dafny integers are unbounded, so the widths the
 * translator relies on are written out here: `int` and `int64` are 64-bit
 * two's-complement values, and the conversion `int32(x)` keeps the low 32 bits.
 */
module GoInt {

  const TwoTo31: int := 0x8000_0000
  const TwoTo32: int := 0x1_0000_0000
  const TwoTo63: int := 0x8000_0000_0000_0000

  /** Go's `int64` (and `int` on a 64-bit platform). */
  newtype Int64 = x: int | -TwoTo63 <= x < TwoTo63

  /** Go's `int32`. */
  newtype Int32 = x: int | -TwoTo31 <= x < TwoTo31

  /** Go's `byte`. */
  newtype Byte = x: int | 0 <= x < 256

  predicate InInt32Range(x: int) {
    -TwoTo31 <= x < TwoTo31
  }

  /**
   * Go's conversion `int32(x)` of a wider integer: the result is the one
   * 32-bit value congruent to x modulo 2^32, so values inside the int32 range
   * pass through unchanged and values outside it wrap around.
   */
  function ToInt32(x: int): (r: Int32)
    ensures (x - r as int) % TwoTo32 == 0
    ensures InInt32Range(x) ==> r as int == x
  {
    var low := (x + TwoTo31) % TwoTo32;
    (low - TwoTo31) as Int32
  }

  /** The conversion is lossless exactly on the int32 range. */
  lemma ToInt32Identity(x: int)
    ensures ToInt32(x) as int == x <==> InInt32Range(x)
  {
  }

  /** Two values convert to the same int32 exactly when they agree modulo 2^32. */
  lemma ToInt32Congruence(x: int, y: int)
    ensures ToInt32(x) == ToInt32(y) <==> (x - y) % TwoTo32 == 0
  {
  }
}
