/** Java's fixed-width integer conversions that the control panel relies on. */
module JavaTypes {

  const SHORT_MIN := -32768
  const SHORT_MAX := 32767

  predicate InShortRange(x: int) {
    SHORT_MIN <= x <= SHORT_MAX
  }

  /** The narrowing cast `(short) x`: keeps the low 16 bits, read as two's complement. */
  function Int16(x: int): (r: int)
    ensures InShortRange(r)
    ensures (x - r) % 65536 == 0
    ensures InShortRange(x) ==> r == x
  {
    (x + 32768) % 65536 - 32768
  }
}
