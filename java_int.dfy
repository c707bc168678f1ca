// Java's fixed-width integer arithmetic, written out where the source's int or long can wrap.
module JavaInt {
  const Two31: int := 0x8000_0000
  const Two63: int := 0x8000_0000_0000_0000

  predicate InInt32(x: int) { -Two31 <= x < Two31 }
  predicate InInt64(x: int) { -Two63 <= x < Two63 }

  /** Two's-complement wrap of an exact result into a 32-bit int. */
  function WrapInt32(x: int): (r: int)
    ensures InInt32(r)
    ensures (r - x) % (2 * Two31) == 0
    ensures InInt32(x) ==> r == x
  {
    (x + Two31) % (2 * Two31) - Two31
  }

  /** Two's-complement wrap of an exact result into a 64-bit long. */
  function WrapInt64(x: int): (r: int)
    ensures InInt64(r)
    ensures (r - x) % (2 * Two63) == 0
    ensures InInt64(x) ==> r == x
  {
    (x + Two63) % (2 * Two63) - Two63
  }

  /** Math.abs on a long: the negation wraps, so Math.abs(Long.MIN_VALUE) is Long.MIN_VALUE. */
  function AbsInt64(x: int): (r: int)
    requires InInt64(x)
    ensures InInt64(r)
    ensures x == -Two63 ==> r == -Two63
    ensures x != -Two63 ==> r >= 0 && (r == x || r == -x)
  {
    if x < 0 then WrapInt64(-x) else x
  }

  /** Multiplying both sides by a non-negative factor keeps their order. */
  lemma MulMonotone(a: int, b: int, c: int)
    requires a <= b && c >= 0
    ensures a * c <= b * c
  {
  }
}
