/** Java's 32-bit `int` (its range, two's-complement wrap-around and saturating casts) and the range of `long`. */
module JavaInt {
  const INT_MIN: int := -0x8000_0000
  const INT_MAX: int := 0x7fff_ffff
  const MODULUS: int := 0x1_0000_0000
  const LONG_MIN: int := -0x8000_0000_0000_0000
  const LONG_MAX: int := 0x7fff_ffff_ffff_ffff

  predicate IsInt(x: int)
  {
    INT_MIN <= x <= INT_MAX
  }

  /** The value a Java `int` expression yields when the exact result is `x`. */
  function Wrap(x: int): (r: int)
    ensures IsInt(r)
    ensures IsInt(x) ==> r == x
    ensures (x - r) % MODULUS == 0
  {
    var m := x % MODULUS;
    if m > INT_MAX then m - MODULUS else m
  }

  /** Java's narrowing of an out-of-range number to `int` (as a cast from `double` does): it saturates. */
  function Saturate(x: int): (r: int)
    ensures IsInt(r)
    ensures IsInt(x) ==> r == x
    ensures x > INT_MAX ==> r == INT_MAX
    ensures x < INT_MIN ==> r == INT_MIN
  {
    if x > INT_MAX then INT_MAX else if x < INT_MIN then INT_MIN else x
  }

  function Min(a: int, b: int): (m: int)
    ensures m <= a && m <= b && (m == a || m == b)
  {
    if a <= b then a else b
  }
}
