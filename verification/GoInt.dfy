/** Go's fixed-width integers, written out on unbounded ones. */
module GoInt {
  const TWO_32: int := 0x1_0000_0000
  const TWO_63: int := 0x8000_0000_0000_0000
  const TWO_64: int := 0x1_0000_0000_0000_0000

  predicate IsI64(x: int) { -TWO_63 <= x < TWO_63 }

  predicate IsU64(x: int) { 0 <= x < TWO_64 }

  /** Two's complement wrap-around into int64; also the conversion int64(u). */
  function I64(x: int): (r: int)
    ensures IsI64(r)
  {
    (x + TWO_63) % TWO_64 - TWO_63
  }

  /** Wrap-around into uint64; also the conversion uint64(i). */
  function U64(x: int): (r: int)
    ensures IsU64(r)
  {
    x % TWO_64
  }

  /** The conversion uint32(u). */
  function U32(x: int): int { x % TWO_32 }

  /** Go's division, which truncates toward zero. */
  function Quo(a: int, b: int): int
    requires b > 0
  {
    if a >= 0 then a / b else -((-a) / b)
  }

  /** Wrapping leaves the residue alone. */
  lemma WrapMeans(x: int)
    ensures (I64(x) - x) % 0x1_0000_0000_0000_0000 == 0 && (U64(x) - x) % 0x1_0000_0000_0000_0000 == 0
    ensures -0x8000_0000_0000_0000 <= I64(x) < 0x8000_0000_0000_0000 && 0 <= U64(x) < 0x1_0000_0000_0000_0000
    ensures (U32(x) - x) % 0x1_0000_0000 == 0 && 0 <= U32(x) < 0x1_0000_0000
  {
  }

  /** By 100 and by 1000: the remainder is smaller than the divisor and has the sign
      of the dividend. */
  lemma QuoMeans(a: int)
    ensures var rest := a - 100 * Quo(a, 100); -100 < rest < 100 && (rest == 0 || (rest > 0 <==> a > 0))
    ensures var rest := a - 1000 * Quo(a, 1000); -1000 < rest < 1000 && (rest == 0 || (rest > 0 <==> a > 0))
  {
  }
}
