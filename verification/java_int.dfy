/** Java's 32-bit `int` / `Integer` arithmetic, written out on unbounded
    Dafny integers: the representable range, two's-complement wrap-around of
    an addition, and `Math.abs`, whose result wraps for the most negative value. */
module JavaInt {

  const MinInt: int := -0x8000_0000
  const MaxInt: int := 0x7fff_ffff
  const Modulus: int := 0x1_0000_0000

  /** True iff `x` fits in a Java `int`. */
  predicate IsInt(x: int) {
    MinInt <= x <= MaxInt
  }

  /** The Java `int` that an exact result `x` wraps to. */
  function Wrap(x: int): (r: int)
    ensures IsInt(r)
    ensures (x - r) % Modulus == 0
    ensures IsInt(x) ==> r == x
  {
    (x - MinInt) % Modulus + MinInt
  }

  /** `Math.abs(int)`: negation wraps, so the most negative value maps to itself. */
  function Abs(x: int): (r: int)
    requires IsInt(x)
    ensures IsInt(r)
    ensures x != MinInt ==> r >= 0 && (r == x || r == -x)
    ensures x == MinInt ==> r == MinInt
  {
    if x < 0 then Wrap(-x) else x
  }
}
