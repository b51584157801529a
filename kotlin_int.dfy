/**
 * The two places where Kotlin's integer arithmetic differs from Dafny's:
 * `/` truncates toward zero (Dafny's is Euclidean), and `Int` is a
 * 32-bit two's-complement type that wraps around on overflow.
 */
module KotlinInt {

  const TwoTo32: int := 0x1_0000_0000
  const MinInt: int := -0x8000_0000
  const MaxInt: int := 0x7fff_ffff

  predicate IsInt32(x: int)
  {
    MinInt <= x <= MaxInt
  }

  /** Kotlin/JVM integer division `a / b` for a positive divisor: rounds toward zero. */
  function TruncDiv(a: int, b: int): (q: int)
    requires b > 0
    ensures a >= 0 ==> q == a / b
    ensures a >= 0 ==> q * b <= a < q * b + b
    ensures a < 0 ==> q <= 0 && a <= q * b && q * b < a + b
  {
    if a >= 0 then a / b else -((-a) / b)
  }

  /** The value of a mathematical integer after storing it in a 32-bit Kotlin `Int`. */
  function Wrap32(x: int): (r: int)
    ensures IsInt32(r)
    ensures (r - x) % TwoTo32 == 0
    ensures IsInt32(x) ==> r == x
  {
    var m := x % TwoTo32;
    if m <= MaxInt then m else m - TwoTo32
  }
}
