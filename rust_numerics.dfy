/**
  The few Rust primitives the scheduler leans on, written out over Dafny's unbounded
  integers and exact reals: the `f32 as i32` cast, `i32` division, the natural logarithm
  (`f32::ln`) and `rng.gen_range(0..n)`.
 */
module RustNumerics {

  const I32Min: int := -0x8000_0000
  const I32Max: int := 0x7fff_ffff

  /** The integer part of `x`: truncation toward zero, not the floor. */
  function TruncTowardZero(x: real): (n: int)
    ensures 0.0 <= x ==> 0 <= n && n as real <= x < n as real + 1.0
    ensures x <= 0.0 ==> n <= 0 && n as real - 1.0 < x <= n as real
  {
    if x >= 0.0 then x.Floor else -((-x).Floor)
  }

  /**
    `x as i32` for a finite float: truncates toward zero and saturates at the bounds
    of `i32` (Rust float-to-int casts never wrap).
   */
  function SaturatingCastToI32(x: real): (n: int)
    ensures I32Min <= n <= I32Max
    ensures 0.0 <= x ==> 0 <= n && n as real <= x && (n == I32Max || x < n as real + 1.0)
    ensures x <= 0.0 ==> n <= 0 && x <= n as real && (n == I32Min || n as real - 1.0 < x)
  {
    var t := TruncTowardZero(x);
    if t > I32Max then I32Max else if t < I32Min then I32Min else t
  }

  /** Rust's `a / b` on integers with a positive divisor: the quotient truncated toward zero. */
  function DivTowardZero(a: int, b: int): (q: int)
    requires 0 < b
    ensures 0 <= a ==> 0 <= q && q * b <= a < q * b + b
    ensures a <= 0 ==> q <= 0 && q * b - b < a <= q * b
  {
    if a >= 0 then a / b else -((-a) / b)
  }

  /**
    The bounds the natural logarithm satisfies on the positive reals: it lies between
    1 - 1/x and x - 1. This is all the model assumes of `ln` (other functions meet it too),
    and every fact about `ln` used below follows from these two bounds.
   */
  ghost predicate LnBounds(ln: real -> real)
  {
    forall x: real {:trigger ln(x)} :: 0.0 < x ==> 1.0 - 1.0 / x <= ln(x) <= x - 1.0
  }

  /** The sign of ln(x) is the sign of x - 1. */
  lemma LnSign(ln: real -> real, x: real)
    requires LnBounds(ln) && 0.0 < x
    ensures ln(x) < 0.0 <==> x < 1.0
    ensures ln(x) == 0.0 <==> x == 1.0
    ensures 0.0 < ln(x) <==> 1.0 < x
  {
    if 1.0 < x {
      assert 1.0 / x < 1.0;
    }
  }

  /**
    A sampler gives, for every non-empty range `0..n`, the value `rng.gen_range(0..n)`
    would return: some integer in [0, n).
   */
  ghost predicate IsRangeSampler(sample: int -> int)
  {
    forall n: int {:trigger sample(n)} :: 0 < n ==> 0 <= sample(n) < n
  }
}
