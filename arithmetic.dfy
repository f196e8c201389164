/** Facts about multiplication, stated once so that the proofs that use
    them stay linear. */
module Arithmetic {

  /** One more copy of `x`. */
  lemma MultiplyStep(n: int, x: int)
    ensures (n + 1) * x == n * x + x
  {
  }

  /** Multiplying by a positive number keeps the order. */
  lemma MultiplyMonotone(c: int, a: int, b: int)
    requires c > 0
    ensures a <= b ==> c * a <= c * b
  {
    if a <= b {
      assert c * b - c * a == c * (b - a);
    }
  }
}
