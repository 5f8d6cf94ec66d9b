/** Small facts about integer multiplication and division that the letterbox
    and dispatch proofs share. */
module Arith {

  /** Multiplying both sides of `<=` by a non-negative factor. */
  lemma MulMono(a: int, b: int, c: nat)
    requires a <= b
    ensures a * c <= b * c
  {
  }

  /** Cancelling a positive factor from both sides of `<=`. */
  lemma CancelFactor(a: int, b: int, c: int)
    requires 0 < c && a * c <= b * c
    ensures a <= b
  {
  }

  /** Cancelling a positive factor from both sides of `<`. */
  lemma CancelFactorStrict(a: int, b: int, c: int)
    requires 0 < c && a * c < b * c
    ensures a < b
  {
  }

  /** The integer quotient brackets the dividend. */
  lemma DivBracket(n: nat, d: nat)
    requires 0 < d
    ensures (n / d) * d <= n < (n / d + 1) * d
  {
  }

  /** The remainder left by a truncated quotient is below the divisor. */
  lemma FloorGap(q: int, d: int, n: int)
    requires q * d <= n < (q + 1) * d
    ensures 0 <= n - q * d < d
  {
  }
}
