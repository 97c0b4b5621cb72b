/** A fact about real arithmetic used by the score and percentage proofs. */
module Reals {

  /** Multiplying by a positive number keeps the sign. */
  lemma ScaledSign(x: real, d: real)
    requires d > 0.0
    ensures x * d > 0.0 <==> x > 0.0
    ensures x * d >= 0.0 <==> x >= 0.0
  {
    if x > 0.0 {
      assert x * d > 0.0 * d;
    } else if x < 0.0 {
      assert (-x) * d > 0.0;
    }
  }
}
