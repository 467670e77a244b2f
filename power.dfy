/** The real power function written `b ** e` in the valuation code.
    Dafny has no real exponentiation, so the model never evaluates a power:
    every agent carries the power function it uses, and only the laws below
    are known about it. They hold of the real power function on the
    non-negative bases the valuation code applies it to. */
module Power {

  /** Laws of `b ** e` used in the proofs. */
  ghost predicate PowLaws(pow: (real, real) -> real) {
    && (forall e :: e > 0.0 ==> pow(0.0, e) == 0.0)
    && (forall e :: pow(1.0, e) == 1.0)
    && (forall b, e :: b >= 0.0 ==> pow(b, e) >= 0.0)
    && (forall b, e :: b > 0.0 ==> pow(b, e) > 0.0)
  }
}
