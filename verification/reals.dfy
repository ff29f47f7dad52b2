/**
 * The one fact about real multiplication the percentage and share bounds
 * need, stated once so that the solver does not have to rediscover it.
 */
module Reals {
  /** A factor of a product with a positive other factor has the product's sign. */
  lemma SignOfFactor(x: real, w: real)
    requires w > 0.0
    ensures x * w >= 0.0 ==> x >= 0.0
    ensures x * w == 0.0 ==> x == 0.0
  {
  }
}
