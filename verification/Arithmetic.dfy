/** The one fact about products that the linear reasoning elsewhere needs. */
module Arithmetic {
  lemma MulMonotonic(d: nat, a: int, b: int)
    requires a <= b
    ensures d * a <= d * b
  {
  }
}
