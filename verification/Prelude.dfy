/** Small value types and arithmetic facts shared by every component of the model. */
module Prelude {
  /** A nullable SQL column, an absent dictionary entry or a Python `None`. */
  datatype Option<+T> = None | Some(value: T)

  lemma MulKeepsOrder(a: int, b: int, d: nat)
    ensures a <= b ==> a * d <= b * d
  {
    if a <= b {
      var k := b - a;
      assert k * d >= 0;
      assert b * d == a * d + k * d;
    }
  }

  lemma QuotientBound(n: int, d: int, span: int)
    requires 0 < d && n * d <= span
    ensures n <= span / d
  {
    var q := span / d;
    assert span < q * d + d;
    assert (q + 1) * d == q * d + d;
    MulKeepsOrder(q + 1, n, d);
  }
}
