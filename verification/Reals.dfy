/** Small facts about real products and quotients, stated one at a time. */
module Reals {
  import opened Wrappers

  lemma ProductPositive(a: real, b: real)
    requires a > 0.0 && b > 0.0
    ensures a * b > 0.0
  {
  }

  lemma ProductNonNegative(a: real, b: real)
    requires a >= 0.0 && b >= 0.0
    ensures a * b >= 0.0
  {
  }

  lemma ScaleByPositive(c: real, x: real, y: real)
    requires c > 0.0
    ensures c * x >= c * y <==> x >= y
  {
  }

  lemma DivideBack(x: real, y: real, d: pos)
    requires x * d == y
    ensures x == y / d
  {
  }

  lemma DivideBelow(x: real, y: real, d: pos)
    requires x <= y * d
    ensures x / d <= y
  {
    ScaleByPositive(d, y, x / d);
  }

  lemma DivideStrictlyBelow(x: real, y: real, d: pos)
    requires x < y * d
    ensures x / d < y
  {
    ScaleByPositive(d, x / d, y);
    assert x / d * d == x;
  }

  lemma QuotientNonNegative(x: real, d: pos)
    requires x >= 0.0
    ensures x / d >= 0.0
    ensures x > 0.0 ==> x / d > 0.0
  {
  }

  lemma QuotientsAdd(x: real, y: real, d: pos)
    ensures x / d + y / d == (x + y) / d
  {
    assert (x / d + y / d) * d == x + y;
    DivideBack(x / d + y / d, x + y, d);
  }
}
