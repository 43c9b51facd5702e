/**
  Amounts of shares and money: exact rationals, modelled as `real`. Products are
  named, and the few facts about them that proofs need are lemmas of their own.
 */
module Amounts {

  function Max(a: real, b: real): real { if a >= b then a else b }

  function Min(a: real, b: real): real { if a <= b then a else b }

  function Times(shares: real, price: real): real { shares * price }

  lemma ProductNotNegative(x: real, y: real)
    requires x >= 0.0 && y >= 0.0
    ensures x * y >= 0.0
  {}

  lemma TimesGrows(a: real, b: real, price: real)
    requires a <= b && price >= 0.0
    ensures Times(a, price) <= Times(b, price)
  {
    ProductNotNegative(b - a, price);
    assert (b - a) * price == b * price - a * price;
  }

  lemma TimesDistributes(shares: real, a: real, b: real)
    ensures Times(shares, a - b) == Times(shares, a) - Times(shares, b)
  {}

  lemma TimesAdds(a: real, b: real, price: real)
    ensures Times(a + b, price) == Times(a, price) + Times(b, price)
  {}

  lemma TimesNothing(x: real)
    ensures Times(x, 0.0) == 0.0 && Times(0.0, x) == 0.0
  {}

  lemma TimesIsSymmetric(a: real, b: real)
    ensures Times(a, b) == Times(b, a)
  {}

  lemma QuotientGrows(a: real, b: real, divisor: real)
    requires a <= b && divisor > 0.0
    ensures a / divisor <= b / divisor
  {
    var share := 1.0 / divisor;
    assert share > 0.0;
    TimesGrows(a, b, share);
    assert a / divisor == Times(a, share) && b / divisor == Times(b, share);
  }
}
