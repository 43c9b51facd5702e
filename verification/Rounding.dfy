/**
  Share rounding. Sizes and prices are exact rationals, modelled as `real`; a
  share order is rounded up to one hundredth of a share.
 */
module Rounding {
  import opened Amounts

  /** Rounds up to the next multiple of 0.01. */
  function RoundSharesUp(shares: real): (r: real)
    ensures shares <= r < shares + 0.01
    ensures IsCents(r)
    ensures shares >= 0.0 ==> r >= 0.0
  {
    var cents := -(-(shares * 100.0)).Floor;
    Cents(cents)
  }

  function Cents(k: int): real {
    k as real / 100.0
  }

  ghost predicate IsCents(x: real) {
    exists k: int :: x == Cents(k)
  }

  /** Nothing smaller than RoundSharesUp is both in whole cents and large enough. */
  lemma RoundSharesUpIsLeast(shares: real, other: real)
    requires IsCents(other) && shares <= other
    ensures RoundSharesUp(shares) <= other
  {
    var k: int :| other == Cents(k);
    var cents := -(-(shares * 100.0)).Floor;
    assert cents as real < shares * 100.0 + 1.0;
    assert cents < k + 1;
  }

  lemma RoundSharesUpMonotone(a: real, b: real)
    requires a <= b
    ensures RoundSharesUp(a) <= RoundSharesUp(b)
  {
    RoundSharesUpIsLeast(a, RoundSharesUp(b));
  }

  /** The whole hedge for `filled` contracts, rounded up once. */
  function SharesFor(ratio: real, filled: real): (r: real)
    ensures filled >= 0.0 && ratio >= 0.0 ==> r >= 0.0
  {
    RoundSharesUp(ratio * filled)
  }

  /** `shares` is ratio times filled, rounded up once to the hundredth. */
  ghost predicate RoundsOnce(shares: real, ratio: real, filled: real) {
    && shares == RoundSharesUp(ratio * filled)
    && 0.0 <= shares - ratio * filled < 0.01
  }

  lemma SharesForRoundsOnce(ratio: real, filled: real)
    ensures RoundsOnce(SharesFor(ratio, filled), ratio, filled)
  {
    var exact := ratio * filled;
    assert exact <= RoundSharesUp(exact) < exact + 0.01;
  }

  lemma SharesForNothing(ratio: real)
    ensures SharesFor(ratio, 0.0) == 0.0
  {}

  /** The shares one further fill adds to a batch: the difference of two cumulative roundings. */
  function IncrementalHedgeShares(ratio: real, filled: real, additional: real): real {
    SharesFor(ratio, filled + additional) - SharesFor(ratio, filled)
  }

  lemma SharesForGrow(ratio: real, less: real, more: real)
    requires ratio >= 0.0 && less <= more
    ensures SharesFor(ratio, less) <= SharesFor(ratio, more)
  {
    TimesGrows(less, more, ratio);
    TimesIsSymmetric(less, ratio);
    TimesIsSymmetric(more, ratio);
    RoundSharesUpMonotone(Times(ratio, less), Times(ratio, more));
  }

  lemma IncrementalIsNonNegative(ratio: real, filled: real, additional: real)
    requires ratio >= 0.0 && additional >= 0.0
    ensures IncrementalHedgeShares(ratio, filled, additional) >= 0.0
  {
    SharesForGrow(ratio, filled, filled + additional);
  }
}
