/**
 * The percentage discount strategy. It is built from a percentage on the
 * 0-100 scale, keeps it as a fraction, and maps a total t to t - t * fraction.
 * Percentages outside 0..100 are accepted as they are.
 * Arithmetic is exact (real); floating-point rounding is not modelled.
 */
module Discounts {

  datatype PercentageDiscount = PercentageDiscount(fraction: real)
  {
    /** The discounted total. */
    function ApplyDiscount(total: real): (r: real)
      ensures r == total * (1.0 - fraction)
      ensures fraction == 0.0 ==> r == total
    {
      total - total * fraction
    }
  }

  /** Builds the strategy from a percentage given on the 0-100 scale. */
  function NewPercentageDiscount(percentage: real): (d: PercentageDiscount)
    ensures d.fraction * 100.0 == percentage
  {
    PercentageDiscount(percentage / 100.0)
  }

  /** A discount of p percent scales a total by (1 - p/100). */
  lemma ApplyPercentage(p: real, total: real)
    ensures NewPercentageDiscount(p).ApplyDiscount(total) == total * (100.0 - p) / 100.0
  {
  }

  /** A zero percent discount leaves every total unchanged. */
  lemma ZeroPercentIsIdentity(total: real)
    ensures NewPercentageDiscount(0.0).ApplyDiscount(total) == total
  {
  }

  /** Ten percent off a total of 100 is 90. */
  lemma TenPercentOfHundred()
    ensures NewPercentageDiscount(10.0).ApplyDiscount(100.0) == 90.0
  {
  }

  /** No clamping: a percentage above 100 turns a positive total negative,
      a negative percentage raises it, and for 0..100 the result stays
      between 0 and the total. */
  lemma UnclampedPercentages(p: real, total: real)
    requires total > 0.0
    ensures p > 100.0 ==> NewPercentageDiscount(p).ApplyDiscount(total) < 0.0
    ensures p < 0.0 ==> NewPercentageDiscount(p).ApplyDiscount(total) > total
    ensures 0.0 <= p <= 100.0 ==> 0.0 <= NewPercentageDiscount(p).ApplyDiscount(total) <= total
  {
  }
}
