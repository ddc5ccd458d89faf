/**
 Percentages of correct predictions, as the training and evaluation code
 forms them from a count of correct samples and a count of all samples.
 */
module Ratios {

  /** `100 * correct / total`; the caller has checked that total is not zero. */
  function Percent(correct: nat, total: nat): (p: real)
    requires total > 0
    ensures p >= 0.0
    ensures correct <= total ==> p <= 100.0
    ensures p == 0.0 <==> correct == 0
    ensures p == 100.0 <==> correct == total
  {
    FractionBounds(correct as real, total as real);
    100.0 * (correct as real / total as real)
  }

  /** A quotient of a non-negative by a positive real is at most 1 exactly when the numerator is at most the denominator. */
  lemma FractionBounds(a: real, b: real)
    requires a >= 0.0 && b > 0.0
    ensures a / b >= 0.0
    ensures a / b <= 1.0 <==> a <= b
    ensures a / b == 0.0 <==> a == 0.0
    ensures a / b == 1.0 <==> a == b
  {
    var q := a / b;
    assert q * b == a;
  }

  lemma ProductOfPositives(a: real, b: real)
    requires a > 0.0 && b > 0.0
    ensures a * b > 0.0
  {
  }

  /** A sum between n * lo and n * hi, divided by n, lies between lo and hi. */
  lemma QuotientBetween(sum: real, n: real, lo: real, hi: real)
    requires n > 0.0 && n * lo <= sum <= n * hi
    ensures lo <= sum / n <= hi
  {
    var m := sum / n;
    assert m * n == sum;
    if m < lo {
      ProductOfPositives(lo - m, n);
    }
    if m > hi {
      ProductOfPositives(m - hi, n);
    }
  }
}
