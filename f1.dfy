/**
 Precision, recall and F1 of a vector of 0/1 predictions against a vector of
 0/1 labels, computed the way `calculate_f1` computes them: the four
 confusion-matrix counts are sums of elementwise products, and every
 denominator carries a small epsilon so that no division is by zero.
 */
module F1Score {
  import Ratios

  /** The guard added to every denominator (1e-8). */
  const Epsilon: real := 0.00000001

  /** Every entry is a class index of the binary task. */
  predicate IsBinary(v: seq<int>) {
    forall i :: 0 <= i < |v| ==> v[i] == 0 || v[i] == 1
  }

  /** The tensor `1 - v`. */
  function Complement(v: seq<int>): (c: seq<int>)
    ensures |c| == |v|
  {
    seq(|v|, i requires 0 <= i < |v| => 1 - v[i])
  }

  /** The tensor expression `(a * b).sum()`. */
  function SumOfProducts(a: seq<int>, b: seq<int>): int
    requires |a| == |b|
  {
    if |a| == 0 then 0 else a[0] * b[0] + SumOfProducts(a[1..], b[1..])
  }

  /** Reference count: the positions i where a[i] == x and b[i] == y. */
  function CountPairs(a: seq<int>, b: seq<int>, x: int, y: int): (n: nat)
    requires |a| == |b|
    ensures n <= |a|
  {
    if |a| == 0 then 0
    else (if a[0] == x && b[0] == y then 1 else 0) + CountPairs(a[1..], b[1..], x, y)
  }

  /** Reference count: the positions i where v[i] == x. */
  function CountOf(v: seq<int>, x: int): (n: nat)
    ensures n <= |v|
  {
    if |v| == 0 then 0 else (if v[0] == x then 1 else 0) + CountOf(v[1..], x)
  }

  datatype Confusion = Confusion(tp: int, tn: int, fp: int, fn: int)

  /** The four counts exactly as the tensor code forms them. */
  function ConfusionOf(preds: seq<int>, labels: seq<int>): Confusion
    requires |preds| == |labels|
  {
    Confusion(
      SumOfProducts(preds, labels),
      SumOfProducts(Complement(preds), Complement(labels)),
      SumOfProducts(preds, Complement(labels)),
      SumOfProducts(Complement(preds), labels))
  }

  /**
   On 0/1 vectors the product sums are the confusion-matrix counts: each one
   counts the positions carrying its (prediction, label) pair, and together
   they cover every position exactly once.
   */
  lemma {:induction false} ConfusionCounts(preds: seq<int>, labels: seq<int>)
    requires |preds| == |labels| && IsBinary(preds) && IsBinary(labels)
    ensures ConfusionOf(preds, labels).tp == CountPairs(preds, labels, 1, 1)
    ensures ConfusionOf(preds, labels).tn == CountPairs(preds, labels, 0, 0)
    ensures ConfusionOf(preds, labels).fp == CountPairs(preds, labels, 1, 0)
    ensures ConfusionOf(preds, labels).fn == CountPairs(preds, labels, 0, 1)
    ensures CountPairs(preds, labels, 1, 1) + CountPairs(preds, labels, 1, 0) == CountOf(preds, 1)
    ensures CountPairs(preds, labels, 1, 1) + CountPairs(preds, labels, 0, 1) == CountOf(labels, 1)
    ensures var c := ConfusionOf(preds, labels); c.tp + c.tn + c.fp + c.fn == |preds|
  {
    if |preds| > 0 {
      ConfusionCounts(preds[1..], labels[1..]);
      assert Complement(preds)[1..] == Complement(preds[1..]);
      assert Complement(labels)[1..] == Complement(labels[1..]);
      assert Complement(preds)[0] == 1 - preds[0];
      assert Complement(labels)[0] == 1 - labels[0];
      if preds[0] == 0 {
        if labels[0] == 0 { } else { }
      } else {
        if labels[0] == 0 { } else { }
      }
    }
  }

  datatype Scores = Scores(precision: real, recall: real, f1: real)

  /** A count over a guarded denominator that exceeds it lies in [0, 1). */
  lemma QuotientBelowOne(a: real, b: real)
    requires 0.0 <= a < b
    ensures 0.0 <= a / b < 1.0
    ensures a > 0.0 ==> a / b > 0.0
  {
    var q := a / b;
    assert q * b == a;
  }

  /** The guarded harmonic mean `2 * (p * r) / (p + r + 1e-8)`. */
  function Harmonic(p: real, r: real): real
    requires p >= 0.0 && r >= 0.0
  {
    2.0 * (p * r) / (p + r + Epsilon)
  }

  /** The harmonic-mean step keeps precision and recall in [0, 1) inside [0, 1). */
  lemma HarmonicBelowOne(p: real, r: real)
    requires 0.0 <= p < 1.0 && 0.0 <= r < 1.0
    ensures 0.0 <= Harmonic(p, r) < 1.0
    ensures p > 0.0 && r > 0.0 ==> Harmonic(p, r) > 0.0
  {
    var pr := p * r;
    ProductBounds(p, r, pr);
    QuotientBelowOne(2.0 * pr, p + r + Epsilon);
  }

  /** The product of two numbers in [0, 1) is at most each of them, and positive when both are. */
  lemma ProductBounds(p: real, r: real, pr: real)
    requires 0.0 <= p < 1.0 && 0.0 <= r < 1.0 && pr == p * r
    ensures 0.0 <= pr <= p && pr <= r
    ensures p > 0.0 && r > 0.0 ==> pr > 0.0
  {
    ProductAtMost(p, r, pr);
    ProductAtMost(r, p, pr);
    if p > 0.0 && r > 0.0 {
      Ratios.ProductOfPositives(p, r);
    }
  }

  /** Scaling a non-negative number by a factor in [0, 1) does not increase it. */
  lemma ProductAtMost(a: real, b: real, ab: real)
    requires a >= 0.0 && 0.0 <= b < 1.0 && ab == a * b
    ensures 0.0 <= ab <= a
  {
    if a > 0.0 {
      Ratios.ProductOfPositives(a, 1.0 - b);
      assert a * (1.0 - b) == a - ab;
      if b > 0.0 {
        Ratios.ProductOfPositives(a, b);
      }
    }
  }

  /** Precision, recall and F1 from the four counts, with the 1e-8 guards. */
  function ScoresOf(c: Confusion): (s: Scores)
    requires c.tp >= 0 && c.fp >= 0 && c.fn >= 0
    ensures 0.0 <= s.precision < 1.0 && 0.0 <= s.recall < 1.0 && 0.0 <= s.f1 < 1.0
    ensures s.f1 == Harmonic(s.precision, s.recall)
    ensures c.tp == 0 <==> s.f1 == 0.0
    ensures c.tp == 0 ==> s.precision == 0.0 && s.recall == 0.0
    ensures c.fp == c.fn ==> s.precision == s.recall
  {
    var precision := c.tp as real / (c.tp as real + c.fp as real + Epsilon);
    var recall := c.tp as real / (c.tp as real + c.fn as real + Epsilon);
    QuotientBelowOne(c.tp as real, c.tp as real + c.fp as real + Epsilon);
    QuotientBelowOne(c.tp as real, c.tp as real + c.fn as real + Epsilon);
    HarmonicBelowOne(precision, recall);
    Scores(precision, recall, Harmonic(precision, recall))
  }

  /**
   `calculate_f1(preds, labels)`: precision is the true positives over the
   predicted positives, recall the true positives over the actual positives
   (each with the guard), and all three scores lie in [0, 1). They are all 0
   exactly when no position is a true positive, so in particular when every
   prediction is wrong; identical inputs give equal precision and recall.
   */
  function CalculateF1(preds: seq<int>, labels: seq<int>): (s: Scores)
    requires |preds| == |labels| && IsBinary(preds) && IsBinary(labels)
    ensures s.precision == CountPairs(preds, labels, 1, 1) as real / (CountOf(preds, 1) as real + Epsilon)
    ensures s.recall == CountPairs(preds, labels, 1, 1) as real / (CountOf(labels, 1) as real + Epsilon)
    ensures 0.0 <= s.precision < 1.0 && 0.0 <= s.recall < 1.0 && 0.0 <= s.f1 < 1.0
    ensures s.f1 == Harmonic(s.precision, s.recall)
    ensures s.f1 == 0.0 <==> CountPairs(preds, labels, 1, 1) == 0
    ensures CountPairs(preds, labels, 1, 1) == 0 ==> s.precision == 0.0 && s.recall == 0.0
    ensures preds == labels ==> s.precision == s.recall
  {
    ConfusionCounts(preds, labels);
    SamePairsHaveNoErrors(preds);
    ScoresOf(ConfusionOf(preds, labels))
  }

  /** Identical vectors have no false positive and no false negative. */
  lemma {:induction false} SamePairsHaveNoErrors(v: seq<int>)
    ensures CountPairs(v, v, 1, 0) == 0 && CountPairs(v, v, 0, 1) == 0
  {
    if |v| > 0 {
      SamePairsHaveNoErrors(v[1..]);
    }
  }

  /** Every prediction wrong (for example, predictions the complement of the labels) gives F1 = 0. */
  lemma {:induction false} AllWrongGivesZero(preds: seq<int>, labels: seq<int>)
    requires |preds| == |labels| && IsBinary(preds) && IsBinary(labels)
    requires forall i :: 0 <= i < |preds| ==> preds[i] != labels[i]
    ensures CalculateF1(preds, labels) == Scores(0.0, 0.0, 0.0)
  {
    NoMatchNoTruePositive(preds, labels);
  }

  lemma {:induction false} NoMatchNoTruePositive(a: seq<int>, b: seq<int>)
    requires |a| == |b|
    requires forall i :: 0 <= i < |a| ==> a[i] != b[i]
    ensures CountPairs(a, b, 1, 1) == 0
  {
    if |a| > 0 {
      NoMatchNoTruePositive(a[1..], b[1..]);
    }
  }
}
