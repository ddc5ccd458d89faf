/**
 Held-out evaluation (`evaluate_model`). For every batch the classifier is
 run on the layouts generated from `num_z_samples` independent noise draws;
 its raw two-class logits are summed into a buffer, divided by the number of
 draws, and the predicted class is the arg-max of the averaged logits.
 Accuracy is the percentage of correct predictions over the whole loader and
 F1 the mean over batches of each batch's F1.

 The generator, the renderer and the classifier are opaque: a batch is given
 here by the classifier outputs of its noise draws and by its labels.
 */
module Evaluation {
  import F1Score
  import Ratios

  datatype Option<T> = None | Some(value: T)

  /** One row of classifier output: the logits of class 0 and class 1. */
  datatype Logits = Logits(c0: real, c1: real)

  const ZeroLogits := Logits(0.0, 0.0)

  function AddLogits(a: Logits, b: Logits): Logits {
    Logits(a.c0 + b.c0, a.c1 + b.c1)
  }

  function DivideLogits(a: Logits, k: real): Logits
    requires k != 0.0
  {
    Logits(a.c0 / k, a.c1 / k)
  }

  /** The index `torch.max(row, 1)` picks: class 1 only when its logit is strictly larger. */
  function Argmax(l: Logits): int {
    if l.c1 > l.c0 then 1 else 0
  }

  /** The predicted class of every row. */
  function Predict(rows: seq<Logits>): (p: seq<int>)
    ensures |p| == |rows| && F1Score.IsBinary(p)
  {
    seq(|rows|, i requires 0 <= i < |rows| => Argmax(rows[i]))
  }

  /**
   `torch.max(row, 1)` returns the index of a maximal logit, and of the first
   one when several are maximal: every logit is at most the chosen one, and
   every logit before it is strictly smaller.
   */
  lemma ArgmaxPicksLargest(l: Logits)
    ensures var v := [l.c0, l.c1];
      && 0 <= Argmax(l) < 2
      && (forall j :: 0 <= j < 2 ==> v[j] <= v[Argmax(l)])
      && (forall j :: 0 <= j < Argmax(l) ==> v[j] < v[Argmax(l)])
  {
    var v := [l.c0, l.c1];
    assert v[0] == l.c0 && v[1] == l.c1;
  }

  /** Dividing both logits by the same positive number does not change the arg-max. */
  lemma DividingKeepsArgmax(l: Logits, k: real)
    requires k > 0.0
    ensures Argmax(DivideLogits(l, k)) == Argmax(l)
  {
    var a, b := l.c0 / k, l.c1 / k;
    assert a * k == l.c0 && b * k == l.c1;
    if l.c1 > l.c0 {
      DivisionIsMonotone(l.c0, l.c1, k);
    } else {
      DivisionIsMonotone(l.c1, l.c0, k);
    }
  }

  lemma DivisionIsMonotone(x: real, y: real, k: real)
    requires k > 0.0 && x <= y
    ensures x / k <= y / k
    ensures x < y ==> x / k < y / k
  {
    var d := y / k - x / k;
    assert d * k == y - x;
  }

  /** `a + b` on two batches of logits of the same size. */
  function AddRows(a: seq<Logits>, b: seq<Logits>): (r: seq<Logits>)
    requires |a| == |b|
    ensures |r| == |a|
  {
    seq(|a|, i requires 0 <= i < |a| => AddLogits(a[i], b[i]))
  }

  /** `rows / k`. */
  function DivideRows(rows: seq<Logits>, k: real): (r: seq<Logits>)
    requires k != 0.0
    ensures |r| == |rows|
  {
    seq(|rows|, i requires 0 <= i < |rows| => DivideLogits(rows[i], k))
  }

  /** Every draw has one row of logits per graph of the batch. */
  predicate SameRows(samples: seq<seq<Logits>>, b: nat) {
    forall s :: 0 <= s < |samples| ==> |samples[s]| == b
  }

  /** The logits of the draws summed row by row, starting from zeros. */
  function SumSamples(samples: seq<seq<Logits>>, b: nat): (sum: seq<Logits>)
    requires SameRows(samples, b)
    ensures |sum| == b
  {
    if |samples| == 0 then seq(b, _ => ZeroLogits)
    else AddRows(SumSamples(samples[..|samples| - 1], b), samples[|samples| - 1])
  }

  /** The averaged logits: the sum divided by the number of draws. */
  function MeanLogits(samples: seq<seq<Logits>>, b: nat, numZ: nat): (mean: seq<Logits>)
    requires SameRows(samples, b) && numZ > 0
    ensures |mean| == b
  {
    DivideRows(SumSamples(samples, b), numZ as real)
  }

  /** Averaging instead of summing never changes a prediction. */
  lemma AveragingKeepsPredictions(samples: seq<seq<Logits>>, b: nat, numZ: nat)
    requires SameRows(samples, b) && numZ > 0
    ensures Predict(MeanLogits(samples, b, numZ)) == Predict(SumSamples(samples, b))
  {
    var sum := SumSamples(samples, b);
    forall i | 0 <= i < b
      ensures Argmax(DivideLogits(sum[i], numZ as real)) == Argmax(sum[i])
    {
      DividingKeepsArgmax(sum[i], numZ as real);
    }
  }

  /** With a single draw the averaged logits are that draw's logits. */
  lemma SingleDrawIsDirect(outputs: seq<Logits>)
    ensures SameRows([outputs], |outputs|)
    ensures MeanLogits([outputs], |outputs|, 1) == outputs
  {
    assert [outputs][..0] == [];
    var zeros := SumSamples([], |outputs|);
    assert forall i :: 0 <= i < |outputs| ==> zeros[i] == ZeroLogits;
  }

  /**
   The averaging loop of one batch. `accum` is the `accum_logits` buffer:
   zeroed, each draw's outputs added into it in place, then divided in place
   by the number of draws.
   */
  method AverageLogits(samples: seq<seq<Logits>>, b: nat, numZ: nat) returns (accum: array<Logits>)
    requires numZ > 0 && |samples| == numZ && SameRows(samples, b)
    ensures accum.Length == b
    ensures accum[..] == MeanLogits(samples, b, numZ)
  {
    accum := new Logits[b](_ => ZeroLogits);
    var s := 0;
    while s < |samples|
      invariant 0 <= s <= |samples|
      invariant accum.Length == b
      invariant accum[..] == SumSamples(samples[..s], b)
    {
      ghost var before := accum[..];
      var outputs := samples[s];
      forall r | 0 <= r < b {
        accum[r] := AddLogits(accum[r], outputs[r]);
      }
      assert samples[..s + 1][..s] == samples[..s];
      assert accum[..] == AddRows(before, outputs);
      s := s + 1;
    }
    assert samples[..s] == samples;
    ghost var sum := accum[..];
    forall r | 0 <= r < b {
      accum[r] := DivideLogits(accum[r], numZ as real);
    }
    assert accum[..] == DivideRows(sum, numZ as real);
  }

  /**
   `(predicted == labels).sum()`: never more than the labels, and all of them
   exactly when every prediction is right.
   */
  function CountCorrect(predicted: seq<int>, labels: seq<int>): (n: nat)
    requires |predicted| == |labels|
    ensures n <= |labels|
    ensures n == |labels| <==> predicted == labels
  {
    if |labels| == 0 then 0
    else
      var k := |labels| - 1;
      var hit := if predicted[k] == labels[k] then 1 else 0;
      var rest := CountCorrect(predicted[..k], labels[..k]);
      assert predicted == labels <==> predicted[..k] == labels[..k] && predicted[k] == labels[k] by {
        if predicted[..k] == labels[..k] && predicted[k] == labels[k] {
          assert predicted == predicted[..k] + [predicted[k]];
          assert labels == labels[..k] + [labels[k]];
        }
      }
      rest + hit
  }

  /** One evaluation batch: the classifier outputs of every noise draw, and the labels. */
  datatype EvalBatch = EvalBatch(samples: seq<seq<Logits>>, labels: seq<int>)

  /** The shape the generator and classifier guarantee, and binary labels. */
  predicate WellShaped(batch: EvalBatch, numZ: nat) {
    && |batch.samples| == numZ
    && SameRows(batch.samples, |batch.labels|)
    && F1Score.IsBinary(batch.labels)
  }

  predicate WellShapedLoader(loader: seq<EvalBatch>, numZ: nat) {
    forall i :: 0 <= i < |loader| ==> WellShaped(loader[i], numZ)
  }

  /** The batch's predicted classes: the arg-max of the averaged logits. */
  function BatchPredictions(batch: EvalBatch, numZ: nat): (p: seq<int>)
    requires numZ > 0 && WellShaped(batch, numZ)
    ensures |p| == |batch.labels| && F1Score.IsBinary(p)
  {
    Predict(MeanLogits(batch.samples, |batch.labels|, numZ))
  }

  /** The number of labels in the loader. */
  function LoaderTotal(loader: seq<EvalBatch>): (n: nat)
    ensures n > 0 ==> |loader| > 0
  {
    if |loader| == 0 then 0 else LoaderTotal(loader[..|loader| - 1]) + |loader[|loader| - 1].labels|
  }

  /** The number of correct predictions in the loader; never more than the labels. */
  function LoaderCorrect(loader: seq<EvalBatch>, numZ: nat): (n: nat)
    requires numZ > 0 && WellShapedLoader(loader, numZ)
    ensures n <= LoaderTotal(loader)
  {
    if |loader| == 0 then 0
    else
      var last := loader[|loader| - 1];
      LoaderCorrect(loader[..|loader| - 1], numZ) + CountCorrect(BatchPredictions(last, numZ), last.labels)
  }

  /** The sum of the batches' F1 scores; each lies in [0, 1), so the sum lies in [0, |loader|). */
  function LoaderF1(loader: seq<EvalBatch>, numZ: nat): (total: real)
    requires numZ > 0 && WellShapedLoader(loader, numZ)
    ensures 0.0 <= total
    ensures |loader| > 0 ==> total < |loader| as real
  {
    if |loader| == 0 then 0.0
    else
      var last := loader[|loader| - 1];
      LoaderF1(loader[..|loader| - 1], numZ) + F1Score.CalculateF1(BatchPredictions(last, numZ), last.labels).f1
  }

  datatype EvalResult = EvalResult(accuracy: real, f1: real)

  /**
   What `evaluate_model` returns: `100 * correct / total` and the mean batch
   F1. A loader without labels makes the division fail (`None`); otherwise the
   accuracy lies in [0, 100] and the F1 in [0, 1).
   */
  function Evaluate(loader: seq<EvalBatch>, numZ: nat): (r: Option<EvalResult>)
    requires numZ > 0 && WellShapedLoader(loader, numZ)
    ensures r.None? <==> LoaderTotal(loader) == 0
    ensures r.Some? ==> 0.0 <= r.value.accuracy <= 100.0 && 0.0 <= r.value.f1 < 1.0
  {
    var total := LoaderTotal(loader);
    if total == 0 then None
    else
      var f1 := LoaderF1(loader, numZ);
      Ratios.FractionBounds(f1, |loader| as real);
      Some(EvalResult(Ratios.Percent(LoaderCorrect(loader, numZ), total), f1 / |loader| as real))
  }

  /** `evaluate_model(generator, classifier, loader, device, num_z_samples)`. */
  method EvaluateModel(loader: seq<EvalBatch>, numZ: nat) returns (r: Option<EvalResult>)
    requires numZ > 0 && WellShapedLoader(loader, numZ)
    ensures r == Evaluate(loader, numZ)
  {
    var correct: nat := 0;
    var total: nat := 0;
    var totalF1: real := 0.0;
    var i := 0;
    while i < |loader|
      invariant 0 <= i <= |loader|
      invariant total == LoaderTotal(loader[..i])
      invariant correct == LoaderCorrect(loader[..i], numZ)
      invariant totalF1 == LoaderF1(loader[..i], numZ)
    {
      var batch := loader[i];
      var accum := AverageLogits(batch.samples, |batch.labels|, numZ);
      var predicted := Predict(accum[..]);
      total := total + |batch.labels|;
      correct := correct + CountCorrect(predicted, batch.labels);
      var scores := F1Score.CalculateF1(predicted, batch.labels);
      totalF1 := totalF1 + scores.f1;
      assert loader[..i + 1][..i] == loader[..i];
      i := i + 1;
    }
    assert loader[..i] == loader;
    if total == 0 {
      r := None;
    } else {
      r := Some(EvalResult(Ratios.Percent(correct, total), totalF1 / |loader| as real));
    }
  }
}
