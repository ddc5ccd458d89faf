/**
 The combined training loop (`train_combined_cgan`). The untrained model is
 first evaluated on the train, validation and test loaders and logged as
 epoch 0. Every epoch then walks the train loader; on each batch the critic,
 the generator and the classifier each take one optimizer step, in that
 order, and the training accuracy and F1 are accumulated from the classifier
 outputs of the batch. After the batch loop the validation and test loaders
 are evaluated, the schedulers step, one row is logged, and the early-stopping
 monitor on the validation accuracy decides whether to save the checkpoint and
 whether to leave the loop.

 The networks, the renderer, the losses and the optimizers are opaque: a
 batch is given by the loss values they produce for it and by the classifier
 outputs of its last noise draw, and an evaluation loader by the classifier
 outputs of its draws (see the Evaluation module).
 */
module CombinedTraining {
  import F1Score
  import Ratios
  import EarlyStopping
  import Evaluation

  type Option<T> = Evaluation.Option<T>

  /** `evaluate_model`'s default number of noise draws; the loop never passes its own. */
  const EvalDraws: nat := 5

  /** The networks whose optimizers step on every batch. */
  datatype Network = Critic | Generator | Classifier

  /** The order of the three optimizer steps within one batch. */
  const UpdateOrder: seq<Network> := [Critic, Generator, Classifier]

  /**
   One training batch: the critic loss (gradient penalty included), the
   generator's adversarial loss and the classifier loss of every noise draw,
   the classifier outputs of the last draw, and the labels.
   */
  datatype CombinedBatch = CombinedBatch(
    dLoss: real,
    advLosses: seq<real>,
    clfLosses: seq<real>,
    lastOutputs: seq<Evaluation.Logits>,
    labels: seq<int>)

  /** One loss per noise draw, one output row per label, binary labels. */
  predicate WellShapedBatch(b: CombinedBatch, numZ: nat) {
    && |b.advLosses| == numZ
    && |b.clfLosses| == numZ
    && |b.lastOutputs| == |b.labels|
    && F1Score.IsBinary(b.labels)
  }

  function Sum(xs: seq<real>): real {
    if |xs| == 0 then 0.0 else Sum(xs[..|xs| - 1]) + xs[|xs| - 1]
  }

  /** `torch.mean(torch.stack(xs))`. */
  function Mean(xs: seq<real>): real
    requires |xs| > 0
  {
    Sum(xs) / |xs| as real
  }

  lemma {:induction false} SumBetween(xs: seq<real>, lo: real, hi: real)
    requires forall i :: 0 <= i < |xs| ==> lo <= xs[i] <= hi
    ensures |xs| as real * lo <= Sum(xs) <= |xs| as real * hi
  {
    if |xs| > 0 {
      var n := |xs| - 1;
      SumBetween(xs[..n], lo, hi);
      assert (n + 1) as real * lo == n as real * lo + lo;
      assert (n + 1) as real * hi == n as real * hi + hi;
    }
  }

  /** The mean of the draws' losses lies between their smallest and largest. */
  lemma MeanBetween(xs: seq<real>, lo: real, hi: real)
    requires |xs| > 0
    requires forall i :: 0 <= i < |xs| ==> lo <= xs[i] <= hi
    ensures lo <= Mean(xs) <= hi
  {
    SumBetween(xs, lo, hi);
    Ratios.QuotientBetween(Sum(xs), |xs| as real, lo, hi);
  }

  /** `g_loss = mean_adv_loss + alpha * mean_clf_loss`. */
  function GeneratorLoss(b: CombinedBatch, alpha: real): real
    requires |b.advLosses| > 0 && |b.clfLosses| > 0
  {
    Mean(b.advLosses) + alpha * Mean(b.clfLosses)
  }

  /** With a single noise draw the losses are that draw's losses. */
  lemma SingleDrawLosses(b: CombinedBatch, alpha: real)
    requires |b.advLosses| == 1 && |b.clfLosses| == 1
    ensures GeneratorLoss(b, alpha) == b.advLosses[0] + alpha * b.clfLosses[0]
    ensures Mean(b.clfLosses) == b.clfLosses[0]
  {
    assert b.advLosses[..0] == [] && b.clfLosses[..0] == [];
    assert Sum(b.advLosses) == b.advLosses[0];
    assert Sum(b.clfLosses) == b.clfLosses[0];
  }

  /**
   The per-epoch training accumulators: the summed losses, the correct and
   total training predictions, the summed batch F1, and the optimizer steps in
   the order they were taken.
   */
  datatype TrainTotals = TrainTotals(
    g: real,
    d: real,
    c: real,
    correct: nat,
    total: nat,
    f1: real,
    steps: seq<Network>)

  const NoTrainTotals := TrainTotals(0.0, 0.0, 0.0, 0, 0, 0.0, [])

  /** The training predictions of a batch: the arg-max of its last draw's outputs. */
  function TrainPredictions(b: CombinedBatch): (p: seq<int>)
    ensures |p| == |b.lastOutputs| && F1Score.IsBinary(p)
  {
    Evaluation.Predict(b.lastOutputs)
  }

  predicate WellShapedBatches(batches: seq<CombinedBatch>, numZ: nat) {
    forall i :: 0 <= i < |batches| ==> WellShapedBatch(batches[i], numZ)
  }

  /** `(predicted_train == labels).sum()` for one batch. */
  function BatchCorrect(b: CombinedBatch): (n: nat)
    requires |b.lastOutputs| == |b.labels|
    ensures n <= |b.labels|
  {
    Evaluation.CountCorrect(TrainPredictions(b), b.labels)
  }

  /** The F1 score `calculate_f1` gives one batch's training predictions; it lies in [0, 1). */
  function BatchF1(b: CombinedBatch): (f1: real)
    requires |b.lastOutputs| == |b.labels| && F1Score.IsBinary(b.labels)
    ensures 0.0 <= f1 < 1.0
  {
    F1Score.CalculateF1(TrainPredictions(b), b.labels).f1
  }

  /** The accumulators after one more batch. */
  function TrainBatchUpdate(t: TrainTotals, b: CombinedBatch, numZ: nat, alpha: real): TrainTotals
    requires numZ > 0 && WellShapedBatch(b, numZ)
  {
    TrainTotals(
      t.g + GeneratorLoss(b, alpha),
      t.d + b.dLoss,
      t.c + Mean(b.clfLosses),
      t.correct + BatchCorrect(b),
      t.total + |b.labels|,
      t.f1 + BatchF1(b),
      t.steps + UpdateOrder)
  }

  /**
   The accumulators after the batches of one epoch: never more correct
   predictions than labels, a summed F1 in [0, number of batches), and per
   batch the critic, the generator and the classifier step in that order.
   */
  function TrainTotalsOf(batches: seq<CombinedBatch>, numZ: nat, alpha: real): (t: TrainTotals)
    requires numZ > 0 && WellShapedBatches(batches, numZ)
    ensures t.correct <= t.total
    ensures 0.0 <= t.f1 && (|batches| > 0 ==> t.f1 < |batches| as real)
    ensures |t.steps| == 3 * |batches|
    ensures forall i :: 0 <= i < |t.steps| ==> t.steps[i] == UpdateOrder[i % 3]
  {
    if |batches| == 0 then NoTrainTotals
    else
      var prev := TrainTotalsOf(batches[..|batches| - 1], numZ, alpha);
      StepsInOrder(prev.steps, |batches| - 1);
      TrainBatchUpdate(prev, batches[|batches| - 1], numZ, alpha)
  }

  /** The accumulators over one more batch are one more update. */
  lemma TrainTotalsOneMore(batches: seq<CombinedBatch>, numZ: nat, alpha: real, i: nat)
    requires numZ > 0 && WellShapedBatches(batches, numZ)
    requires i < |batches|
    ensures WellShapedBatches(batches[..i], numZ) && WellShapedBatches(batches[..i + 1], numZ)
    ensures TrainTotalsOf(batches[..i + 1], numZ, alpha)
      == TrainBatchUpdate(TrainTotalsOf(batches[..i], numZ, alpha), batches[i], numZ, alpha)
  {
    assert forall j :: 0 <= j < i + 1 ==> batches[..i + 1][j] == batches[j];
    assert batches[..i + 1][..i] == batches[..i];
  }

  /** Appending one batch's three steps to k batches' steps keeps them in the update order. */
  lemma StepsInOrder(steps: seq<Network>, k: nat)
    requires |steps| == 3 * k
    requires forall i :: 0 <= i < |steps| ==> steps[i] == UpdateOrder[i % 3]
    ensures forall i :: 0 <= i < |steps + UpdateOrder| ==> (steps + UpdateOrder)[i] == UpdateOrder[i % 3]
  {
    forall i | 3 * k <= i < 3 * k + 3
      ensures (steps + UpdateOrder)[i] == UpdateOrder[i % 3]
    {
      assert i % 3 == i - 3 * k;
    }
  }

  /** The training batch loop of one epoch. */
  method RunCombinedEpoch(batches: seq<CombinedBatch>, numZ: nat, alpha: real) returns (t: TrainTotals)
    requires numZ > 0 && WellShapedBatches(batches, numZ)
    ensures t == TrainTotalsOf(batches, numZ, alpha)
  {
    t := NoTrainTotals;
    var i := 0;
    while i < |batches|
      invariant 0 <= i <= |batches|
      invariant t == TrainTotalsOf(batches[..i], numZ, alpha)
    {
      TrainTotalsOneMore(batches, numZ, alpha, i);
      t := TrainBatch(t, batches[i], numZ, alpha);
      i := i + 1;
    }
    assert batches[..i] == batches;
  }

  /**
   The body of the batch loop: the critic step, then the generator step on
   the mean of the draws' losses, then the classifier step, then the
   training accuracy and F1 of the batch.
   */
  method TrainBatch(t0: TrainTotals, b: CombinedBatch, numZ: nat, alpha: real) returns (t: TrainTotals)
    requires numZ > 0 && WellShapedBatch(b, numZ)
    ensures t == TrainBatchUpdate(t0, b, numZ, alpha)
  {
    t := t0.(d := t0.d + b.dLoss, steps := t0.steps + [Critic]);
    var meanClf := Mean(b.clfLosses);
    t := t.(g := t.g + GeneratorLoss(b, alpha), steps := t.steps + [Generator]);
    t := t.(c := t.c + meanClf, steps := t.steps + [Classifier]);
    t := t.(correct := t.correct + BatchCorrect(b), total := t.total + |b.labels|, f1 := t.f1 + BatchF1(b));
  }

  /** The three losses of a logged epoch; the epoch-0 row has none. */
  datatype Losses = Losses(g: real, d: real, c: real)

  /** One row of the metrics log (and of `metrics_combined_train.csv`). */
  datatype CombinedRow = CombinedRow(
    epoch: nat,
    losses: Option<Losses>,
    trainAccuracy: real,
    trainF1: real,
    valAccuracy: real,
    valF1: real,
    testAccuracy: real,
    testF1: real)

  /** Every accuracy of the row lies in [0, 100] and every F1 in [0, 1). */
  predicate RowInRange(r: CombinedRow) {
    && 0.0 <= r.trainAccuracy <= 100.0 && 0.0 <= r.trainF1 < 1.0
    && 0.0 <= r.valAccuracy <= 100.0 && 0.0 <= r.valF1 < 1.0
    && 0.0 <= r.testAccuracy <= 100.0 && 0.0 <= r.testF1 < 1.0
  }

  /** What `best_model.pth` records besides the weights: the 0-based epoch and two accuracies. */
  datatype Checkpoint = Checkpoint(epoch: nat, valAccuracy: real, testAccuracy: real)

  /** The train, validation and test loaders as the untrained model sees them. */
  datatype Baseline = Baseline(train: seq<Evaluation.EvalBatch>, val: seq<Evaluation.EvalBatch>, test: seq<Evaluation.EvalBatch>)

  /** One epoch: the training batches, then the validation and test loaders as the updated model sees them. */
  datatype CombinedEpoch = CombinedEpoch(
    train: seq<CombinedBatch>,
    val: seq<Evaluation.EvalBatch>,
    test: seq<Evaluation.EvalBatch>)

  predicate WellShapedBaseline(b: Baseline) {
    && Evaluation.WellShapedLoader(b.train, EvalDraws)
    && Evaluation.WellShapedLoader(b.val, EvalDraws)
    && Evaluation.WellShapedLoader(b.test, EvalDraws)
  }

  predicate WellShapedEpoch(ep: CombinedEpoch, numZ: nat) {
    && WellShapedBatches(ep.train, numZ)
    && Evaluation.WellShapedLoader(ep.val, EvalDraws)
    && Evaluation.WellShapedLoader(ep.test, EvalDraws)
  }

  predicate WellShapedEpochs(data: seq<CombinedEpoch>, numZ: nat) {
    forall e :: 0 <= e < |data| ==> WellShapedEpoch(data[e], numZ)
  }

  /**
   Everything the loop carries from epoch to epoch: the early-stopping
   monitor, the log, the last checkpoint saved, the number of completed
   epochs (each of which stepped the three schedulers once), whether the loop
   was left early and whether an evaluation or the training accuracy divided
   by zero.
   */
  datatype Combined = Combined(
    monitor: EarlyStopping.AccuracyMonitor,
    rows: seq<CombinedRow>,
    checkpoint: Option<Checkpoint>,
    epochs: nat,
    stopped: bool,
    failed: bool)

  const Failed := Combined(EarlyStopping.AccuracyStart, [], Evaluation.None, 0, false, true)

  /** The epoch-0 row of the three baseline evaluations. */
  function BaselineRow(train: Evaluation.EvalResult, val: Evaluation.EvalResult, test: Evaluation.EvalResult): CombinedRow {
    CombinedRow(0, Evaluation.None, train.accuracy, train.f1, val.accuracy, val.f1, test.accuracy, test.f1)
  }

  /** The state before the first epoch: the baseline row, or a failure if a baseline loader has no labels. */
  function CombinedStart(b: Baseline): (s: Combined)
    requires WellShapedBaseline(b)
    ensures s.failed ==> s == Failed
    ensures !s.failed ==> |s.rows| == 1 && s.rows[0].epoch == 0 && s.rows[0].losses.None? && RowInRange(s.rows[0])
  {
    var train := Evaluation.Evaluate(b.train, EvalDraws);
    var val := Evaluation.Evaluate(b.val, EvalDraws);
    var test := Evaluation.Evaluate(b.test, EvalDraws);
    if train.None? || val.None? || test.None? then Failed
    else Combined(EarlyStopping.AccuracyStart, [BaselineRow(train.value, val.value, test.value)], Evaluation.None, 0, false, false)
  }

  /** No further epoch runs: the loop was left, or an epoch failed. */
  predicate Halted(s: Combined) {
    s.stopped || s.failed
  }

  /** The row of a completed epoch. */
  function EpochRow(epoch: nat, t: TrainTotals, batches: nat, val: Evaluation.EvalResult, test: Evaluation.EvalResult): (r: CombinedRow)
    requires batches > 0 && t.total > 0 && t.correct <= t.total && 0.0 <= t.f1 < batches as real
    requires 0.0 <= val.accuracy <= 100.0 && 0.0 <= val.f1 < 1.0
    requires 0.0 <= test.accuracy <= 100.0 && 0.0 <= test.f1 < 1.0
    ensures r.epoch == epoch + 1 && r.losses.Some?
    ensures r.valAccuracy == val.accuracy && r.testAccuracy == test.accuracy
    ensures RowInRange(r)
  {
    var n := batches as real;
    Ratios.FractionBounds(t.f1, n);
    CombinedRow(epoch + 1, Evaluation.Some(Losses(t.g / n, t.d / n, t.c / n)),
      Ratios.Percent(t.correct, t.total), t.f1 / n,
      val.accuracy, val.f1, test.accuracy, test.f1)
  }

  /**
   The end of a completed epoch: the row is logged, the monitor steps on the
   validation accuracy, the checkpoint is replaced exactly on a strict
   improvement, and the loop is left once the counter reaches the patience.
   */
  function FinishEpoch(s: Combined, row: CombinedRow, test: real, patience: int): (next: Combined)
    ensures next.rows == s.rows + [row]
    ensures next.monitor == EarlyStopping.AccuracyStep(s.monitor, row.valAccuracy)
    ensures next.checkpoint == if row.valAccuracy > s.monitor.best
      then Evaluation.Some(Checkpoint(s.epochs, row.valAccuracy, test)) else s.checkpoint
    ensures next.epochs == s.epochs + 1
    ensures next.stopped == EarlyStopping.ShouldStop(next.monitor, patience) && !next.failed
  {
    var m := EarlyStopping.AccuracyStep(s.monitor, row.valAccuracy);
    var cp := if row.valAccuracy > s.monitor.best
      then Evaluation.Some(Checkpoint(s.epochs, row.valAccuracy, test)) else s.checkpoint;
    Combined(m, s.rows + [row], cp, s.epochs + 1, EarlyStopping.ShouldStop(m, patience), false)
  }

  /** One epoch of the loop; once halted, nothing changes. */
  function CombinedStep(s: Combined, ep: CombinedEpoch, numZ: nat, alpha: real, patience: int): (next: Combined)
    requires numZ > 0 && WellShapedEpoch(ep, numZ)
    ensures Halted(s) ==> next == s
  {
    if Halted(s) then s else RunEpoch(s, ep, numZ, alpha, patience)
  }

  /**
   An epoch that runs: no training label at all, or an evaluation loader
   without labels, fails it without a row; otherwise it is finished.
   */
  function RunEpoch(s: Combined, ep: CombinedEpoch, numZ: nat, alpha: real, patience: int): (next: Combined)
    requires numZ > 0 && WellShapedEpoch(ep, numZ)
  {
    var t := TrainTotalsOf(ep.train, numZ, alpha);
    if t.total == 0 then s.(failed := true)
    else
      var val := Evaluation.Evaluate(ep.val, EvalDraws);
      var test := Evaluation.Evaluate(ep.test, EvalDraws);
      if val.None? || test.None? then s.(failed := true)
      else
        FinishEpoch(s, EpochRow(s.epochs, t, |ep.train|, val.value, test.value), test.value.accuracy, patience)
  }

  /**
   An epoch that was run fails exactly when the train loader has no label or
   an evaluation loader has no label; otherwise it logs one more row.
   */
  lemma EpochFailsOnNoLabels(s: Combined, ep: CombinedEpoch, numZ: nat, alpha: real, patience: int)
    requires numZ > 0 && WellShapedEpoch(ep, numZ) && !Halted(s)
    ensures var next := CombinedStep(s, ep, numZ, alpha, patience);
      && (next.failed <==>
        || TrainTotalsOf(ep.train, numZ, alpha).total == 0
        || Evaluation.LoaderTotal(ep.val) == 0
        || Evaluation.LoaderTotal(ep.test) == 0)
      && (next.failed ==> next.rows == s.rows)
      && (!next.failed ==> |next.rows| == |s.rows| + 1)
  {
    var t := TrainTotalsOf(ep.train, numZ, alpha);
    if t.total > 0 {
      var val := Evaluation.Evaluate(ep.val, EvalDraws);
      var test := Evaluation.Evaluate(ep.test, EvalDraws);
      if val.Some? && test.Some? {
        var row := EpochRow(s.epochs, t, |ep.train|, val.value, test.value);
        assert CombinedStep(s, ep, numZ, alpha, patience) == FinishEpoch(s, row, test.value.accuracy, patience);
      }
    }
  }

  /** The loop after the epochs `data`, in order, from state s. */
  function CombinedRun(s: Combined, data: seq<CombinedEpoch>, numZ: nat, alpha: real, patience: int): Combined
    requires numZ > 0 && WellShapedEpochs(data, numZ)
  {
    if |data| == 0 then s
    else
      var prefix := data[..|data| - 1];
      assert WellShapedEpochs(prefix, numZ) by {
        assert forall e :: 0 <= e < |prefix| ==> prefix[e] == data[e];
      }
      CombinedStep(CombinedRun(s, prefix, numZ, alpha, patience), data[|data| - 1], numZ, alpha, patience)
  }

  lemma PrefixWellShaped(data: seq<CombinedEpoch>, numZ: nat, e: nat)
    requires WellShapedEpochs(data, numZ) && e <= |data|
    ensures WellShapedEpochs(data[..e], numZ)
  {
    assert forall i :: 0 <= i < e ==> data[..e][i] == data[i];
  }

  /** The run over one more epoch is one more step. */
  lemma RunOneMore(s: Combined, data: seq<CombinedEpoch>, numZ: nat, alpha: real, patience: int, e: nat)
    requires numZ > 0 && WellShapedEpochs(data, numZ) && e < |data|
    ensures WellShapedEpochs(data[..e], numZ) && WellShapedEpochs(data[..e + 1], numZ)
    ensures CombinedRun(s, data[..e + 1], numZ, alpha, patience)
      == CombinedStep(CombinedRun(s, data[..e], numZ, alpha, patience), data[e], numZ, alpha, patience)
  {
    PrefixWellShaped(data, numZ, e);
    PrefixWellShaped(data, numZ, e + 1);
    assert data[..e + 1][..e] == data[..e];
  }

  /** If the loop has halted after the first e epochs, the remaining ones change nothing. */
  lemma {:induction false} RunPastHalt(s: Combined, data: seq<CombinedEpoch>, numZ: nat, alpha: real, patience: int, e: nat)
    requires numZ > 0 && WellShapedEpochs(data, numZ) && e <= |data|
    requires WellShapedEpochs(data[..e], numZ)
    requires Halted(CombinedRun(s, data[..e], numZ, alpha, patience))
    ensures CombinedRun(s, data, numZ, alpha, patience) == CombinedRun(s, data[..e], numZ, alpha, patience)
  {
    if |data| > e {
      var n := |data| - 1;
      PrefixWellShaped(data, numZ, n);
      assert data[..n][..e] == data[..e];
      RunPastHalt(s, data[..n], numZ, alpha, patience, e);
      RunOneMore(s, data, numZ, alpha, patience, n);
      assert data[..n + 1] == data;
    } else {
      assert data[..e] == data;
    }
  }

  // ----- Properties of whole runs -----

  /** The validation accuracies of the logged epochs, in order (the epoch-0 row excluded). */
  function ValSeries(rows: seq<CombinedRow>): (vals: seq<real>)
    requires |rows| > 0
    ensures |vals| == |rows| - 1
  {
    seq(|rows| - 1, i requires 0 <= i < |rows| - 1 => rows[i + 1].valAccuracy)
  }

  /**
   The shape of the log: row i is epoch i, only the epoch-0 row lacks losses,
   every accuracy and F1 is in range, one row per completed epoch after the
   baseline; the monitor is the accuracy monitor run over the logged
   validation accuracies, and after any completed epoch the loop is left
   exactly when the counter has reached the patience.
   */
  ghost predicate LogShaped(s: Combined, patience: int) {
    && (s.rows == [] ==> s == Failed)
    && (s.rows != [] ==>
      && |s.rows| == s.epochs + 1
      && (forall i :: 0 <= i < |s.rows| ==> s.rows[i].epoch == i && RowInRange(s.rows[i]))
      && (forall i :: 0 <= i < |s.rows| ==> (s.rows[i].losses.None? <==> i == 0))
      && s.monitor == EarlyStopping.AccuracyRun(ValSeries(s.rows)))
    && (s.stopped ==> EarlyStopping.ShouldStop(s.monitor, patience))
    && (s.epochs > 0 ==> (s.stopped <==> EarlyStopping.ShouldStop(s.monitor, patience)))
  }

  /**
   The checkpoint holds the first epoch with the highest validation accuracy
   logged, provided that accuracy beat 0; with no checkpoint, no epoch beat 0.
   Its test accuracy is that epoch's test accuracy.
   */
  ghost predicate CheckpointIsBest(s: Combined) {
    && (s.checkpoint.None? ==>
      && s.monitor.best == 0.0
      && forall i :: 1 <= i < |s.rows| ==> s.rows[i].valAccuracy <= 0.0)
    && (s.checkpoint.Some? ==>
      var cp := s.checkpoint.value;
      && cp.epoch + 1 < |s.rows|
      && cp.valAccuracy == s.monitor.best > 0.0
      && s.rows[cp.epoch + 1].valAccuracy == cp.valAccuracy
      && s.rows[cp.epoch + 1].testAccuracy == cp.testAccuracy
      && (forall i :: 1 <= i < |s.rows| ==> s.rows[i].valAccuracy <= cp.valAccuracy)
      && (forall i :: 1 <= i < cp.epoch + 1 ==> s.rows[i].valAccuracy < cp.valAccuracy))
  }

  lemma StartShaped(b: Baseline, patience: int)
    requires WellShapedBaseline(b)
    ensures LogShaped(CombinedStart(b), patience) && CheckpointIsBest(CombinedStart(b))
  {
    var s := CombinedStart(b);
    if !s.failed {
      assert ValSeries(s.rows) == [];
    }
  }

  lemma ValSeriesAppend(rows: seq<CombinedRow>, row: CombinedRow)
    requires |rows| > 0
    ensures ValSeries(rows + [row]) == ValSeries(rows) + [row.valAccuracy]
  {
  }

  /** A completed epoch keeps the log shaped. */
  lemma {:induction false} FinishKeepsShape(s: Combined, row: CombinedRow, test: real, patience: int)
    requires LogShaped(s, patience) && !Halted(s) && s.rows != []
    requires row.epoch == s.epochs + 1 && row.losses.Some? && RowInRange(row)
    ensures LogShaped(FinishEpoch(s, row, test, patience), patience)
  {
    var next := FinishEpoch(s, row, test, patience);
    ValSeriesAppend(s.rows, row);
    var vals := ValSeries(next.rows);
    assert vals[..|vals| - 1] == ValSeries(s.rows);
  }

  /** A completed epoch keeps the checkpoint on the best epoch. */
  lemma {:induction false} FinishKeepsBest(s: Combined, row: CombinedRow, test: real, patience: int)
    requires LogShaped(s, patience) && CheckpointIsBest(s) && !Halted(s) && s.rows != []
    requires row.testAccuracy == test
    ensures CheckpointIsBest(FinishEpoch(s, row, test, patience))
  {
    var next := FinishEpoch(s, row, test, patience);
    assert forall i :: 0 <= i < |s.rows| ==> next.rows[i] == s.rows[i];
    assert next.rows[|s.rows|] == row;
  }

  /** Every epoch of the loop keeps both properties. */
  lemma StepKeepsInvariants(s: Combined, ep: CombinedEpoch, numZ: nat, alpha: real, patience: int)
    requires numZ > 0 && WellShapedEpoch(ep, numZ)
    requires LogShaped(s, patience) && CheckpointIsBest(s)
    ensures LogShaped(CombinedStep(s, ep, numZ, alpha, patience), patience)
    ensures CheckpointIsBest(CombinedStep(s, ep, numZ, alpha, patience))
  {
    if !Halted(s) {
      EpochKeepsInvariants(s, ep, numZ, alpha, patience);
    }
  }

  lemma EpochKeepsInvariants(s: Combined, ep: CombinedEpoch, numZ: nat, alpha: real, patience: int)
    requires numZ > 0 && WellShapedEpoch(ep, numZ) && !Halted(s)
    requires LogShaped(s, patience) && CheckpointIsBest(s)
    ensures LogShaped(RunEpoch(s, ep, numZ, alpha, patience), patience)
    ensures CheckpointIsBest(RunEpoch(s, ep, numZ, alpha, patience))
  {
    var t := TrainTotalsOf(ep.train, numZ, alpha);
    var val := Evaluation.Evaluate(ep.val, EvalDraws);
    var test := Evaluation.Evaluate(ep.test, EvalDraws);
    if t.total > 0 && val.Some? && test.Some? {
      var row := EpochRow(s.epochs, t, |ep.train|, val.value, test.value);
      assert RunEpoch(s, ep, numZ, alpha, patience) == FinishEpoch(s, row, test.value.accuracy, patience);
      FinishKeepsShape(s, row, test.value.accuracy, patience);
      FinishKeepsBest(s, row, test.value.accuracy, patience);
    } else {
      assert RunEpoch(s, ep, numZ, alpha, patience) == s.(failed := true);
      FailKeepsInvariants(s, patience);
    }
  }

  /** A failed epoch leaves the log and the checkpoint as they were. */
  lemma FailKeepsInvariants(s: Combined, patience: int)
    requires LogShaped(s, patience) && CheckpointIsBest(s) && !s.failed
    ensures LogShaped(s.(failed := true), patience) && CheckpointIsBest(s.(failed := true))
  {
  }

  /**
   Over a whole run: the log is shaped and the checkpoint holds the best
   epoch; a run that neither failed nor was left early logged every epoch.
   */
  lemma {:induction false} CombinedRunInvariants(b: Baseline, data: seq<CombinedEpoch>, numZ: nat, alpha: real, patience: int)
    requires WellShapedBaseline(b) && numZ > 0 && WellShapedEpochs(data, numZ)
    ensures var s := CombinedRun(CombinedStart(b), data, numZ, alpha, patience);
      && LogShaped(s, patience)
      && CheckpointIsBest(s)
      && (!Halted(s) ==> |s.rows| == |data| + 1)
  {
    if |data| == 0 {
      StartShaped(b, patience);
    } else {
      var n := |data| - 1;
      PrefixWellShaped(data, numZ, n);
      CombinedRunInvariants(b, data[..n], numZ, alpha, patience);
      StepKeepsInvariants(CombinedRun(CombinedStart(b), data[..n], numZ, alpha, patience), data[n], numZ, alpha, patience);
    }
  }

  /**
   The end of a completed epoch: the row is logged, the schedulers step, and
   the early-stopping check on the validation accuracy decides whether the
   checkpoint is saved and whether the loop is left.
   */
  method EndCombinedEpoch(stopper: EarlyStopping.AccuracyEarlyStopper, row: CombinedRow, test: real,
                          rows: seq<CombinedRow>, checkpoint: Option<Checkpoint>, e: nat)
    returns (rows': seq<CombinedRow>, checkpoint': Option<Checkpoint>, stop: bool)
    requires stopper.Valid() && !stopper.stopped
    modifies stopper
    ensures stopper.Valid()
    ensures Combined(stopper.State(), rows', checkpoint', e + 1, stop, false)
      == FinishEpoch(Combined(old(stopper.State()), rows, checkpoint, e, false, false), row, test, stopper.patience)
    ensures stop == stopper.stopped
  {
    rows' := rows + [row];
    var saved;
    saved, stop := stopper.EndEpoch(row.valAccuracy);
    checkpoint' := checkpoint;
    if saved {
      checkpoint' := Evaluation.Some(Checkpoint(e, row.valAccuracy, test));
    }
  }

  /**
   `train_combined_cgan`: the log rows, the last checkpoint saved, the number
   of scheduler steps, and whether an evaluation or the training accuracy
   divided by zero.
   */
  method TrainCombined(baseline: Baseline, data: seq<CombinedEpoch>, numZ: nat, alpha: real, patience: int)
    returns (rows: seq<CombinedRow>, checkpoint: Option<Checkpoint>, schedulerSteps: nat, failed: bool)
    requires WellShapedBaseline(baseline) && numZ > 0 && WellShapedEpochs(data, numZ)
    ensures var s := CombinedRun(CombinedStart(baseline), data, numZ, alpha, patience);
      rows == s.rows && checkpoint == s.checkpoint && schedulerSteps == s.epochs && failed == s.failed
  {
    var stopper := new EarlyStopping.AccuracyEarlyStopper(patience);
    checkpoint, schedulerSteps := Evaluation.None, 0;
    var trainEval := Evaluation.EvaluateModel(baseline.train, EvalDraws);
    var valEval := Evaluation.EvaluateModel(baseline.val, EvalDraws);
    var testEval := Evaluation.EvaluateModel(baseline.test, EvalDraws);
    ghost var start := CombinedStart(baseline);
    if trainEval.None? || valEval.None? || testEval.None? {
      rows, failed := [], true;
      RunPastHalt(start, data, numZ, alpha, patience, 0);
      return;
    }
    rows, failed := [BaselineRow(trainEval.value, valEval.value, testEval.value)], false;
    var e := 0;
    while e < |data|
      invariant 0 <= e <= |data|
      invariant WellShapedEpochs(data[..e], numZ)
      invariant stopper.Valid() && !stopper.stopped && stopper.patience == patience
      invariant CombinedRun(start, data[..e], numZ, alpha, patience)
        == Combined(stopper.State(), rows, checkpoint, e, false, false)
      invariant schedulerSteps == e
    {
      var ep := data[e];
      RunOneMore(start, data, numZ, alpha, patience, e);
      var t := RunCombinedEpoch(ep.train, numZ, alpha);
      if t.total == 0 {
        failed := true;
        RunPastHalt(start, data, numZ, alpha, patience, e + 1);
        return;
      }
      var val := Evaluation.EvaluateModel(ep.val, EvalDraws);
      var test := Evaluation.EvaluateModel(ep.test, EvalDraws);
      if val.None? || test.None? {
        failed := true;
        RunPastHalt(start, data, numZ, alpha, patience, e + 1);
        return;
      }
      var row := EpochRow(e, t, |ep.train|, val.value, test.value);
      schedulerSteps := schedulerSteps + 1;
      var stop;
      rows, checkpoint, stop := EndCombinedEpoch(stopper, row, test.value.accuracy, rows, checkpoint, e);
      e := e + 1;
      if stop {
        RunPastHalt(start, data, numZ, alpha, patience, e);
        return;
      }
    }
    assert data[..e] == data;
  }
}
