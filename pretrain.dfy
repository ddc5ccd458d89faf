/**
 The adversarial pretraining loop (`train_gan`). Every epoch walks the data
 loader; on each batch the discriminator takes an optimizer step unless it
 is frozen, the median-threshold accuracy counters are updated, and the
 generator takes a step unless it is frozen. At the end of the epoch the
 summed losses are divided by the number of batches, the discriminator
 accuracy is formed, each network's early-stopping monitor is updated, and
 one row is appended to the metrics log. The loop breaks at the start of an
 epoch once both networks are frozen.

 The networks, the losses, the gradient penalty and the optimizers are
 opaque: a batch is given by its real layouts (for the node count handed to
 the generator), the critic scores of its real and generated layouts, and
 the loss values the networks produce for it. The model counts optimizer
 steps in place of performing them.
 */
module Pretraining {
  import NodeCount
  import MedianThreshold
  import EarlyStopping

  /** One batch: the real layouts, the critic scores and the three loss values. */
  datatype PretrainBatch = PretrainBatch(
    layouts: seq<seq<seq<real>>>,
    realScores: seq<real>,
    fakeScores: seq<real>,
    dLoss: real,
    gLoss: real,
    recLoss: real)

  /** One row of the metrics log (and of `metrics_gan.csv`). */
  datatype PretrainRow = PretrainRow(epoch: nat, gLoss: real, recLoss: real, dLoss: real, dAccuracy: real)

  /**
   The per-epoch accumulators: the summed losses, the accuracy counters, the
   optimizer steps taken and the node counts handed to the generator, one
   entry per batch.
   */
  datatype EpochTotals = EpochTotals(
    g: real,
    d: real,
    rec: real,
    counts: MedianThreshold.DiscCounts,
    gSteps: nat,
    dSteps: nat,
    nodeCounts: seq<seq<nat>>)

  const NoTotals := EpochTotals(0.0, 0.0, 0.0, MedianThreshold.NoCounts, 0, 0, [])

  /** The accumulators after one more batch. */
  function BatchUpdate(t: EpochTotals, b: PretrainBatch, frozenG: bool, frozenD: bool): EpochTotals {
    EpochTotals(
      if frozenG then t.g else t.g + b.gLoss,
      if frozenD then t.d else t.d + b.dLoss,
      if frozenG then t.rec else t.rec + b.recLoss,
      MedianThreshold.AddCounts(t.counts, MedianThreshold.BatchCounts(b.realScores, b.fakeScores)),
      if frozenG then t.gSteps else t.gSteps + 1,
      if frozenD then t.dSteps else t.dSteps + 1,
      t.nodeCounts + [NodeCount.NumNodesBatch(b.layouts)])
  }

  /**
   The accumulators after the batches of one epoch. A frozen network takes
   no optimizer step and adds nothing to its losses, an active one takes one
   step per batch; the accuracy counters are always updated and stay
   consistent; the generator is handed a node count for every batch.
   */
  function EpochTotalsOf(batches: seq<PretrainBatch>, frozenG: bool, frozenD: bool): (t: EpochTotals)
    ensures t.gSteps == (if frozenG then 0 else |batches|)
    ensures t.dSteps == (if frozenD then 0 else |batches|)
    ensures frozenG ==> t.g == 0.0 && t.rec == 0.0
    ensures frozenD ==> t.d == 0.0
    ensures MedianThreshold.Consistent(t.counts)
    ensures |t.nodeCounts| == |batches|
    ensures forall i :: 0 <= i < |batches| ==> |t.nodeCounts[i]| == |batches[i].layouts|
  {
    if |batches| == 0 then NoTotals
    else
      var prefix := batches[..|batches| - 1];
      var t := BatchUpdate(EpochTotalsOf(prefix, frozenG, frozenD), batches[|batches| - 1], frozenG, frozenD);
      assert forall i :: 0 <= i < |batches| - 1 ==> prefix[i] == batches[i];
      t
  }

  /** The accumulators over one more batch are one more update. */
  lemma EpochTotalsOneMore(batches: seq<PretrainBatch>, frozenG: bool, frozenD: bool, i: nat)
    requires i < |batches|
    ensures EpochTotalsOf(batches[..i + 1], frozenG, frozenD)
      == BatchUpdate(EpochTotalsOf(batches[..i], frozenG, frozenD), batches[i], frozenG, frozenD)
  {
    assert batches[..i + 1][..i] == batches[..i];
  }

  /**
   The body of the batch loop: the node count is handed to the generator, the
   discriminator steps unless frozen, the accuracy counters are updated, and
   the generator steps unless frozen.
   */
  method AccumulateBatch(t0: EpochTotals, b: PretrainBatch, frozenG: bool, frozenD: bool) returns (t: EpochTotals)
    ensures t == BatchUpdate(t0, b, frozenG, frozenD)
  {
    t := t0;
    var numNodes := NodeCount.NumNodesBatch(b.layouts);
    t := t.(nodeCounts := t.nodeCounts + [numNodes]);
    if !frozenD {
      t := t.(d := t.d + b.dLoss, dSteps := t.dSteps + 1);
    }
    t := t.(counts := MedianThreshold.AddCounts(t.counts, MedianThreshold.BatchCounts(b.realScores, b.fakeScores)));
    if !frozenG {
      t := t.(g := t.g + b.gLoss, rec := t.rec + b.recLoss, gSteps := t.gSteps + 1);
    }
  }

  /** The batch loop of one epoch. */
  method RunPretrainEpoch(batches: seq<PretrainBatch>, frozenG: bool, frozenD: bool) returns (t: EpochTotals)
    ensures t == EpochTotalsOf(batches, frozenG, frozenD)
  {
    t := NoTotals;
    var i := 0;
    while i < |batches|
      invariant 0 <= i <= |batches|
      invariant t == EpochTotalsOf(batches[..i], frozenG, frozenD)
    {
      EpochTotalsOneMore(batches, frozenG, frozenD, i);
      t := AccumulateBatch(t, batches[i], frozenG, frozenD);
      i := i + 1;
    }
    assert batches[..i] == batches;
  }

  /**
   Everything the loop carries from epoch to epoch: both early-stopping
   monitors, the log, the optimizer steps taken so far, the losses at which
   each network's checkpoint was saved, in order, and whether an epoch failed
   (an empty loader makes the averaging divide by zero).
   */
  datatype Pretrain = Pretrain(
    g: EarlyStopping.LossMonitor,
    d: EarlyStopping.LossMonitor,
    rows: seq<PretrainRow>,
    gSteps: nat,
    dSteps: nat,
    gSaves: seq<real>,
    dSaves: seq<real>,
    failed: bool)

  const PretrainStart := Pretrain(EarlyStopping.LossStart, EarlyStopping.LossStart, [], 0, 0, [], [], false)

  /** No further epoch runs: one failed, or both networks are frozen. */
  predicate Halted(s: Pretrain) {
    s.failed || (s.g.stopped && s.d.stopped)
  }

  /** The row of a completed epoch: the summed losses divided by the number of batches. */
  function EpochRow(index: nat, t: EpochTotals, batches: nat): (row: PretrainRow)
    requires batches > 0 && MedianThreshold.Consistent(t.counts)
    ensures row.epoch == index + 1
    ensures 0.0 <= row.dAccuracy <= 100.0
    ensures t.g == 0.0 ==> row.gLoss == 0.0
    ensures t.rec == 0.0 ==> row.recLoss == 0.0
    ensures t.d == 0.0 ==> row.dLoss == 0.0
  {
    var n := batches as real;
    PretrainRow(index + 1, t.g / n, t.rec / n, t.d / n, MedianThreshold.DiscriminatorAccuracy(t.counts))
  }

  /**
   One epoch of the loop. Once halted, nothing changes. An empty loader
   fails without a row; otherwise exactly one row is appended.
   */
  function EpochStep(s: Pretrain, batches: seq<PretrainBatch>, patience: int): (next: Pretrain)
    ensures Halted(s) ==> next == s
    ensures !Halted(s) ==> next.failed == (|batches| == 0)
    ensures !Halted(s) ==> |next.rows| == |s.rows| + (if |batches| == 0 then 0 else 1)
    ensures next.rows[..|s.rows|] == s.rows
  {
    if Halted(s) then s
    else if |batches| == 0 then s.(failed := true)
    else FinishEpoch(s, EpochTotalsOf(batches, s.g.stopped, s.d.stopped), |batches|, patience)
  }

  /** The end of a completed epoch: the row is logged and both monitors step on their averages. */
  function FinishEpoch(s: Pretrain, t: EpochTotals, batches: nat, patience: int): (next: Pretrain)
    requires batches > 0 && MedianThreshold.Consistent(t.counts)
    ensures next.rows == s.rows + [EpochRow(|s.rows|, t, batches)]
    ensures next.g == EarlyStopping.LossStep(s.g, next.rows[|s.rows|].gLoss, patience)
    ensures next.d == EarlyStopping.LossStep(s.d, next.rows[|s.rows|].dLoss, patience)
    ensures next.gSteps == s.gSteps + t.gSteps && next.dSteps == s.dSteps + t.dSteps
    ensures var gLoss := next.rows[|s.rows|].gLoss;
      next.gSaves == s.gSaves + (if EarlyStopping.Improves(gLoss, s.g.best) then [gLoss] else [])
    ensures var dLoss := next.rows[|s.rows|].dLoss;
      next.dSaves == s.dSaves + (if EarlyStopping.Improves(dLoss, s.d.best) then [dLoss] else [])
    ensures !next.failed
  {
    var row := EpochRow(|s.rows|, t, batches);
    Pretrain(
      EarlyStopping.LossStep(s.g, row.gLoss, patience),
      EarlyStopping.LossStep(s.d, row.dLoss, patience),
      s.rows + [row],
      s.gSteps + t.gSteps,
      s.dSteps + t.dSteps,
      s.gSaves + (if EarlyStopping.Improves(row.gLoss, s.g.best) then [row.gLoss] else []),
      s.dSaves + (if EarlyStopping.Improves(row.dLoss, s.d.best) then [row.dLoss] else []),
      false)
  }

  /**
   A completed epoch: its row is numbered after the rows before it and has an
   accuracy in [0, 100]; each monitor takes its step on its own average.
   */
  lemma CompletedEpochRow(s: Pretrain, batches: seq<PretrainBatch>, patience: int)
    requires !Halted(s) && |batches| > 0
    ensures var next := EpochStep(s, batches, patience);
      && next.rows[|s.rows|].epoch == |s.rows| + 1
      && 0.0 <= next.rows[|s.rows|].dAccuracy <= 100.0
      && next.g == EarlyStopping.LossStep(s.g, next.rows[|s.rows|].gLoss, patience)
      && next.d == EarlyStopping.LossStep(s.d, next.rows[|s.rows|].dLoss, patience)
  {
  }

  /**
   A network frozen at the start of a completed epoch reports zero losses
   and takes no optimizer step; an active one takes one step per batch.
   */
  lemma CompletedEpochSteps(s: Pretrain, batches: seq<PretrainBatch>, patience: int)
    requires !Halted(s) && |batches| > 0
    ensures var next := EpochStep(s, batches, patience);
      && (s.g.stopped ==> next.rows[|s.rows|].gLoss == 0.0 && next.rows[|s.rows|].recLoss == 0.0 && next.gSteps == s.gSteps)
      && (!s.g.stopped ==> next.gSteps == s.gSteps + |batches|)
      && (s.d.stopped ==> next.rows[|s.rows|].dLoss == 0.0 && next.dSteps == s.dSteps)
      && (!s.d.stopped ==> next.dSteps == s.dSteps + |batches|)
  {
  }

  /** The run over one more epoch is one more step. */
  lemma RunOneMore(s: Pretrain, data: seq<seq<PretrainBatch>>, patience: int, e: nat)
    requires e < |data|
    ensures PretrainRun(s, data[..e + 1], patience) == EpochStep(PretrainRun(s, data[..e], patience), data[e], patience)
  {
    assert data[..e + 1][..e] == data[..e];
  }

  /** The loop after the epochs `data`, in order, from state s. */
  function PretrainRun(s: Pretrain, data: seq<seq<PretrainBatch>>, patience: int): Pretrain {
    if |data| == 0 then s
    else EpochStep(PretrainRun(s, data[..|data| - 1], patience), data[|data| - 1], patience)
  }

  /** Once halted, later epochs change nothing. */
  lemma {:induction false} HaltedRunStaysPut(s: Pretrain, data: seq<seq<PretrainBatch>>, patience: int)
    requires Halted(s)
    ensures PretrainRun(s, data, patience) == s
  {
    if |data| > 0 {
      HaltedRunStaysPut(s, data[..|data| - 1], patience);
    }
  }

  /** If the loop has halted after the first e epochs, the remaining ones change nothing. */
  lemma {:induction false} RunPastHalt(s: Pretrain, data: seq<seq<PretrainBatch>>, patience: int, e: nat)
    requires e <= |data|
    requires Halted(PretrainRun(s, data[..e], patience))
    ensures PretrainRun(s, data, patience) == PretrainRun(s, data[..e], patience)
  {
    if |data| > e {
      var n := |data| - 1;
      assert data[..n][..e] == data[..e];
      RunPastHalt(s, data[..n], patience, e);
    } else {
      assert data[..e] == data;
    }
  }

  /**
   From the start, the log holds one row per completed epoch, numbered 1, 2,
   ... in order, each with an accuracy in [0, 100]; a run that did not fail
   and did not freeze both networks completed every epoch.
   */
  lemma {:induction false} PretrainLogShape(data: seq<seq<PretrainBatch>>, patience: int)
    ensures var s := PretrainRun(PretrainStart, data, patience);
      && |s.rows| <= |data|
      && (forall i :: 0 <= i < |s.rows| ==> s.rows[i].epoch == i + 1)
      && (forall i :: 0 <= i < |s.rows| ==> 0.0 <= s.rows[i].dAccuracy <= 100.0)
      && (!Halted(s) ==> |s.rows| == |data|)
  {
    if |data| > 0 {
      var prev := PretrainRun(PretrainStart, data[..|data| - 1], patience);
      PretrainLogShape(data[..|data| - 1], patience);
      var s := EpochStep(prev, data[|data| - 1], patience);
      if !Halted(prev) && |data[|data| - 1]| > 0 {
        assert forall i :: 0 <= i < |prev.rows| ==> s.rows[i] == prev.rows[i];
      }
    }
  }

  /**
   A checkpoint log that agrees with its monitor's best loss: every saved loss
   is strictly below the one saved before it, nothing is saved while the best
   is still `float('inf')`, and the last saved loss is the best one.
   */
  predicate CheckpointLog(saves: seq<real>, best: EarlyStopping.Best) {
    && (forall i, j :: 0 <= i < j < |saves| ==> saves[j] < saves[i])
    && (if saves == [] then best.Unset? else best == EarlyStopping.Loss(saves[|saves| - 1]))
  }

  /** One end-of-epoch check keeps a network's checkpoint log in step with its best loss. */
  lemma SaveKeepsCheckpointLog(saves: seq<real>, m: EarlyStopping.LossMonitor, avg: real, patience: int)
    requires CheckpointLog(saves, m.best)
    ensures CheckpointLog(saves + (if EarlyStopping.Improves(avg, m.best) then [avg] else []),
                          EarlyStopping.LossStep(m, avg, patience).best)
  {
    if EarlyStopping.Improves(avg, m.best) {
      var next := saves + [avg];
      forall i, j | 0 <= i < j < |next|
        ensures next[j] < next[i]
      {
        if j == |saves| {
          assert saves != [] && saves[i] >= saves[|saves| - 1];
        }
      }
    } else {
      assert saves + [] == saves;
    }
  }

  /**
   From the start, each network's checkpoints were saved at strictly
   decreasing losses, at most one per logged epoch, and the last one saved is
   the network's best loss.
   */
  lemma {:induction false} PretrainCheckpoints(data: seq<seq<PretrainBatch>>, patience: int)
    ensures var s := PretrainRun(PretrainStart, data, patience);
      && CheckpointLog(s.gSaves, s.g.best) && CheckpointLog(s.dSaves, s.d.best)
      && |s.gSaves| <= |s.rows| && |s.dSaves| <= |s.rows|
  {
    if |data| > 0 {
      var prev := PretrainRun(PretrainStart, data[..|data| - 1], patience);
      PretrainCheckpoints(data[..|data| - 1], patience);
      var batches := data[|data| - 1];
      if !Halted(prev) && |batches| > 0 {
        var row := EpochStep(prev, batches, patience).rows[|prev.rows|];
        SaveKeepsCheckpointLog(prev.gSaves, prev.g, row.gLoss, patience);
        SaveKeepsCheckpointLog(prev.dSaves, prev.d, row.dLoss, patience);
      }
    }
  }

  /** A frozen network stays frozen for the rest of the run. */
  lemma {:induction false} FrozenStaysFrozen(s: Pretrain, data: seq<seq<PretrainBatch>>, patience: int)
    ensures s.g.stopped ==> PretrainRun(s, data, patience).g.stopped
    ensures s.d.stopped ==> PretrainRun(s, data, patience).d.stopped
  {
    if |data| > 0 {
      FrozenStaysFrozen(s, data[..|data| - 1], patience);
    }
  }

  /**
   A frozen network keeps being monitored on an average of 0.0. If its best
   loss was positive, that 0.0 counts as an improvement: its checkpoint is
   saved again, with the weights it was frozen with, and its counter is reset.
   */
  lemma FrozenNetworkCheckpointsAgain(s: Pretrain, batches: seq<PretrainBatch>, patience: int)
    requires !Halted(s) && |batches| > 0
    requires s.g.stopped && s.g.best.Loss? && s.g.best.value > 0.0
    ensures EpochStep(s, batches, patience).g == EarlyStopping.LossMonitor(EarlyStopping.Loss(0.0), 0, true)
    ensures EpochStep(s, batches, patience).gSaves == s.gSaves + [0.0]
  {
    var t := EpochTotalsOf(batches, s.g.stopped, s.d.stopped);
    assert t.g / (|batches| as real) == 0.0;
  }

  /**
   The end of a completed epoch: the averages and the accuracy form the row,
   and each network's early-stopping check runs on its own average.
   */
  method EndPretrainEpoch(gStop: EarlyStopping.LossEarlyStopper, dStop: EarlyStopping.LossEarlyStopper,
                          e: nat, totals: EpochTotals, batches: nat)
    returns (row: PretrainRow, gSaved: bool, dSaved: bool)
    requires gStop != dStop && gStop.Valid() && dStop.Valid()
    requires batches > 0 && MedianThreshold.Consistent(totals.counts)
    modifies gStop, dStop
    ensures gStop.Valid() && dStop.Valid()
    ensures row == EpochRow(e, totals, batches)
    ensures gStop.State() == EarlyStopping.LossStep(old(gStop.State()), row.gLoss, gStop.patience)
    ensures dStop.State() == EarlyStopping.LossStep(old(dStop.State()), row.dLoss, dStop.patience)
    ensures gSaved == EarlyStopping.Improves(row.gLoss, old(gStop.best))
    ensures dSaved == EarlyStopping.Improves(row.dLoss, old(dStop.best))
    ensures gStop.checkpoints == old(gStop.checkpoints) + (if gSaved then [row.gLoss] else [])
    ensures dStop.checkpoints == old(dStop.checkpoints) + (if dSaved then [row.dLoss] else [])
  {
    var n := batches as real;
    var avgG, avgD, avgRec := totals.g / n, totals.d / n, totals.rec / n;
    var accuracy := MedianThreshold.DiscriminatorAccuracy(totals.counts);
    gSaved := gStop.EndEpoch(avgG);
    dSaved := dStop.EndEpoch(avgD);
    row := PretrainRow(e + 1, avgG, avgRec, avgD, accuracy);
  }

  /**
   One epoch that runs its batches: the batch loop, then the end-of-epoch
   bookkeeping. The loop state before it is held by the two monitors and the
   caller's log and step counters; `e` is the 0-based epoch index.
   */
  method PretrainEpoch(gStop: EarlyStopping.LossEarlyStopper, dStop: EarlyStopping.LossEarlyStopper,
                       ghost rows: seq<PretrainRow>, ghost gSteps: nat, ghost dSteps: nat,
                       ghost gSaves: seq<real>, ghost dSaves: seq<real>,
                       e: nat, batches: seq<PretrainBatch>, patience: int)
    returns (row: PretrainRow, gTaken: nat, dTaken: nat, gSaved: bool, dSaved: bool)
    requires gStop != dStop && gStop.Valid() && dStop.Valid()
    requires gStop.patience == patience && dStop.patience == patience
    requires !(gStop.stopped && dStop.stopped) && |batches| > 0 && e == |rows|
    modifies gStop, dStop
    ensures gStop.Valid() && dStop.Valid()
    ensures gSaved == EarlyStopping.Improves(row.gLoss, old(gStop.best))
    ensures dSaved == EarlyStopping.Improves(row.dLoss, old(dStop.best))
    ensures gStop.checkpoints == old(gStop.checkpoints) + (if gSaved then [row.gLoss] else [])
    ensures dStop.checkpoints == old(dStop.checkpoints) + (if dSaved then [row.dLoss] else [])
    ensures var next := EpochStep(old(Pretrain(gStop.State(), dStop.State(), rows, gSteps, dSteps, gSaves, dSaves, false)),
                                  batches, patience);
      && next.g == gStop.State() && next.d == dStop.State()
      && next.rows == rows + [row]
      && next.gSteps == gSteps + gTaken && next.dSteps == dSteps + dTaken
      && next.gSaves == gSaves + (if gSaved then [row.gLoss] else [])
      && next.dSaves == dSaves + (if dSaved then [row.dLoss] else [])
      && !next.failed
  {
    ghost var s := Pretrain(gStop.State(), dStop.State(), rows, gSteps, dSteps, gSaves, dSaves, false);
    var totals := RunPretrainEpoch(batches, gStop.stopped, dStop.stopped);
    ghost var next := FinishEpoch(s, totals, |batches|, patience);
    assert EpochStep(s, batches, patience) == next;
    row, gSaved, dSaved := EndPretrainEpoch(gStop, dStop, e, totals, |batches|);
    gTaken, dTaken := totals.gSteps, totals.dSteps;
    assert next.rows == rows + [row];
  }

  /**
   `train_gan`: the log rows, whether an epoch failed, the number of
   optimizer steps each network took, and the losses at which each network's
   checkpoint was saved.
   */
  method TrainGan(data: seq<seq<PretrainBatch>>, patience: int)
    returns (rows: seq<PretrainRow>, failed: bool, gSteps: nat, dSteps: nat, gSaves: seq<real>, dSaves: seq<real>)
    ensures var s := PretrainRun(PretrainStart, data, patience);
      && rows == s.rows && failed == s.failed && gSteps == s.gSteps && dSteps == s.dSteps
      && gSaves == s.gSaves && dSaves == s.dSaves
  {
    var gStop := new EarlyStopping.LossEarlyStopper(patience);
    var dStop := new EarlyStopping.LossEarlyStopper(patience);
    rows, failed, gSteps, dSteps, gSaves, dSaves := [], false, 0, 0, [], [];
    var e := 0;
    while e < |data|
      invariant 0 <= e <= |data|
      invariant gStop != dStop
      invariant gStop.Valid() && dStop.Valid()
      invariant gStop.patience == patience && dStop.patience == patience
      invariant |rows| == e
      invariant gStop.checkpoints == gSaves && dStop.checkpoints == dSaves
      invariant PretrainRun(PretrainStart, data[..e], patience)
        == Pretrain(gStop.State(), dStop.State(), rows, gSteps, dSteps, gSaves, dSaves, false)
    {
      if gStop.stopped && dStop.stopped {
        RunPastHalt(PretrainStart, data, patience, e);
        return;
      }
      var batches := data[e];
      RunOneMore(PretrainStart, data, patience, e);
      if |batches| == 0 {
        failed := true;
        RunPastHalt(PretrainStart, data, patience, e + 1);
        return;
      }
      var row, gTaken, dTaken, gSaved, dSaved :=
        PretrainEpoch(gStop, dStop, rows, gSteps, dSteps, gSaves, dSaves, e, batches, patience);
      rows := rows + [row];
      gSteps := gSteps + gTaken;
      dSteps := dSteps + dTaken;
      if gSaved {
        gSaves := gSaves + [row.gLoss];
      }
      if dSaved {
        dSaves := dSaves + [row.dLoss];
      }
      e := e + 1;
    }
    assert data[..e] == data;
  }
}
