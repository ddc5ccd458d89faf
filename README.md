# Verified model of the VSGL training bookkeeping

`train.py` trains a conditional graph-layout GAN (generator, critic and image
classifier) in two phases:

- an adversarial pretraining loop, `train_gan`;
- a combined loop, `train_combined_cgan`, which also trains the classifier on
  rendered layouts and evaluates it with `evaluate_model`.

The networks, autograd, noise and rendering are opaque. What is modelled here
is the discrete bookkeeping around them:

- the confusion-matrix counts and the precision, recall and F1 of
  `calculate_f1` (module `F1Score`, pure functions);
- the node count `num_nodes` derived from zero-padded layouts (`NodeCount`);
- the median-threshold discriminator accuracy counters of pretraining
  (`MedianThreshold`);
- the two early-stopping and checkpoint state machines (`EarlyStopping`):
  - per network on the epoch-average loss in pretraining;
  - on the validation accuracy in the combined loop.

  Each is a pure step function with lemmas over whole runs, plus a class whose
  `EndEpoch` method performs the step in place and keeps a ghost log of saved
  checkpoints;
- `evaluate_model` (`Evaluation`): the in-place `accum_logits` buffer (an
  `array`) summed over the noise draws and divided by their number, the
  arg-max, and the accuracy and mean batch F1 over a loader;
- `train_gan` (`Pretraining`) and `train_combined_cgan` (`CombinedTraining`)
  as imperative methods with loops. Each is proved equal to a pure run
  function, and the properties of the loops are proved about that function.

Network outputs are parameters. A pretraining batch is given by its layouts,
its critic scores and its loss values. A combined batch is given by its loss
values, the classifier outputs of its last noise draw and its labels. An
evaluation batch is given by the classifier outputs of every draw and its
labels. Optimizer steps, scheduler steps and checkpoint saves are recorded as
counts, an ordered step log, or a checkpoint record.

Python's `ZeroDivisionError` on an empty loader becomes a failure result:
- `Option.None` from `Evaluation.Evaluate`;
- `failed` in both training loops.

The model follows the code where it could be read otherwise:
- `torch.median` is the lower middle value of the sorted scores.
- `torch.max` ties go to class 0.
- The combined loop calls `evaluate_model` with its default of 5 noise draws
  (`EvalDraws`), not with its own `num_z_samples`.
- The checkpoint's `epoch` is 0-based while log rows are numbered from 1.
- A frozen pretraining network keeps being monitored on an average of 0.0,
  which re-saves its checkpoint when its best loss was positive
  (`Pretraining.FrozenNetworkCheckpointsAgain`).
- Training predictions in the combined loop are taken from the classifier
  outputs of the last noise draw of the generator step.
- An empty validation or test loader raises rather than yielding a default.

## Model

| member | source | states |
|---|---|---|
| F1Score.ConfusionCounts | train.py:21-24 | On 0/1 vectors tp, tn, fp, fn each count the positions with their (prediction, label) pair; tp+fp is the predicted positives, tp+fn the actual positives, and tp+tn+fp+fn = n |
| F1Score.ScoresOf | train.py:26-28 | F1 = 2PR/(P+R+eps); with the 1e-8 guards, precision, recall and F1 lie in [0,1) over exact reals; F1 is 0 exactly when tp = 0, and tp = 0 makes precision and recall 0 |
| F1Score.HarmonicBelowOne | train.py:28 | The harmonic-mean step maps precision and recall in [0,1) into [0,1), and is positive when both are |
| F1Score.CalculateF1 | train.py:10-30 | Precision = true positives / (predicted positives + eps), recall = true positives / (actual positives + eps); F1 = 2PR/(P+R+eps); all three scores in [0,1) over exact reals; F1 = 0 iff no true positive; identical inputs give precision = recall |
| F1Score.SamePairsHaveNoErrors | train.py:23-24 | Identical vectors have no false positive and no false negative |
| F1Score.AllWrongGivesZero | train.py:21-28 | If every prediction is wrong, precision, recall and F1 are all 0 |
| F1Score.NoMatchNoTruePositive | train.py:21 | No position agreeing means no true positive |
| NodeCount.NormPositiveIffNonZero | train.py:148 | The mask `norm(row) > 0` holds exactly when some coordinate of the row is non-zero |
| NodeCount.NumNodes | train.py:148-151 | The count of masked rows of one graph is at most its padded row count |
| NodeCount.NumNodesBatch | train.py:151 | One count per graph of the batch, each at most that graph's padded row count |
| NodeCount.NumNodesCountsNodeSlots | train.py:148-151 | `num_nodes[i]` equals the number of slots of graph i holding a non-zero coordinate |
| NodeCount.AllZeroLayoutHasNoNodes | train.py:148-151 | An all-zero layout has 0 nodes |
| NodeCount.PaddedLayoutCount | train.py:384-387 | k real rows followed by zero padding give exactly k nodes |
| MedianThreshold.Median | train.py:184 | The threshold is one of the scores, with at most half of them (rounded down) strictly above and at most half of the others strictly below: the lower median |
| MedianThreshold.MedianRank | train.py:184 | The lower middle element of the sorted scores is a score with those rank bounds |
| MedianThreshold.SortScores | train.py:184 | Sorting yields a sorted permutation of the scores |
| MedianThreshold.CountsOfSort | train.py:184 | Sorting keeps the number of scores above and below a threshold |
| MedianThreshold.BatchCounts | train.py:181-193 | A batch adds len(real) to total_real and len(fake) to total_fake; correct_real <= total_real, correct_fake <= total_fake; at most half the batch is called real |
| MedianThreshold.AddCounts | train.py:190-193 | Accumulating keeps the counters consistent and adds the totals |
| MedianThreshold.DiscriminatorAccuracy | train.py:243-249 | The accuracy is 0.0 when no sample was seen and lies in [0,100] for consistent counters |
| Ratios.Percent | train.py:743 | 100 * correct / total is non-negative, at most 100 when correct <= total, 0 iff nothing is correct, 100 iff everything is |
| EarlyStopping.LossStep | train.py:255-279 | The best loss never gets worse; the counter resets exactly on a strict improvement and otherwise grows by 1; the stop flag is set once a non-improving epoch brings the counter to the patience, and never cleared |
| EarlyStopping.LossRunSticky | train.py:264-266 | Once a network is frozen it stays frozen over any later epochs |
| EarlyStopping.LossRunBestIsMinimum | train.py:256-257 | From `float('inf')`, the best loss is the minimum of the epoch averages seen, and is one of them |
| EarlyStopping.PlateauStopsAfterPatience | train.py:261-266 | After a first epoch never beaten, the counter after k epochs is k-1 and the stop flag is set exactly from epoch patience+1 on |
| EarlyStopping.LossEarlyStopper.constructor | train.py:100-108 | Starts at best = inf, counter 0, not stopped, no checkpoint |
| EarlyStopping.LossEarlyStopper.EndEpoch | train.py:255-266 | Performs the step in place; a checkpoint is saved exactly on a strict improvement and saved losses strictly decrease |
| EarlyStopping.AccuracyStep | train.py:590-610 | The best accuracy never decreases and covers this epoch; the counter resets exactly on a strict improvement and otherwise grows by 1 |
| EarlyStopping.AccuracyRunBestIsMaximum | train.py:591-592 | The best accuracy is the running maximum of 0 and every validation accuracy |
| EarlyStopping.AccuracyRunCounterCountsPlateau | train.py:590-615 | The counter is the number of trailing epochs that did not beat the best before them, and the epoch before them did |
| EarlyStopping.AccuracyEarlyStopper.constructor | train.py:310-311 | Starts at best 0, counter 0, no checkpoint |
| EarlyStopping.AccuracyEarlyStopper.EndEpoch | train.py:590-615 | Performs the step in place; saves exactly when val > best (saved accuracies strictly increase and are positive); breaks exactly when the counter reaches the patience |
| Evaluation.Predict | train.py:735 | One 0/1 prediction per row |
| Evaluation.ArgmaxPicksLargest | train.py:735 | `torch.max(row, 1)` returns the first index of a maximal logit: every logit is at most the chosen one, and every logit before it is strictly smaller |
| Evaluation.DividingKeepsArgmax | train.py:733-735 | Dividing the logits by a positive count does not change the arg-max |
| Evaluation.AveragingKeepsPredictions | train.py:730-735 | Predictions from the averaged logits equal predictions from the summed logits |
| Evaluation.SingleDrawIsDirect | train.py:713-733 | With one draw the averaged logits are that draw's outputs |
| Evaluation.AverageLogits | train.py:701-733 | The in-place buffer ends as the sum of the draws' outputs divided by the number of draws |
| Evaluation.CountCorrect | train.py:737 | Correct predictions are at most the labels, and equal them exactly when every prediction is right |
| Evaluation.BatchPredictions | train.py:735 | One 0/1 prediction per label |
| Evaluation.LoaderCorrect | train.py:737 | The correct count over the loader is at most the total |
| Evaluation.LoaderF1 | train.py:740-741 | The summed batch F1 lies in [0, number of batches) |
| Evaluation.Evaluate | train.py:677-746 | Fails exactly when the loader has no label; otherwise accuracy in [0,100] and mean F1 in [0,1) |
| Evaluation.EvaluateModel | train.py:677-746 | The loop over batches computes exactly `Evaluate` |
| Pretraining.EpochTotalsOf | train.py:131-214 | A frozen network takes no optimizer step and adds nothing to its loss totals, an active one steps once per batch; counters stay consistent; one node count per batch |
| Pretraining.AccumulateBatch | train.py:146-214 | The batch body performs exactly one accumulator update |
| Pretraining.RunPretrainEpoch | train.py:141-214 | The batch loop computes exactly the epoch's accumulators |
| Pretraining.EpochRow | train.py:239-249 | The row is numbered epoch+1, has an accuracy in [0,100], and zero totals give zero averages |
| Pretraining.EpochStep | train.py:123-297 | Once halted nothing changes; an empty loader fails without a row; otherwise exactly one row is appended and earlier rows are kept |
| Pretraining.FinishEpoch | train.py:239-297 | The row is appended, each monitor steps on its own average, the step counts add up, and each network's checkpoint log gains the new average exactly when it beats the best loss |
| Pretraining.CompletedEpochRow | train.py:243-297 | A completed epoch logs a row numbered after the previous ones with accuracy in [0,100], and each monitor steps on its own average |
| Pretraining.CompletedEpochSteps | train.py:163-214 | A frozen network reports zero losses and takes no step during the epoch; an active one steps once per batch |
| Pretraining.HaltedRunStaysPut | train.py:123-126 | Once both networks are frozen (or an epoch failed) later epochs change nothing |
| Pretraining.RunPastHalt | train.py:123-126 | Breaking at a halted epoch yields the same state as running the remaining epochs |
| Pretraining.PretrainLogShape | train.py:287-297 | Rows are numbered 1, 2, ... in order, at most one per epoch, accuracy in [0,100]; a run that did not halt logged every epoch |
| Pretraining.FrozenStaysFrozen | train.py:264-279 | A frozen network stays frozen for the rest of the run |
| Pretraining.FrozenNetworkCheckpointsAgain | train.py:239-260 | A frozen generator whose best loss is positive sees 0.0 as an improvement: best 0.0, counter 0, still frozen, and its checkpoint is saved again at loss 0.0 |
| Pretraining.SaveKeepsCheckpointLog | train.py:256-273 | One end-of-epoch check keeps a checkpoint log strictly decreasing and ending in the monitor's best loss |
| Pretraining.PretrainCheckpoints | train.py:239-279 | Over a whole run each network's checkpoints are saved at strictly decreasing losses, at most one per logged epoch, and the last one saved is the best loss |
| Pretraining.EndPretrainEpoch | train.py:239-297 | The end of an epoch forms the row and steps both monitors in place; each network's checkpoint is saved, and its log extended by its average, exactly when the average beats its best loss |
| Pretraining.PretrainEpoch | train.py:128-297 | One epoch run in place is exactly `EpochStep`: monitors, row, step counts and checkpoint logs; a checkpoint is saved exactly when the network's average beats its best loss |
| Pretraining.TrainGan | train.py:88-297 | The loop's rows, failure, step counts and the losses of the saved checkpoints are exactly the run function's |
| CombinedTraining.MeanBetween | train.py:459-460 | The mean over the noise draws lies between the smallest and largest loss |
| CombinedTraining.SingleDrawLosses | train.py:459-463 | With one draw, g_loss = adv + alpha * clf of that draw |
| CombinedTraining.TrainPredictions | train.py:514 | One 0/1 training prediction per output row |
| CombinedTraining.BatchCorrect | train.py:514-515 | A batch's correct count is at most its labels |
| CombinedTraining.BatchF1 | train.py:518-519 | A batch's F1 lies in [0,1) |
| CombinedTraining.TrainTotalsOf | train.py:367-519 | correct_train <= total_train; summed F1 in [0, batches); per batch the critic, generator and classifier step in that order |
| CombinedTraining.StepsInOrder | train.py:422-510 | One more batch's three steps keep the step log in critic, generator, classifier order |
| CombinedTraining.TrainBatch | train.py:389-519 | One batch's body performs exactly one accumulator update: critic, generator and classifier steps in that order, then the batch's correct count, label count and F1 |
| CombinedTraining.RunCombinedEpoch | train.py:375-519 | The batch loop computes exactly the epoch's accumulators |
| CombinedTraining.CombinedStart | train.py:334-355 | The baseline is logged as row 0 without losses and with every metric in range, or the run fails on an empty loader |
| CombinedTraining.EpochRow | train.py:547-588 | The row is numbered epoch+1, carries losses, the validation and test accuracies, and every metric in range |
| CombinedTraining.FinishEpoch | train.py:563-615 | The row is appended, the monitor steps, the checkpoint is replaced exactly on a strict improvement (0-based epoch, val and test accuracy), the loop breaks exactly at the patience |
| CombinedTraining.CombinedStep | train.py:361-615 | Once halted, nothing changes |
| CombinedTraining.EpochFailsOnNoLabels | train.py:548-555 | An epoch fails exactly when the train, validation or test loader has no label; otherwise one row is appended |
| CombinedTraining.RunPastHalt | train.py:612-615 | Breaking yields the same state as running the remaining epochs |
| CombinedTraining.ValSeries | train.py:580 | One validation accuracy per completed epoch |
| CombinedTraining.StartShaped | train.py:334-355 | The start state has a well-formed log and no checkpoint with best 0 |
| CombinedTraining.FinishKeepsShape | train.py:573-615 | A completed epoch keeps the log well formed and the monitor equal to the run over the logged validation accuracies |
| CombinedTraining.FinishKeepsBest | train.py:590-607 | A completed epoch keeps the checkpoint on the first epoch with the highest validation accuracy above 0, with that epoch's test accuracy |
| CombinedTraining.StepKeepsInvariants | train.py:361-615 | Every epoch keeps the log shape and the best checkpoint |
| CombinedTraining.EpochKeepsInvariants | train.py:361-615 | An epoch that runs keeps the log shape and the best checkpoint |
| CombinedTraining.CombinedRunInvariants | train.py:341-615 | Over a whole run: row i is epoch i, only row 0 lacks losses, metrics in range, the monitor is the run over the validation accuracies, after any completed epoch the loop breaks exactly when the counter reaches the patience, the checkpoint is the best epoch, and a run that neither failed nor broke logged every epoch |
| CombinedTraining.EndCombinedEpoch | train.py:563-615 | The end of an epoch in place is exactly `FinishEpoch` |
| CombinedTraining.TrainCombined | train.py:301-618 | The loop's rows, checkpoint, scheduler steps and failure are exactly the run function's |

## Left out

- Networks, optimizers, schedulers, losses, the gradient penalty (`compute_gradient_penalty`), `wasserstein_loss` and the renderer are opaque. Their outputs are inputs of the model, and their steps are counted.
- Random noise, device moves, `.item()` conversions and floating-point rounding are not modelled. Losses, scores and logits are exact reals.
- CSV writing, `torch.save` of the weights, image output, timing and printing are I/O. The log is a sequence of rows and a checkpoint is a record.
- The commented-out `evaluate_model` (train.py:621-674) is not modelled.
- The node counts of the combined loop and of `evaluate_model` (train.py:384-387, 691-694) only feed the generator and the renderer, whose outputs are inputs of the model. They are not modelled there; only pretraining computes them, with `NodeCount.NumNodesBatch`.
- Pretraining.TrainGan: a batch with no critic scores at all contributes nothing. `median()` of an empty tensor is NaN, every comparison with NaN is false and both `numel()` counts are 0, so this is exactly what the code does; the NaN itself is not modelled.
- Evaluation.EvaluateModel: requires at least one noise draw and well-shaped outputs (one logits row per label, binary labels); with 0 draws the code divides the logits by 0.0 and yields NaN, which is not modelled.
- CombinedTraining.TrainCombined: requires at least one noise draw, because `torch.stack` of an empty list raises. It requires batch shapes the tensors guarantee.
- CombinedTraining.TrainCombined: does not model that the classifier images are rendered from the critic step's layouts (train.py:442) rather than the generator step's. Only the resulting outputs are inputs.
- CombinedTraining.TrainCombined: the order in which the failure cases are raised (train accuracy before evaluation) is not distinguished; every one of them fails the run.
- F1Score.CalculateF1: the strict bound F1, precision, recall < 1 holds over exact reals only. In float32 the 1e-8 guard is below half an ulp of 1.0 and is absorbed, so a batch with every prediction right gives exactly 1.0. The same holds for `F1Score.ScoresOf` and `F1Score.HarmonicBelowOne`.
- Evaluation.Evaluate: the mean F1 below 1 is the same exact-real bound; in float32 it can reach 1.0.
- CombinedTraining.RowInRange: its F1 bound below 1, and the one of `CombinedTraining.BatchF1`, are the same exact-real bound; in float32 they can reach 1.0.
- Pretraining.PretrainLogShape: states at most one row per epoch and one row for every epoch of a run that did not halt, not the exact index of a halted run's last row.
