/**
 Early stopping and checkpointing. The pretraining loop keeps, for the
 generator and for the discriminator separately, the best epoch-average loss
 so far (initially infinity), a count of epochs without improvement and a
 sticky "stop updating this network" flag. The combined loop keeps one best
 validation accuracy (initially 0) and one count, and leaves the epoch loop
 once the count reaches the patience.

 Each monitor is a pure step function, whose properties are proved as lemmas
 over whole runs, and a class whose `EndEpoch` method performs that step in
 place and records every checkpoint it saves.
 */
module EarlyStopping {

  // ----- Pretraining: per-network monitor of the epoch-average loss -----

  /** The best loss so far; `Unset` stands for the initial `float('inf')`. */
  datatype Best = Unset | Loss(value: real)

  /** `avg < best`, with `Unset` above every real. */
  predicate Improves(avg: real, best: Best) {
    best.Unset? || avg < best.value
  }

  /** a <= b, with `Unset` above every real. */
  predicate NoWorse(a: Best, b: Best) {
    b.Unset? || (a.Loss? && a.value <= b.value)
  }

  datatype LossMonitor = LossMonitor(best: Best, counter: nat, stopped: bool)

  const LossStart := LossMonitor(Unset, 0, false)

  /**
   The end-of-epoch update for one network. The best loss never gets worse;
   the counter drops to 0 exactly on a strict improvement and otherwise grows
   by one; the stop flag is set once a non-improving epoch brings the counter
   to the patience, and is never cleared.
   */
  function LossStep(m: LossMonitor, avg: real, patience: int): (next: LossMonitor)
    ensures NoWorse(next.best, m.best)
    ensures next.counter == 0 <==> Improves(avg, m.best)
    ensures Improves(avg, m.best) ==> next.best == Loss(avg)
    ensures !Improves(avg, m.best) ==> next.best == m.best && next.counter == m.counter + 1
    ensures next.stopped <==> m.stopped || (!Improves(avg, m.best) && m.counter + 1 >= patience)
  {
    if Improves(avg, m.best) then LossMonitor(Loss(avg), 0, m.stopped)
    else
      var counter := m.counter + 1;
      LossMonitor(m.best, counter, m.stopped || counter >= patience)
  }

  /** The monitor after the epoch averages `avgs`, in order. */
  function LossRun(m: LossMonitor, avgs: seq<real>, patience: int): LossMonitor {
    if |avgs| == 0 then m
    else LossStep(LossRun(m, avgs[..|avgs| - 1], patience), avgs[|avgs| - 1], patience)
  }

  /** Once a network is frozen it stays frozen. */
  lemma {:induction false} LossRunSticky(m: LossMonitor, avgs: seq<real>, patience: int)
    requires m.stopped
    ensures LossRun(m, avgs, patience).stopped
  {
    if |avgs| > 0 {
      LossRunSticky(m, avgs[..|avgs| - 1], patience);
    }
  }

  /** From the start, the best loss is the minimum of the epoch averages seen. */
  lemma {:induction false} LossRunBestIsMinimum(avgs: seq<real>, patience: int)
    requires |avgs| > 0
    ensures LossRun(LossStart, avgs, patience).best.Loss?
    ensures LossRun(LossStart, avgs, patience).best.value in avgs
    ensures forall i :: 0 <= i < |avgs| ==> LossRun(LossStart, avgs, patience).best.value <= avgs[i]
  {
    var n := |avgs| - 1;
    if n > 0 {
      LossRunBestIsMinimum(avgs[..n], patience);
      var prev := LossRun(LossStart, avgs[..n], patience);
      assert forall i :: 0 <= i < n ==> avgs[..n][i] == avgs[i];
      assert prev.best.value in avgs[..n];
    }
  }

  /**
   A first epoch followed only by epochs that never beat it: after k epochs
   the counter is k - 1, and the stop flag is set exactly from epoch
   patience + 1 on.
   */
  lemma {:induction false} PlateauStopsAfterPatience(avgs: seq<real>, patience: int, k: nat)
    requires patience >= 1
    requires 1 <= k <= |avgs|
    requires forall i :: 1 <= i < |avgs| ==> avgs[i] >= avgs[0]
    ensures LossRun(LossStart, avgs[..k], patience) == LossMonitor(Loss(avgs[0]), k - 1, k - 1 >= patience)
  {
    if k > 1 {
      PlateauStopsAfterPatience(avgs, patience, k - 1);
      assert avgs[..k][..k - 1] == avgs[..k - 1];
    } else {
      assert avgs[..1][..0] == [];
    }
  }

  /**
   The generator's (or the discriminator's) early-stopping state in the
   pretraining loop. `checkpoints` records the loss of every saved
   checkpoint, in order; each one is strictly better than the one before.
   */
  class LossEarlyStopper {
    var best: Best
    var counter: nat
    var stopped: bool
    const patience: int
    ghost var checkpoints: seq<real>

    ghost predicate Valid()
      reads this
    {
      && (forall i, j :: 0 <= i < j < |checkpoints| ==> checkpoints[j] < checkpoints[i])
      && (if checkpoints == [] then best == Unset else best == Loss(checkpoints[|checkpoints| - 1]))
      && (!stopped ==> counter < patience || counter == 0)
    }

    function State(): LossMonitor
      reads this
    {
      LossMonitor(best, counter, stopped)
    }

    constructor (patience: int)
      ensures Valid()
      ensures State() == LossStart && this.patience == patience && checkpoints == []
    {
      best := Unset;
      counter := 0;
      stopped := false;
      this.patience := patience;
      checkpoints := [];
    }

    /** The end-of-epoch early-stopping check; `saved` tells whether a checkpoint was written. */
    method EndEpoch(avg: real) returns (saved: bool)
      requires Valid()
      modifies this
      ensures Valid()
      ensures State() == LossStep(old(State()), avg, patience)
      ensures saved == Improves(avg, old(best))
      ensures checkpoints == if saved then old(checkpoints) + [avg] else old(checkpoints)
    {
      if best.Unset? || avg < best.value {
        best := Loss(avg);
        counter := 0;
        checkpoints := checkpoints + [avg];
        saved := true;
      } else {
        counter := counter + 1;
        if counter >= patience {
          stopped := true;
        }
        saved := false;
      }
    }
  }

  // ----- Combined loop: one monitor of the validation accuracy -----

  datatype AccuracyMonitor = AccuracyMonitor(best: real, counter: nat)

  /** `best_accuracy = 0`, `epochs_without_improvement = 0`. */
  const AccuracyStart := AccuracyMonitor(0.0, 0)

  /**
   The end-of-epoch update on the validation accuracy: the best accuracy
   never decreases and is at least this epoch's accuracy; the counter drops
   to 0 exactly on a strict improvement and otherwise grows by one.
   */
  function AccuracyStep(m: AccuracyMonitor, val: real): (next: AccuracyMonitor)
    ensures next.best >= m.best && next.best >= val
    ensures next.best == m.best || next.best == val
    ensures next.counter == 0 <==> val > m.best
    ensures val <= m.best ==> next.counter == m.counter + 1
  {
    if val > m.best then AccuracyMonitor(val, 0) else AccuracyMonitor(m.best, m.counter + 1)
  }

  /** The monitor after the validation accuracies `vals`, in order, from the start. */
  function AccuracyRun(vals: seq<real>): AccuracyMonitor {
    if |vals| == 0 then AccuracyStart
    else AccuracyStep(AccuracyRun(vals[..|vals| - 1]), vals[|vals| - 1])
  }

  /** The best accuracy is the running maximum of 0 and every accuracy seen. */
  lemma {:induction false} AccuracyRunBestIsMaximum(vals: seq<real>)
    ensures AccuracyRun(vals).best == 0.0 || AccuracyRun(vals).best in vals
    ensures AccuracyRun(vals).best >= 0.0
    ensures forall i :: 0 <= i < |vals| ==> vals[i] <= AccuracyRun(vals).best
  {
    if |vals| > 0 {
      var n := |vals| - 1;
      AccuracyRunBestIsMaximum(vals[..n]);
      assert forall i :: 0 <= i < n ==> vals[..n][i] == vals[i];
    }
  }

  /**
   The counter is the number of consecutive epochs, up to the last one, that
   did not beat the best accuracy before them; the epoch just before those
   (if any) did beat it, so a checkpoint was saved there.
   */
  lemma {:induction false} AccuracyRunCounterCountsPlateau(vals: seq<real>)
    ensures AccuracyRun(vals).counter <= |vals|
    ensures forall i :: |vals| - AccuracyRun(vals).counter <= i < |vals| ==>
      vals[i] <= AccuracyRun(vals[..i]).best
    ensures AccuracyRun(vals).counter < |vals| ==>
      var j := |vals| - AccuracyRun(vals).counter - 1;
      vals[j] > AccuracyRun(vals[..j]).best
  {
    var n := |vals|;
    if n > 0 {
      var prefix := vals[..n - 1];
      AccuracyRunCounterCountsPlateau(prefix);
      assert forall i :: 0 <= i <= n - 1 ==> vals[..i] == prefix[..i];
      assert vals[..n - 1] == prefix;
    }
  }

  /** The combined loop leaves the epoch loop once this holds. */
  predicate ShouldStop(m: AccuracyMonitor, patience: int) {
    m.counter >= patience
  }

  /**
   The combined loop's early-stopping state. `checkpoints` records the
   validation accuracy of every saved checkpoint (all three networks and all
   three optimizers); each is strictly higher than the one before and than 0.
   `stopped` records that the loop has been left.
   */
  class AccuracyEarlyStopper {
    var best: real
    var counter: nat
    var stopped: bool
    const patience: int
    ghost var checkpoints: seq<real>

    ghost predicate Valid()
      reads this
    {
      && (forall i, j :: 0 <= i < j < |checkpoints| ==> checkpoints[i] < checkpoints[j])
      && (forall i :: 0 <= i < |checkpoints| ==> checkpoints[i] > 0.0)
      && best == (if checkpoints == [] then 0.0 else checkpoints[|checkpoints| - 1])
      && (stopped ==> counter >= patience)
    }

    function State(): AccuracyMonitor
      reads this
    {
      AccuracyMonitor(best, counter)
    }

    constructor (patience: int)
      ensures Valid()
      ensures State() == AccuracyStart && this.patience == patience && checkpoints == []
      ensures stopped == false
    {
      best := 0.0;
      counter := 0;
      stopped := false;
      this.patience := patience;
      checkpoints := [];
    }

    /**
     The end-of-epoch check on the validation accuracy: `saved` tells whether
     the checkpoint was written, `stop` whether the loop breaks.
     */
    method EndEpoch(val: real) returns (saved: bool, stop: bool)
      requires Valid() && !stopped
      modifies this
      ensures Valid()
      ensures State() == AccuracyStep(old(State()), val)
      ensures saved == (val > old(best))
      ensures checkpoints == if saved then old(checkpoints) + [val] else old(checkpoints)
      ensures stop == stopped == ShouldStop(State(), patience)
    {
      if val > best {
        best := val;
        counter := 0;
        checkpoints := checkpoints + [val];
        saved := true;
      } else {
        counter := counter + 1;
        saved := false;
      }
      stop := counter >= patience;
      stopped := stop;
    }
  }
}
