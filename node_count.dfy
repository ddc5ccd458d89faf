/**
 The node count of a zero-padded layout. A layout is one row of coordinates
 per node slot; absent nodes are padded with all-zero rows. The training and
 evaluation code derive `num_nodes[i]` as the number of rows of graph i whose
 L2 norm is greater than 0. Over the reals the norm is positive exactly when
 the sum of squares is, so the mask is modelled on the sum of squares.
 */
module NodeCount {
  import Ratios

  /** The square of one coordinate. */
  function Square(x: real): real {
    x * x
  }

  /** A square is never negative, and is positive exactly for a non-zero coordinate. */
  lemma SquareSign(x: real)
    ensures Square(x) >= 0.0
    ensures Square(x) > 0.0 <==> x != 0.0
  {
    if x != 0.0 {
      var a := if x < 0.0 then -x else x;
      calc {
        Square(x);
      ==
        a * a;
      >  { Ratios.ProductOfPositives(a, a); }
        0.0;
      }
    }
  }

  /** The squared L2 norm of one coordinate row. */
  function SquaredNorm(row: seq<real>): (r: real)
    ensures r >= 0.0
  {
    if |row| == 0 then 0.0
    else SquareSign(row[0]); Square(row[0]) + SquaredNorm(row[1..])
  }

  /** The mask entry `torch.norm(row) > 0`. */
  predicate IsRealNode(row: seq<real>) {
    SquaredNorm(row) > 0.0
  }

  /** Reference definition: some coordinate of the row is non-zero. */
  predicate HasNonZeroCoordinate(row: seq<real>) {
    exists j :: 0 <= j < |row| && row[j] != 0.0
  }

  /** The norm mask and the coordinate test agree on every row. */
  lemma {:induction false} NormPositiveIffNonZero(row: seq<real>)
    ensures IsRealNode(row) <==> HasNonZeroCoordinate(row)
  {
    if |row| > 0 {
      var rest := row[1..];
      NormPositiveIffNonZero(rest);
      SquareSign(row[0]);
      if row[0] != 0.0 {
        assert HasNonZeroCoordinate(row) by { assert row[0] != 0.0; }
      } else {
        if HasNonZeroCoordinate(rest) {
          var j :| 0 <= j < |rest| && rest[j] != 0.0;
          assert row[j + 1] != 0.0;
        }
        if HasNonZeroCoordinate(row) {
          var j :| 0 <= j < |row| && row[j] != 0.0;
          assert rest[j - 1] != 0.0;
        }
      }
    }
  }

  /** `non_zero_nodes_mask.sum()` for one graph: the rows with positive norm. */
  function NumNodes(layout: seq<seq<real>>): (n: nat)
    ensures n <= |layout|
  {
    if |layout| == 0 then 0
    else NumNodes(layout[..|layout| - 1]) + (if IsRealNode(layout[|layout| - 1]) then 1 else 0)
  }

  /** `num_nodes` for a whole batch: one count per graph. */
  function NumNodesBatch(batch: seq<seq<seq<real>>>): (counts: seq<nat>)
    ensures |counts| == |batch|
    ensures forall i :: 0 <= i < |batch| ==> counts[i] <= |batch[i]|
  {
    seq(|batch|, i requires 0 <= i < |batch| => NumNodes(batch[i]))
  }

  /** The slots of a layout holding a node with a non-zero coordinate. */
  ghost function NodeSlots(layout: seq<seq<real>>): set<int> {
    set i | 0 <= i < |layout| && HasNonZeroCoordinate(layout[i])
  }

  /** `num_nodes[i]` is the number of slots of graph i with a non-zero coordinate. */
  lemma {:induction false} NumNodesCountsNodeSlots(layout: seq<seq<real>>)
    ensures NumNodes(layout) == |NodeSlots(layout)|
  {
    if |layout| > 0 {
      var n := |layout| - 1;
      var prefix := layout[..n];
      NumNodesCountsNodeSlots(prefix);
      NormPositiveIffNonZero(layout[n]);
      if HasNonZeroCoordinate(layout[n]) {
        assert NodeSlots(layout) == NodeSlots(prefix) + {n};
      } else {
        assert NodeSlots(layout) == NodeSlots(prefix);
      }
    }
  }

  /** A graph whose every row is all zeros has no nodes. */
  lemma {:induction false} AllZeroLayoutHasNoNodes(layout: seq<seq<real>>)
    requires forall i, j :: 0 <= i < |layout| && 0 <= j < |layout[i]| ==> layout[i][j] == 0.0
    ensures NumNodes(layout) == 0
  {
    if |layout| > 0 {
      var n := |layout| - 1;
      AllZeroLayoutHasNoNodes(layout[..n]);
      NormPositiveIffNonZero(layout[n]);
    }
  }

  /**
   A layout whose first k rows are real nodes and whose remaining rows are
   zero padding has exactly k nodes.
   */
  lemma {:induction false} PaddedLayoutCount(layout: seq<seq<real>>, k: nat)
    requires k <= |layout|
    requires forall i :: 0 <= i < k ==> HasNonZeroCoordinate(layout[i])
    requires forall i, j :: k <= i < |layout| && 0 <= j < |layout[i]| ==> layout[i][j] == 0.0
    ensures NumNodes(layout) == k
  {
    if |layout| > 0 {
      var n := |layout| - 1;
      NormPositiveIffNonZero(layout[n]);
      if k == |layout| {
        PaddedLayoutCount(layout[..n], n);
      } else {
        PaddedLayoutCount(layout[..n], k);
      }
    }
  }
}
