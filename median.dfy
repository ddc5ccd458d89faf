/**
 The pretraining loop's discriminator accuracy. It has no ground truth for
 "real or fake", so it concatenates the real and the fake critic scores of a
 batch, takes their median as a threshold (torch's median returns the lower
 of the two middle values), counts a real sample correct when its score is
 strictly above the threshold and a fake sample correct when its score is at
 or below it.
 */
module MedianThreshold {
  import Ratios

  predicate Sorted(s: seq<real>) {
    forall i, j :: 0 <= i < j < |s| ==> s[i] <= s[j]
  }

  /** Inserts x into a sorted sequence; the first element is the smaller of x and the old first. */
  function Insert(x: real, s: seq<real>): (r: seq<real>)
    requires Sorted(s)
    ensures Sorted(r)
    ensures |r| == |s| + 1
    ensures r[0] == if |s| == 0 || x <= s[0] then x else s[0]
    ensures multiset(r) == multiset(s) + multiset{x}
  {
    if |s| == 0 then [x]
    else if x <= s[0] then [x] + s
    else
      var rest := Insert(x, s[1..]);
      assert s == [s[0]] + s[1..];
      assert s[0] <= rest[0];
      [s[0]] + rest
  }

  /** The scores in ascending order. */
  function SortScores(s: seq<real>): (r: seq<real>)
    ensures Sorted(r)
    ensures |r| == |s|
    ensures multiset(r) == multiset(s)
  {
    if |s| == 0 then []
    else
      assert s == [s[0]] + s[1..];
      Insert(s[0], SortScores(s[1..]))
  }

  /** The number of scores strictly above t. */
  function CountAbove(s: seq<real>, t: real): (n: nat)
    ensures n <= |s|
  {
    if |s| == 0 then 0 else (if s[0] > t then 1 else 0) + CountAbove(s[1..], t)
  }

  /** The number of scores strictly below t. */
  function CountBelow(s: seq<real>, t: real): (n: nat)
    ensures n <= |s|
  {
    if |s| == 0 then 0 else (if s[0] < t then 1 else 0) + CountBelow(s[1..], t)
  }

  lemma {:induction false} CountAboveAppend(a: seq<real>, b: seq<real>, t: real)
    ensures CountAbove(a + b, t) == CountAbove(a, t) + CountAbove(b, t)
  {
    if |a| > 0 {
      assert (a + b)[1..] == a[1..] + b;
      CountAboveAppend(a[1..], b, t);
    } else {
      assert a + b == b;
    }
  }

  lemma {:induction false} CountsOfInsert(x: real, s: seq<real>, t: real)
    requires Sorted(s)
    ensures CountAbove(Insert(x, s), t) == CountAbove(s, t) + (if x > t then 1 else 0)
    ensures CountBelow(Insert(x, s), t) == CountBelow(s, t) + (if x < t then 1 else 0)
  {
    if |s| > 0 && x > s[0] {
      CountsOfInsert(x, s[1..], t);
      assert ([s[0]] + Insert(x, s[1..]))[1..] == Insert(x, s[1..]);
    } else if |s| > 0 {
      assert ([x] + s)[1..] == s;
    }
  }

  /** Sorting does not change how many scores lie above or below a threshold. */
  lemma {:induction false} CountsOfSort(s: seq<real>, t: real)
    ensures CountAbove(SortScores(s), t) == CountAbove(s, t)
    ensures CountBelow(SortScores(s), t) == CountBelow(s, t)
  {
    if |s| > 0 {
      CountsOfSort(s[1..], t);
      CountsOfInsert(s[0], SortScores(s[1..]), t);
    }
  }

  /** If the first m scores are at most t, at most |s| - m scores lie above t. */
  lemma {:induction false} FewAbove(s: seq<real>, m: nat, t: real)
    requires m <= |s|
    requires forall j :: 0 <= j < m ==> s[j] <= t
    ensures CountAbove(s, t) <= |s| - m
  {
    if m > 0 {
      FewAbove(s[1..], m - 1, t);
    }
  }

  /** If every score from index m on is at least t, at most m scores lie below t. */
  lemma {:induction false} FewBelow(s: seq<real>, m: nat, t: real)
    requires m <= |s|
    requires forall j :: m <= j < |s| ==> s[j] >= t
    ensures CountBelow(s, t) <= m
  {
    if |s| > 0 {
      if m > 0 {
        FewBelow(s[1..], m - 1, t);
      } else {
        FewBelow(s[1..], 0, t);
      }
    }
  }

  /**
   `median()` of a non-empty tensor: the lower middle value of the sorted
   scores. It is one of the scores, at most half of the scores (rounded down)
   lie strictly above it and at most half of the others lie strictly below it,
   which is what makes it a lower median.
   */
  function Median(s: seq<real>): (m: real)
    requires |s| > 0
    ensures m in s
    ensures CountAbove(s, m) <= |s| / 2
    ensures CountBelow(s, m) <= (|s| - 1) / 2
  {
    var r := SortScores(s);
    var k := (|s| - 1) / 2;
    MedianRank(s, r, k);
    r[k]
  }

  lemma MedianRank(s: seq<real>, r: seq<real>, k: nat)
    requires r == SortScores(s) && k == (|s| - 1) / 2 && |s| > 0
    ensures k < |r| && r[k] in s
    ensures CountAbove(s, r[k]) <= |s| / 2
    ensures CountBelow(s, r[k]) <= (|s| - 1) / 2
  {
    MedianIsAScore(s, r, k);
    SortedAround(r, k);
    FewAbove(r, k + 1, r[k]);
    FewBelow(r, k, r[k]);
    CountsOfSort(s, r[k]);
  }

  lemma MedianIsAScore(s: seq<real>, r: seq<real>, k: nat)
    requires r == SortScores(s) && k < |s|
    ensures k < |r| && r[k] in s
  {
    assert r[k] in multiset(r);
    assert r[k] in multiset(s);
  }

  lemma SortedAround(r: seq<real>, k: nat)
    requires Sorted(r) && k < |r|
    ensures forall j :: 0 <= j < k + 1 ==> r[j] <= r[k]
    ensures forall j :: k <= j < |r| ==> r[j] >= r[k]
  {
  }

  /** The discriminator accuracy counters of the pretraining loop. */
  datatype DiscCounts = DiscCounts(correctReal: nat, correctFake: nat, totalReal: nat, totalFake: nat)

  const NoCounts := DiscCounts(0, 0, 0, 0)

  /** No counter claims more correct samples than it has seen. */
  predicate Consistent(c: DiscCounts) {
    c.correctReal <= c.totalReal && c.correctFake <= c.totalFake
  }

  /**
   One batch's contribution to the counters. Every real and every fake sample
   is counted once; against the lower-median threshold at most half of the
   batch (rounded down) is called real. A batch without scores contributes
   nothing.
   */
  function BatchCounts(realScores: seq<real>, fakeScores: seq<real>): (c: DiscCounts)
    ensures c.totalReal == |realScores| && c.totalFake == |fakeScores|
    ensures Consistent(c)
    ensures c.correctReal + (c.totalFake - c.correctFake) <= (c.totalReal + c.totalFake) / 2
  {
    var all := realScores + fakeScores;
    if |all| == 0 then NoCounts
    else
      var threshold := Median(all);
      CountAboveAppend(realScores, fakeScores, threshold);
      DiscCounts(
        CountAbove(realScores, threshold),
        |fakeScores| - CountAbove(fakeScores, threshold),
        |realScores|,
        |fakeScores|)
  }

  /** The counters after one more batch. */
  function AddCounts(a: DiscCounts, b: DiscCounts): (c: DiscCounts)
    ensures Consistent(a) && Consistent(b) ==> Consistent(c)
    ensures c.totalReal + c.totalFake == a.totalReal + a.totalFake + b.totalReal + b.totalFake
  {
    DiscCounts(a.correctReal + b.correctReal, a.correctFake + b.correctFake,
               a.totalReal + b.totalReal, a.totalFake + b.totalFake)
  }

  /**
   The epoch's discriminator accuracy: the percentage of correct samples, or
   0.0 when no sample was seen. It lies in [0, 100] whenever the counters are
   consistent.
   */
  function DiscriminatorAccuracy(c: DiscCounts): (acc: real)
    ensures c.totalReal + c.totalFake == 0 ==> acc == 0.0
    ensures Consistent(c) ==> 0.0 <= acc <= 100.0
  {
    if c.totalReal + c.totalFake > 0 then
      Ratios.Percent(c.correctReal + c.correctFake, c.totalReal + c.totalFake)
    else 0.0
  }
}
