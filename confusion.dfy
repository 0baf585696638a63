/**
  sklearn's `confusion_matrix(y_true, y_pred)` by its counting meaning, over the fixed label
  codes 0 (drums) and 1 (keys): cell [a][p] is the number of positions whose actual code is `a`
  and whose predicted code is `p`; rows are actual, columns predicted.
 */
module Confusion {

  /** True when every code in `ys` is one of the two label codes. */
  predicate BinaryCodes(ys: seq<int>)
  {
    forall i :: 0 <= i < |ys| ==> ys[i] == 0 || ys[i] == 1
  }

  /** The number of positions `i` with `yTrue[i] == a` and `yPred[i] == p`, counted in order. */
  function PairCount(yTrue: seq<int>, yPred: seq<int>, a: int, p: int): nat
    requires |yTrue| == |yPred|
  {
    if |yTrue| == 0 then 0
    else
      var n := |yTrue| - 1;
      PairCount(yTrue[..n], yPred[..n], a, p) + (if yTrue[n] == a && yPred[n] == p then 1 else 0)
  }

  /** The positions a confusion-matrix cell counts. */
  ghost function Matching(yTrue: seq<int>, yPred: seq<int>, a: int, p: int): set<nat>
    requires |yTrue| == |yPred|
  {
    set i: nat | i < |yTrue| && yTrue[i] == a && yPred[i] == p
  }

  /** Counting in order finds exactly the positions the cell stands for. */
  lemma {:induction false} PairCountIsCardinality(yTrue: seq<int>, yPred: seq<int>, a: int, p: int)
    requires |yTrue| == |yPred|
    ensures PairCount(yTrue, yPred, a, p) == |Matching(yTrue, yPred, a, p)|
  {
    if |yTrue| > 0 {
      var n := |yTrue| - 1;
      PairCountIsCardinality(yTrue[..n], yPred[..n], a, p);
      var before := Matching(yTrue[..n], yPred[..n], a, p);
      if yTrue[n] == a && yPred[n] == p {
        assert Matching(yTrue, yPred, a, p) == before + {n};
      } else {
        assert Matching(yTrue, yPred, a, p) == before;
      }
    }
  }

  /** The 2x2 matrix `cm`, indexed `cm[actual][predicted]`. */
  function ConfusionMatrix(yTrue: seq<int>, yPred: seq<int>): (cm: seq<seq<nat>>)
    requires |yTrue| == |yPred|
    ensures |cm| == 2 && |cm[0]| == 2 && |cm[1]| == 2
    ensures forall a, p :: 0 <= a < 2 && 0 <= p < 2 ==> cm[a][p] == |Matching(yTrue, yPred, a, p)|
  {
    PairCountIsCardinality(yTrue, yPred, 0, 0);
    PairCountIsCardinality(yTrue, yPred, 0, 1);
    PairCountIsCardinality(yTrue, yPred, 1, 0);
    PairCountIsCardinality(yTrue, yPred, 1, 1);
    [ [PairCount(yTrue, yPred, 0, 0), PairCount(yTrue, yPred, 0, 1)],
      [PairCount(yTrue, yPred, 1, 0), PairCount(yTrue, yPred, 1, 1)] ]
  }

  /** With binary predictions, row `a` sums to the number of queries whose actual code is `a`. */
  lemma {:induction false} RowSum(yTrue: seq<int>, yPred: seq<int>, a: int)
    requires |yTrue| == |yPred| && BinaryCodes(yPred)
    ensures PairCount(yTrue, yPred, a, 0) + PairCount(yTrue, yPred, a, 1) == multiset(yTrue)[a]
  {
    if |yTrue| > 0 {
      var n := |yTrue| - 1;
      RowSum(yTrue[..n], yPred[..n], a);
      assert yTrue == yTrue[..n] + [yTrue[n]];
    }
  }

  /** With binary codes on both sides, the four cells sum to the number of queries. */
  lemma MatrixTotal(yTrue: seq<int>, yPred: seq<int>)
    requires |yTrue| == |yPred| && BinaryCodes(yTrue) && BinaryCodes(yPred)
    ensures var cm := ConfusionMatrix(yTrue, yPred);
      cm[0][0] + cm[0][1] + cm[1][0] + cm[1][1] == |yTrue|
  {
    RowSum(yTrue, yPred, 0);
    RowSum(yTrue, yPred, 1);
    BinaryMultiset(yTrue);
  }

  /** A sequence of binary codes consists of its zeros and its ones. */
  lemma {:induction false} BinaryMultiset(ys: seq<int>)
    requires BinaryCodes(ys)
    ensures multiset(ys)[0] + multiset(ys)[1] == |ys|
  {
    if |ys| > 0 {
      var n := |ys| - 1;
      BinaryMultiset(ys[..n]);
      assert ys == ys[..n] + [ys[n]];
    }
  }
}
