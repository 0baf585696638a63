/**
  The evaluation loop shared by both evaluation scripts: each labelled query is retrieved with
  `top_k = 5`, its result classes are reduced to one prediction by majority vote, both the
  ground truth and the prediction are encoded with LABEL_MAP into `y_true` / `y_pred`, and the
  two lists are counted into a confusion matrix. The retrieval function is a parameter: the
  model only sees what it returns.
 */
module Evaluation {
  import opened Wrappers
  import opened Labels
  import MajorityVote
  import Confusion

  /** The Python exceptions the loop can raise. */
  datatype Error =
    | IndexError          // `most_common(1)[0]` on an empty result list
    | KeyError(key: string)  // `LABEL_MAP[x]` for a class string that is not a key

  /** One `(query, true_class)` pair of EVAL_QUERIES. */
  datatype EvalQuery = EvalQuery(text: string, truth: string)

  /** The `top_k` default that every evaluation call passes through. */
  const DefaultTopK: int := 5

  /** The class of every result, in result order (the list comprehension of `predict_class`). */
  function Classes<R>(results: seq<R>, classOf: R -> string): seq<string>
  {
    seq(|results|, i requires 0 <= i < |results| => classOf(results[i]))
  }

  /** Every class in the comprehension is the class of some result. */
  lemma ClassOccurs<R>(results: seq<R>, classOf: R -> string, c: string)
    requires c in Classes(results, classOf)
    ensures exists i :: 0 <= i < |results| && classOf(results[i]) == c
  {
    var cs := Classes(results, classOf);
    var i :| 0 <= i < |cs| && cs[i] == c;
  }

  /** When every result has the same class, the prediction is that class. */
  lemma UnanimousPrediction<R>(retrieve: (string, int) -> seq<R>, classOf: R -> string, query: string, topK: int,
                               name: string)
    requires |retrieve(query, topK)| > 0
    requires forall i :: 0 <= i < |retrieve(query, topK)| ==> classOf(retrieve(query, topK)[i]) == name
    ensures PredictClass(retrieve, classOf, query, topK) == Success(name)
  {
    MajorityVote.UnanimousVote(Classes(retrieve(query, topK), classOf), name);
  }

  /** The ground-truth strings of a query list, in order. */
  function Truths(queries: seq<EvalQuery>): seq<string>
  {
    seq(|queries|, i requires 0 <= i < |queries| => queries[i].truth)
  }

  /** `predict_class`: retrieve, take the class of each result, return the most common one. */
  function PredictClass<R>(retrieve: (string, int) -> seq<R>, classOf: R -> string, query: string, topK: int)
    : (r: Result<string, Error>)
    ensures r.Failure? <==> |retrieve(query, topK)| == 0
    ensures r.Failure? ==> r.error == IndexError
    ensures r.Success? ==> MajorityVote.IsMostCommon(Classes(retrieve(query, topK), classOf), r.value)
  {
    match MajorityVote.MostCommon(Classes(retrieve(query, topK), classOf))
    case None => Failure(IndexError)
    case Some(c) => Success(c)
  }

  /** A query's ground truth beside the outcome of its majority vote. */
  datatype Outcome = Outcome(truth: string, pred: Result<string, Error>)

  /** The vote of every query, retrieved with the default `top_k`, in query order. */
  function Outcomes<R>(retrieve: (string, int) -> seq<R>, classOf: R -> string, queries: seq<EvalQuery>): seq<Outcome>
  {
    seq(|queries|, i requires 0 <= i < |queries| =>
      Outcome(queries[i].truth, PredictClass(retrieve, classOf, queries[i].text, DefaultTopK)))
  }

  /**
    The rest of one iteration once the vote is known: `LABEL_MAP[true_class]`, then
    `LABEL_MAP[pred_class]`; the first step that raises decides the error.
   */
  function Step(o: Outcome): (r: Result<(int, int), Error>)
    ensures r.Success? <==> o.pred.Success? && o.truth in LabelMap && o.pred.value in LabelMap
    ensures o.pred.Failure? ==> r == Failure(o.pred.error)
    ensures o.pred.Success? && o.truth !in LabelMap ==> r == Failure(KeyError(o.truth))
    ensures o.pred.Success? && o.truth in LabelMap && o.pred.value !in LabelMap ==> r == Failure(KeyError(o.pred.value))
  {
    match o.pred
    case Failure(e) => Failure(e)
    case Success(pred) =>
      if o.truth !in LabelMap then Failure(KeyError(o.truth))
      else if pred !in LabelMap then Failure(KeyError(pred))
      else Success((LabelMap[o.truth], LabelMap[pred]))
  }

  /** The lists `y_true` and `y_pred` after the loop, or the error it raised first. */
  function Encoded(outcomes: seq<Outcome>): (r: Result<(seq<int>, seq<int>), Error>)
    ensures r.Success? <==> forall i :: 0 <= i < |outcomes| ==> Step(outcomes[i]).Success?
    ensures r.Success? ==> |r.value.0| == |outcomes| && |r.value.1| == |outcomes|
    ensures r.Success? ==> forall i :: 0 <= i < |outcomes| ==> Step(outcomes[i]) == Success((r.value.0[i], r.value.1[i]))
  {
    if |outcomes| == 0 then Success(([], []))
    else Append(Encoded(outcomes[..|outcomes| - 1]), Step(outcomes[|outcomes| - 1]))
  }

  /** One more iteration: the lists grow by the step's codes, or the first error stays. */
  function Append(acc: Result<(seq<int>, seq<int>), Error>, step: Result<(int, int), Error>)
    : Result<(seq<int>, seq<int>), Error>
  {
    match acc
    case Failure(e) => Failure(e)
    case Success((yTrue, yPred)) =>
      match step
      case Failure(e) => Failure(e)
      case Success((a, p)) => Success((yTrue + [a], yPred + [p]))
  }

  /** One more iteration of the loop: append that query's codes to both lists, or keep the first error. */
  lemma EncodedNext(outcomes: seq<Outcome>, i: nat)
    requires i < |outcomes|
    ensures Encoded(outcomes[..i + 1]) == Append(Encoded(outcomes[..i]), Step(outcomes[i]))
  {
    assert outcomes[..i + 1][..i] == outcomes[..i];
  }

  /** The result of `evaluate`: the confusion matrix of the encoded lists, or the error raised. */
  function EvaluationOf<R>(retrieve: (string, int) -> seq<R>, classOf: R -> string, queries: seq<EvalQuery>)
    : (r: Result<seq<seq<nat>>, Error>)
    ensures r.Success? <==> forall i :: 0 <= i < |queries| ==> Step(Outcomes(retrieve, classOf, queries)[i]).Success?
    ensures r.Success? ==> |r.value| == 2 && |r.value[0]| == 2 && |r.value[1]| == 2
  {
    match Encoded(Outcomes(retrieve, classOf, queries))
    case Failure(e) => Failure(e)
    case Success((yTrue, yPred)) => Success(Confusion.ConfusionMatrix(yTrue, yPred))
  }

  /** The loop of `evaluate` / `evaluate_model`, appending to `y_true` and `y_pred` in query order. */
  method Evaluate<R>(retrieve: (string, int) -> seq<R>, classOf: R -> string, queries: seq<EvalQuery>)
    returns (r: Result<seq<seq<nat>>, Error>)
    ensures r == EvaluationOf(retrieve, classOf, queries)
  {
    ghost var outcomes := Outcomes(retrieve, classOf, queries);
    var yTrue: seq<int> := [];
    var yPred: seq<int> := [];
    for i := 0 to |queries|
      invariant Encoded(outcomes[..i]) == Success((yTrue, yPred))
    {
      var q := queries[i];
      var pred := PredictClass(retrieve, classOf, q.text, DefaultTopK);
      assert outcomes[i] == Outcome(q.truth, pred);
      EncodedNext(outcomes, i);
      if pred.Failure? {
        FailurePropagates(outcomes, i + 1);
        return Failure(pred.error);
      }
      if q.truth !in LabelMap {
        FailurePropagates(outcomes, i + 1);
        return Failure(KeyError(q.truth));
      }
      yTrue := yTrue + [LabelMap[q.truth]];
      if pred.value !in LabelMap {
        FailurePropagates(outcomes, i + 1);
        return Failure(KeyError(pred.value));
      }
      yPred := yPred + [LabelMap[pred.value]];
    }
    assert outcomes[..|queries|] == outcomes;
    r := Success(Confusion.ConfusionMatrix(yTrue, yPred));
  }

  /** An error raised for an early query is the error of the whole evaluation. */
  lemma {:induction false} FailurePropagates(outcomes: seq<Outcome>, n: nat)
    requires n <= |outcomes| && Encoded(outcomes[..n]).Failure?
    ensures Encoded(outcomes) == Encoded(outcomes[..n])
  {
    if n < |outcomes| {
      var m := |outcomes| - 1;
      assert outcomes[..m][..n] == outcomes[..n];
      FailurePropagates(outcomes[..m], n);
    } else {
      assert outcomes[..n] == outcomes;
    }
  }

  /** The queries with ground truth `actual` whose majority vote is `predicted`. */
  ghost function Votes<R>(retrieve: (string, int) -> seq<R>, classOf: R -> string, queries: seq<EvalQuery>,
                          actual: string, predicted: string): set<nat>
  {
    set i: nat | i < |queries| && queries[i].truth == actual
                 && PredictClass(retrieve, classOf, queries[i].text, DefaultTopK) == Success(predicted)
  }

  /**
    A failed loop reports the error of the first query that fails: every earlier query went
    through, and no later query is looked at.
   */
  lemma {:induction false} FailsAtFirstError(outcomes: seq<Outcome>)
    requires Encoded(outcomes).Failure?
    ensures exists i :: (0 <= i < |outcomes| && Step(outcomes[i]) == Failure(Encoded(outcomes).error)
      && (forall j :: 0 <= j < i ==> Step(outcomes[j]).Success?))
  {
    var n := |outcomes| - 1;
    var e := Encoded(outcomes).error;
    if Encoded(outcomes[..n]).Failure? {
      FailurePropagates(outcomes, n);
      FailsAtFirstError(outcomes[..n]);
      var i :| 0 <= i < n && Step(outcomes[..n][i]) == Failure(e)
        && forall j :: 0 <= j < i ==> Step(outcomes[..n][j]).Success?;
      assert outcomes[..n][i] == outcomes[i];
      forall j | 0 <= j < i ensures Step(outcomes[j]).Success? {
        assert outcomes[..n][j] == outcomes[j];
      }
    } else {
      assert Step(outcomes[n]) == Failure(e);
      forall j | 0 <= j < n ensures Step(outcomes[j]).Success? {
        assert outcomes[..n][j] == outcomes[j];
      }
    }
  }

  /** `e` is what the loop raises for a query with this prediction outcome. */
  predicate RaisedBy(pred: Result<string, Error>, e: Error)
  {
    || (pred.Failure? && e == IndexError)
    || (pred.Success? && pred.value !in LabelMap && e == KeyError(pred.value))
  }

  /**
    When every ground truth is a LABEL_MAP key, a failed evaluation comes from some query that
    retrieved nothing (IndexError) or whose vote is not a LABEL_MAP key (KeyError on that class),
    and every query before it went through.
   */
  lemma EvaluationFailureCause<R>(retrieve: (string, int) -> seq<R>, classOf: R -> string, queries: seq<EvalQuery>)
    requires forall i :: 0 <= i < |queries| ==> queries[i].truth in LabelMap
    requires EvaluationOf(retrieve, classOf, queries).Failure?
    ensures exists i :: (0 <= i < |queries|
      && RaisedBy(PredictClass(retrieve, classOf, queries[i].text, DefaultTopK), EvaluationOf(retrieve, classOf, queries).error)
      && (forall j :: 0 <= j < i ==> Step(Outcomes(retrieve, classOf, queries)[j]).Success?))
  {
    var outcomes := Outcomes(retrieve, classOf, queries);
    FailsAtFirstError(outcomes);
    var i :| 0 <= i < |outcomes| && Step(outcomes[i]) == Failure(Encoded(outcomes).error)
      && (forall j :: 0 <= j < i ==> Step(outcomes[j]).Success?);
    assert outcomes[i].truth == queries[i].truth;
  }

  /** A query yields the code pair (a, p) exactly when its truth is class a and its vote class p. */
  lemma StepDecoded(o: Outcome, a: int, p: int)
    requires 0 <= a < 2 && 0 <= p < 2
    ensures Step(o) == Success((a, p)) <==> o.truth == InvLabelMap[a] && o.pred == Success(InvLabelMap[p])
  {
    LabelMapsInverse();
  }

  /**
    Cell `[a][p]` of the matrix counts the queries whose ground truth is the class coded `a`
    and whose majority vote is the class coded `p`.
   */
  lemma EvaluationCell<R>(retrieve: (string, int) -> seq<R>, classOf: R -> string, queries: seq<EvalQuery>,
                          a: int, p: int)
    requires 0 <= a < 2 && 0 <= p < 2
    requires EvaluationOf(retrieve, classOf, queries).Success?
    ensures EvaluationOf(retrieve, classOf, queries).value[a][p]
         == |Votes(retrieve, classOf, queries, InvLabelMap[a], InvLabelMap[p])|
  {
    var outcomes := Outcomes(retrieve, classOf, queries);
    var (yTrue, yPred) := Encoded(outcomes).value;
    var votes := Votes(retrieve, classOf, queries, InvLabelMap[a], InvLabelMap[p]);
    forall i: nat | i < |queries|
      ensures i in Confusion.Matching(yTrue, yPred, a, p) <==> i in votes
    {
      assert Step(outcomes[i]) == Success((yTrue[i], yPred[i]));
      StepDecoded(outcomes[i], a, p);
    }
    assert Confusion.Matching(yTrue, yPred, a, p) == votes;
  }

  /**
    Row `a` of the matrix sums to the number of queries whose ground truth is the class coded `a`,
    and the four cells sum to the number of queries.
   */
  lemma EvaluationRows<R>(retrieve: (string, int) -> seq<R>, classOf: R -> string, queries: seq<EvalQuery>)
    requires EvaluationOf(retrieve, classOf, queries).Success?
    ensures var cm := EvaluationOf(retrieve, classOf, queries).value;
      && cm[0][0] + cm[0][1] == multiset(Truths(queries))[InvLabelMap[0]]
      && cm[1][0] + cm[1][1] == multiset(Truths(queries))[InvLabelMap[1]]
      && cm[0][0] + cm[0][1] + cm[1][0] + cm[1][1] == |queries|
  {
    var outcomes := Outcomes(retrieve, classOf, queries);
    assert forall i :: 0 <= i < |queries| ==> Truths(queries)[i] == outcomes[i].truth;
    EncodedRows(outcomes, Truths(queries));
  }

  /** The row and total sums of the matrix counted from a successful loop. */
  lemma {:induction false} EncodedRows(outcomes: seq<Outcome>, truths: seq<string>)
    requires Encoded(outcomes).Success?
    requires |truths| == |outcomes| && forall i :: 0 <= i < |outcomes| ==> truths[i] == outcomes[i].truth
    ensures var cm := Confusion.ConfusionMatrix(Encoded(outcomes).value.0, Encoded(outcomes).value.1);
      && cm[0][0] + cm[0][1] == multiset(truths)[InvLabelMap[0]]
      && cm[1][0] + cm[1][1] == multiset(truths)[InvLabelMap[1]]
      && cm[0][0] + cm[0][1] + cm[1][0] + cm[1][1] == |outcomes|
  {
    var (yTrue, yPred) := Encoded(outcomes).value;
    EncodedCodes(outcomes);
    Confusion.RowSum(yTrue, yPred, 0);
    Confusion.RowSum(yTrue, yPred, 1);
    EncodedCount(yTrue, truths, 0);
    EncodedCount(yTrue, truths, 1);
    Confusion.MatrixTotal(yTrue, yPred);
  }

  /** `y_true` holds the LABEL_MAP code of each ground truth, and both lists hold only 0 and 1. */
  lemma {:induction false} EncodedCodes(outcomes: seq<Outcome>)
    requires Encoded(outcomes).Success?
    ensures var (yTrue, yPred) := Encoded(outcomes).value;
      && (forall i :: 0 <= i < |outcomes| ==> outcomes[i].truth in LabelMap && yTrue[i] == LabelMap[outcomes[i].truth])
      && Confusion.BinaryCodes(yTrue) && Confusion.BinaryCodes(yPred)
  {
    var (yTrue, yPred) := Encoded(outcomes).value;
    forall i | 0 <= i < |outcomes|
      ensures outcomes[i].truth in LabelMap && yTrue[i] == LabelMap[outcomes[i].truth]
      ensures yTrue[i] == 0 || yTrue[i] == 1
      ensures yPred[i] == 0 || yPred[i] == 1
    {
      assert Step(outcomes[i]) == Success((yTrue[i], yPred[i]));
    }
  }

  /** Encoding class strings with LABEL_MAP keeps how often each class occurs. */
  lemma {:induction false} EncodedCount(codes: seq<int>, names: seq<string>, a: int)
    requires |codes| == |names| && a in InvLabelMap
    requires forall i :: 0 <= i < |names| ==> names[i] in LabelMap && codes[i] == LabelMap[names[i]]
    ensures multiset(codes)[a] == multiset(names)[InvLabelMap[a]]
  {
    LabelMapsInverse();
    if |codes| > 0 {
      var n := |codes| - 1;
      EncodedCount(codes[..n], names[..n], a);
      assert codes == codes[..n] + [codes[n]];
      assert names == names[..n] + [names[n]];
    }
  }

  /**
    Only what the retrieval function returns for `top_k = 5` matters: two retrieval functions
    that agree there on every query text give the same evaluation.
   */
  lemma OnlyDefaultTopKMatters<R>(retrieve1: (string, int) -> seq<R>, retrieve2: (string, int) -> seq<R>,
                                  classOf: R -> string, queries: seq<EvalQuery>)
    requires forall i :: 0 <= i < |queries| ==> retrieve1(queries[i].text, DefaultTopK) == retrieve2(queries[i].text, DefaultTopK)
    ensures EvaluationOf(retrieve1, classOf, queries) == EvaluationOf(retrieve2, classOf, queries)
  {
    assert Outcomes(retrieve1, classOf, queries) == Outcomes(retrieve2, classOf, queries);
  }

  /** A query list whose first `n` ground truths are `a` and the rest `b` has `n` of `a` and the rest `b`. */
  lemma BlockTruths(queries: seq<EvalQuery>, n: nat, a: string, b: string)
    requires n <= |queries| && a != b
    requires forall i :: 0 <= i < n ==> queries[i].truth == a
    requires forall i :: n <= i < |queries| ==> queries[i].truth == b
    ensures multiset(Truths(queries))[a] == n && multiset(Truths(queries))[b] == |queries| - n
  {
    assert Truths(queries) == Truths(queries[..n]) + Truths(queries[n..]);
    UniformTruths(queries[..n], a, b);
    UniformTruths(queries[n..], b, a);
  }

  /** A query list of a single class holds that class at every position and no other class. */
  lemma {:induction false} UniformTruths(queries: seq<EvalQuery>, a: string, other: string)
    requires a != other
    requires forall i :: 0 <= i < |queries| ==> queries[i].truth == a
    ensures multiset(Truths(queries))[a] == |queries| && multiset(Truths(queries))[other] == 0
  {
    if |queries| > 0 {
      var n := |queries| - 1;
      UniformTruths(queries[..n], a, other);
      assert Truths(queries) == Truths(queries[..n]) + [a];
    }
  }
}
