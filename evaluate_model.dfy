/**
  `evaluation/evaluate_model.py`: the 36-query benchmark run against a retrieval function whose
  results are `(item, class)` pairs.
 */
module EvaluateModel {
  import opened Wrappers
  import opened Labels
  import MajorityVote
  import opened Evaluation

  /** EVAL_QUERIES: 18 drums queries followed by 18 keys queries. */
  const EvalQueries: seq<EvalQuery> := [
      EvalQuery("drum samples", "drums"),
      EvalQuery("drum loop", "drums"),
      EvalQuery("percussion beat", "drums"),
      EvalQuery("kick snare rhythm", "drums"),
      EvalQuery("drums only", "drums"),
      EvalQuery("fast drum pattern", "drums"),
      EvalQuery("electronic drum beat", "drums"),
      EvalQuery("rhythmic percussion sounds", "drums"),
      EvalQuery("heavy kick and snare", "drums"),
      EvalQuery("tight drum groove", "drums"),
      EvalQuery("high energy drum loop for dance music", "drums"),
      EvalQuery("percussive rhythm without melody", "drums"),
      EvalQuery("looped drum pattern with strong beat", "drums"),
      EvalQuery("drum sounds used for rhythm section", "drums"),
      EvalQuery("short percussive hits and beats", "drums"),
      EvalQuery("percussive elements driving the tempo", "drums"),
      EvalQuery("rhythm focused loop with no harmonic content", "drums"),
      EvalQuery("beat oriented audio sample", "drums"),
      EvalQuery("keys melody", "keys"),
      EvalQuery("piano chords", "keys"),
      EvalQuery("keyboard harmony", "keys"),
      EvalQuery("soft piano music", "keys"),
      EvalQuery("keys loop", "keys"),
      EvalQuery("melodic piano line", "keys"),
      EvalQuery("harmonic keyboard progression", "keys"),
      EvalQuery("smooth piano melody", "keys"),
      EvalQuery("synth keys pad", "keys"),
      EvalQuery("keyboard arpeggio", "keys"),
      EvalQuery("soft melodic piano chords", "keys"),
      EvalQuery("keyboard based harmonic loop", "keys"),
      EvalQuery("gentle keys progression with melody", "keys"),
      EvalQuery("musical chord progression played on keys", "keys"),
      EvalQuery("sustained keyboard tones with harmony", "keys"),
      EvalQuery("melody driven musical loop", "keys"),
      EvalQuery("harmonic content without strong rhythm", "keys"),
      EvalQuery("tonal keyboard sounds for background music", "keys")
    ]

  /** The class of one `(_, cls)` result pair. */
  function PairClass<X>(hit: (X, string)): string
  {
    hit.1
  }

  /**
    `predict_class`: the most common class among the retrieved pairs, ties to the first seen;
    no results raise IndexError.
   */
  function PredictClass<X>(retrieveFn: (string, int) -> seq<(X, string)>, query: string, topK: int)
    : (r: Result<string, Error>)
    ensures r.Failure? <==> |retrieveFn(query, topK)| == 0
    ensures r.Failure? ==> r.error == IndexError
    ensures r.Success? ==> exists i :: 0 <= i < |retrieveFn(query, topK)| && retrieveFn(query, topK)[i].1 == r.value
    ensures r.Success? ==> MajorityVote.IsMostCommon(Classes(retrieveFn(query, topK), PairClass), r.value)
  {
    var r := Evaluation.PredictClass(retrieveFn, PairClass, query, topK);
    if r.Success? then ClassOccurs(retrieveFn(query, topK), PairClass, r.value); r else r
  }

  /** The ground truths of EVAL_QUERIES: 18 drums, then 18 keys. */
  lemma EvalQueriesTruths()
    ensures |EvalQueries| == 36
    ensures forall i :: 0 <= i < 18 ==> EvalQueries[i].truth == Name(Drums)
    ensures forall i :: 18 <= i < 36 ==> EvalQueries[i].truth == Name(Keys)
  {
  }

  /**
    `evaluate`: every EVAL_QUERIES pair once, in order, retrieved with `top_k = 5`; the matrix
    has 18 drums and 18 keys queries in its rows. A failure is an empty result list or a vote
    outside LABEL_MAP for one of the queries.
   */
  method Evaluate<X>(retrieveFn: (string, int) -> seq<(X, string)>) returns (cm: Result<seq<seq<nat>>, Error>)
    ensures cm == EvaluationOf(retrieveFn, PairClass, EvalQueries)
    ensures cm.Success? ==> var m := cm.value;
      && m[0][0] + m[0][1] == 18 && m[1][0] + m[1][1] == 18
      && m[0][0] + m[0][1] + m[1][0] + m[1][1] == 36
    ensures cm.Failure? ==> exists i :: 0 <= i < 36 && RaisedBy(PredictClass(retrieveFn, EvalQueries[i].text, 5), cm.error)
  {
    cm := Evaluation.Evaluate(retrieveFn, PairClass, EvalQueries);
    if cm.Success? {
      MatrixRows(retrieveFn);
    } else {
      FailureCause(retrieveFn);
    }
  }

  /** EVAL_QUERIES holds 18 drums and 18 keys ground truths. */
  lemma TruthCounts()
    ensures multiset(Truths(EvalQueries))[InvLabelMap[0]] == 18
    ensures multiset(Truths(EvalQueries))[InvLabelMap[1]] == 18
    ensures forall i :: 0 <= i < |EvalQueries| ==> EvalQueries[i].truth in LabelMap
  {
    EvalQueriesTruths();
    BlockTruths(EvalQueries, 18, Name(Drums), Name(Keys));
  }

  /** A successful run has 18 queries in each row and 36 in all. */
  lemma MatrixRows<X>(retrieveFn: (string, int) -> seq<(X, string)>)
    requires EvaluationOf(retrieveFn, PairClass, EvalQueries).Success?
    ensures var m := EvaluationOf(retrieveFn, PairClass, EvalQueries).value;
      && m[0][0] + m[0][1] == 18 && m[1][0] + m[1][1] == 18
      && m[0][0] + m[0][1] + m[1][0] + m[1][1] == 36
  {
    TruthCounts();
    EvaluationRows(retrieveFn, PairClass, EvalQueries);
  }

  /** A failed run failed on some query with an empty result list or a vote outside LABEL_MAP. */
  lemma FailureCause<X>(retrieveFn: (string, int) -> seq<(X, string)>)
    requires EvaluationOf(retrieveFn, PairClass, EvalQueries).Failure?
    ensures exists i :: 0 <= i < 36 && RaisedBy(PredictClass(retrieveFn, EvalQueries[i].text, 5), EvaluationOf(retrieveFn, PairClass, EvalQueries).error)
  {
    TruthCounts();
    EvaluationFailureCause(retrieveFn, PairClass, EvalQueries);
  }

}
