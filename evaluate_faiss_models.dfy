/**
  `evaluation/evaluate_faiss_models.py`: the 10-query benchmark run against a query function
  whose results are metadata records, read through their `"class"` entry.
 */
module EvaluateFaissModels {
  import opened Wrappers
  import opened Labels
  import MajorityVote
  import opened Evaluation
  import opened BuildFaissIndex
  import QueryPrototype

  /** EVAL_QUERIES: 5 drums queries followed by 5 keys queries. */
  const EvalQueries: seq<EvalQuery> := [
      EvalQuery("drum samples", "drums"),
      EvalQuery("drum loop", "drums"),
      EvalQuery("percussion beat", "drums"),
      EvalQuery("kick snare rhythm", "drums"),
      EvalQuery("drums only", "drums"),
      EvalQuery("keys melody", "keys"),
      EvalQuery("piano chords", "keys"),
      EvalQuery("keyboard harmony", "keys"),
      EvalQuery("soft piano music", "keys"),
      EvalQuery("keys loop", "keys")
    ]

  /** `r["class"]` of one result record. */
  function RecordClass(r: Record): string
  {
    r.className
  }

  /**
    `predict_class`: the most common `"class"` among the returned records, ties to the first
    seen; no records raise IndexError.
   */
  function PredictClass(queryFn: (string, int) -> seq<Record>, text: string, topK: int): (r: Result<string, Error>)
    ensures r.Failure? <==> |queryFn(text, topK)| == 0
    ensures r.Failure? ==> r.error == IndexError
    ensures r.Success? ==> exists i :: 0 <= i < |queryFn(text, topK)| && queryFn(text, topK)[i].className == r.value
    ensures r.Success? ==> MajorityVote.IsMostCommon(Classes(queryFn(text, topK), RecordClass), r.value)
  {
    var r := Evaluation.PredictClass(queryFn, RecordClass, text, topK);
    if r.Success? then ClassOccurs(queryFn(text, topK), RecordClass, r.value); r else r
  }

  /** The ground truths of EVAL_QUERIES: 5 drums, then 5 keys. */
  lemma EvalQueriesTruths()
    ensures |EvalQueries| == 10
    ensures forall i :: 0 <= i < 5 ==> EvalQueries[i].truth == Name(Drums)
    ensures forall i :: 5 <= i < 10 ==> EvalQueries[i].truth == Name(Keys)
  {
  }

  /**
    `evaluate_model`: every EVAL_QUERIES pair once, in order, queried with `top_k = 5`; the
    matrix has 5 drums and 5 keys queries in its rows. A failure is an empty result list or a
    vote outside LABEL_MAP for one of the queries.
   */
  method EvaluateModel(queryFn: (string, int) -> seq<Record>) returns (cm: Result<seq<seq<nat>>, Error>)
    ensures cm == EvaluationOf(queryFn, RecordClass, EvalQueries)
    ensures cm.Success? ==> var m := cm.value;
      && m[0][0] + m[0][1] == 5 && m[1][0] + m[1][1] == 5
      && m[0][0] + m[0][1] + m[1][0] + m[1][1] == 10
    ensures cm.Failure? ==> exists i :: 0 <= i < 10 && RaisedBy(PredictClass(queryFn, EvalQueries[i].text, 5), cm.error)
  {
    cm := Evaluation.Evaluate(queryFn, RecordClass, EvalQueries);
    if cm.Success? {
      MatrixRows(queryFn);
    } else {
      FailureCause(queryFn);
    }
  }

  /** EVAL_QUERIES holds 5 drums and 5 keys ground truths. */
  lemma TruthCounts()
    ensures multiset(Truths(EvalQueries))[InvLabelMap[0]] == 5
    ensures multiset(Truths(EvalQueries))[InvLabelMap[1]] == 5
    ensures forall i :: 0 <= i < |EvalQueries| ==> EvalQueries[i].truth in LabelMap
  {
    EvalQueriesTruths();
    BlockTruths(EvalQueries, 5, Name(Drums), Name(Keys));
  }

  /** A successful run has 5 queries in each row and 10 in all. */
  lemma MatrixRows(queryFn: (string, int) -> seq<Record>)
    requires EvaluationOf(queryFn, RecordClass, EvalQueries).Success?
    ensures var m := EvaluationOf(queryFn, RecordClass, EvalQueries).value;
      && m[0][0] + m[0][1] == 5 && m[1][0] + m[1][1] == 5
      && m[0][0] + m[0][1] + m[1][0] + m[1][1] == 10
  {
    TruthCounts();
    EvaluationRows(queryFn, RecordClass, EvalQueries);
  }

  /** A failed run failed on some query with an empty result list or a vote outside LABEL_MAP. */
  lemma FailureCause(queryFn: (string, int) -> seq<Record>)
    requires EvaluationOf(queryFn, RecordClass, EvalQueries).Failure?
    ensures exists i :: 0 <= i < 10 && RaisedBy(PredictClass(queryFn, EvalQueries[i].text, 5), EvaluationOf(queryFn, RecordClass, EvalQueries).error)
  {
    TruthCounts();
    EvaluationFailureCause(queryFn, RecordClass, EvalQueries);
  }


  /**
    The prototype query under evaluation: its five records all carry the routed class, so the
    vote is the routed class, or IndexError when the index holds no record of that class.
   */
  lemma PrototypeVote(queryFn: (string, int) -> seq<Record>, text: string, metadata: seq<Record>, name: string)
    requires queryFn(text, DefaultTopK) == QueryPrototype.FirstMatches(metadata, name, DefaultTopK)
    ensures PredictClass(queryFn, text, DefaultTopK)
         == if exists j :: 0 <= j < |metadata| && metadata[j].className == name then Success(name) else Failure(IndexError)
  {
    var results := queryFn(text, DefaultTopK);
    QueryPrototype.NothingOnlyWhenClassAbsent(metadata, name, DefaultTopK);
    if |results| > 0 {
      QueryPrototype.FirstMatchesProperties(metadata, name, DefaultTopK);
      forall i | 0 <= i < |results| ensures RecordClass(results[i]) == name {
        assert results[i] in results;
      }
      UnanimousPrediction(queryFn, RecordClass, text, DefaultTopK, name);
    }
  }
}
