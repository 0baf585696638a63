# Text–audio retrieval: evaluation, prototype routing and index metadata

This project models the discrete logic of a text-to-audio retrieval system for two sound
classes, drums and keys. The parts modelled are:

- **Evaluation** (`evaluation/evaluate_model.py` and `evaluation/evaluate_faiss_models.py`).
  Each labelled benchmark query is retrieved with `top_k = 5`. The classes of the results are
  reduced to one prediction by `Counter(...).most_common(1)[0][0]`. Ground truth and prediction
  are encoded with `LABEL_MAP`, and the pairs are counted into a 2×2 confusion matrix (rows
  actual, columns predicted).
- **Prototype routing** (`query/query_prototype.py`). A query goes to the class whose anchor
  text it scores highest against (`np.argmax`, the first index wins ties). Then a loop collects
  the first `top_k` metadata records of that class, in index order, and stops with `break`.
- **Index metadata and dispatch** (`indexing/build_faiss_index.py`). Filenames are zipped with
  integer labels into `{filename, class}` records. Each index is saved as `<name>.faiss` and
  `<name>_metadata.json` under `indexing/indices`. The command-line mode selects one of three
  builders.

Files and modules:

| file | module | models |
|---|---|---|
| wrappers.dfy | Wrappers | Option / Result values for raised exceptions |
| labels.dfy | Labels | the label set, LABEL_MAP, INV_LABEL_MAP, CLASS_TEXTS |
| majority_vote.dfy | MajorityVote | `Counter(xs).most_common(1)[0][0]` |
| confusion.dfy | Confusion | `confusion_matrix` as pair counting |
| evaluation.dfy | Evaluation | the evaluation loop that both scripts share |
| evaluate_model.dfy | EvaluateModel | the 36-query benchmark over `(item, class)` results |
| evaluate_faiss_models.dfy | EvaluateFaissModels | the 10-query benchmark over metadata records |
| query_prototype.dfy | QueryPrototype | argmax routing and the first-`top_k` collection loop |
| build_faiss_index.dfy | BuildFaissIndex | metadata records, artifact paths, mode dispatch |
| load_index.dfy | LoadIndex | the artifact paths read back |

Modelling choices:

- A retrieval function is a parameter of type `(string, int) -> seq<R>`. The model sees only
  what it returns for a query text and a `top_k`.
- A Python exception is a `Failure`. `IndexError` is `most_common(1)[0]` on an empty result
  list. `KeyError(k)` is `LABEL_MAP[k]` for a string that is not a key.
- The anchor scores of the prototype router are given as `seq<real>`, one per entry of
  `CLASS_TEXTS`.
- The builders take the arrays they load (`labels`, `filenames`) as parameters.

At the edges the code behaves as follows, and the model follows it:

- An empty result list raises `IndexError` (from `[0]`), not a dedicated error.
- The prototype query does not reject a non-positive `top_k`. With `top_k = 0` it returns
  nothing if the first metadata record is of another class. Otherwise it returns every record of
  the class, because the length check runs after the append and never matches again. A negative
  `top_k` returns every record of the class.
- Metadata is built with `zip`, so its length is the shorter of the two arrays. Nothing checks
  that it matches the number of vectors.

## Model

| member | source | states |
|---|---|---|
| Labels.LabelMapDomain | evaluation/evaluate_model.py:9 | a string is a LABEL_MAP key exactly when it is the name of a label |
| Labels.LabelMapsInverse | evaluation/evaluate_model.py:9-10 | LABEL_MAP and INV_LABEL_MAP are mutual inverses between {drums, keys} and {0, 1} |
| Labels.LabelMapInjective | evaluation/evaluate_faiss_models.py:9 | two class strings with the same LABEL_MAP code are equal |
| Labels.ClassTextsAreLabels | query/query_prototype.py:11 | CLASS_TEXTS has two entries, and entry i is the LABEL_MAP key coded i |
| MajorityVote.Distinct | evaluation/evaluate_model.py:68 | the Counter's keys are exactly the values that occur in the input |
| MajorityVote.DistinctOrdered | evaluation/evaluate_model.py:68 | the Counter's keys are in strictly increasing order of first occurrence |
| MajorityVote.MaxByCount | evaluation/evaluate_model.py:68 | Python's max picks a key with maximal count, and every earlier key has a strictly smaller count |
| MajorityVote.MostCommon | evaluation/evaluate_model.py:68 | the result is absent exactly for empty input; otherwise it occurs in the input, no value occurs more often, and it is the first seen among equally frequent values |
| MajorityVote.MostCommonUnique | evaluation/evaluate_model.py:68 | MostCommon returns v exactly when v satisfies that description (both directions) |
| MajorityVote.UnanimousVote | evaluation/evaluate_model.py:68 | if every result has the same class, the vote is that class |
| MajorityVote.TieGoesToFirstSeen | evaluation/evaluate_model.py:68 | [drums, keys, drums, keys] votes drums |
| Confusion.PairCountIsCardinality | evaluation/evaluate_model.py:79 | counting in order gives the size of the set of positions with actual a and predicted p |
| Confusion.ConfusionMatrix | evaluation/evaluate_model.py:79 | the matrix is 2×2, and cell [a][p] is the number of positions with actual a and predicted p |
| Confusion.RowSum | evaluation/evaluate_model.py:79 | with binary predictions, row a sums to the number of actual values equal to a |
| Confusion.MatrixTotal | evaluation/evaluate_model.py:79 | with binary codes, the four cells sum to the number of pairs |
| Evaluation.PredictClass | evaluation/evaluate_model.py:65-68 | fails with IndexError exactly when retrieval returns nothing; otherwise returns the most common class of the results, ties to the first seen |
| Evaluation.Encoded | evaluation/evaluate_model.py:74-77 | succeeds exactly when every query's step succeeds; then y_true and y_pred have one entry per query, in order, and entry i is the encoded truth and vote of query i |
| Evaluation.Step | evaluation/evaluate_model.py:76-77 | one iteration after the vote succeeds exactly when the vote succeeded and both the truth and the vote are LABEL_MAP keys; a failed vote keeps its error, otherwise the truth's KeyError comes before the vote's |
| Evaluation.EvaluationOf | evaluation/evaluate_model.py:70-79 | evaluate succeeds exactly when every query's step succeeds, and then returns a 2×2 matrix |
| Evaluation.Evaluate | evaluation/evaluate_model.py:70-79 | the loop's result equals the confusion matrix of the encoded lists, or the error the lists raise |
| Evaluation.FailurePropagates | evaluation/evaluate_model.py:74-77 | an error raised on an earlier query is the error of the whole evaluation |
| Evaluation.EncodedNext | evaluation/evaluate_model.py:74-77 | one more iteration extends both lists by that query's codes, or keeps the first error |
| Evaluation.FailsAtFirstError | evaluation/evaluate_model.py:74-77 | a failed loop reports the error of the first failing query, and every earlier query went through |
| Evaluation.EvaluationFailureCause | evaluation/evaluate_model.py:74-77 | when all ground truths are LABEL_MAP keys, a failure is an empty result list or a vote outside LABEL_MAP for some query, and every earlier query went through |
| Evaluation.UnanimousPrediction | evaluation/evaluate_model.py:65-68 | when every retrieved result has the same class, the prediction is that class |
| Evaluation.StepDecoded | evaluation/evaluate_model.py:76-77 | a query yields codes (a, p) exactly when its truth is class a and its vote is class p |
| Evaluation.EncodedCodes | evaluation/evaluate_model.py:76-77 | y_true[i] is the LABEL_MAP code of the i-th ground truth, and both lists hold only 0 and 1 |
| Evaluation.EvaluationCell | evaluation/evaluate_model.py:74-79 | cell [a][p] counts the queries whose ground truth is class a and whose vote is class p |
| Evaluation.EncodedRows | evaluation/evaluate_model.py:74-79 | the matrix of a successful loop has row a summing to the number of ground truths of class a, and all cells summing to the number of queries |
| Evaluation.EncodedCount | evaluation/evaluate_model.py:76-77 | encoding through LABEL_MAP keeps the number of occurrences of each class |
| Evaluation.BlockTruths | evaluation/evaluate_model.py:12-62 | a query list whose first n truths are one class and the rest another holds n of the first and the rest of the second |
| Evaluation.UniformTruths | evaluation/evaluate_faiss_models.py:11-23 | a query list of one class holds that class at every position and no other |
| Evaluation.EvaluationRows | evaluation/evaluate_model.py:74-79 | row a sums to the number of queries with ground truth class a, and all cells sum to the number of queries |
| Evaluation.OnlyDefaultTopKMatters | evaluation/evaluate_model.py:65-75 | two retrieval functions that agree at top_k = 5 on every query text give the same evaluation |
| EvaluateModel.PredictClass | evaluation/evaluate_model.py:65-68 | fails, and then only with IndexError, exactly for no results; otherwise returns the class of some result pair, most common, ties to the first seen |
| EvaluateModel.EvalQueriesTruths | evaluation/evaluate_model.py:12-62 | EVAL_QUERIES has 36 entries: 18 drums, then 18 keys |
| EvaluateModel.TruthCounts | evaluation/evaluate_model.py:12-62 | the ground truths hold 18 drums and 18 keys, all LABEL_MAP keys |
| EvaluateModel.MatrixRows | evaluation/evaluate_model.py:74-87 | a successful run's matrix has 18 queries in each row and 36 in all |
| EvaluateModel.FailureCause | evaluation/evaluate_model.py:74-77 | a failed run failed on some query with an empty result list or a vote outside LABEL_MAP |
| EvaluateModel.Evaluate | evaluation/evaluate_model.py:70-79 | the matrix is the evaluation of EVAL_QUERIES at top_k = 5; each row sums to 18 and all cells sum to 36; a failure comes from an empty result list or a vote outside LABEL_MAP |
| EvaluateFaissModels.PredictClass | evaluation/evaluate_faiss_models.py:25-28 | fails, and then only with IndexError, exactly for no records; otherwise returns a "class" value of some record, most common, ties to the first seen |
| EvaluateFaissModels.EvalQueriesTruths | evaluation/evaluate_faiss_models.py:11-23 | EVAL_QUERIES has 10 entries: 5 drums, then 5 keys |
| EvaluateFaissModels.TruthCounts | evaluation/evaluate_faiss_models.py:11-23 | the ground truths hold 5 drums and 5 keys, all LABEL_MAP keys |
| EvaluateFaissModels.MatrixRows | evaluation/evaluate_faiss_models.py:33-38 | a successful run's matrix has 5 queries in each row and 10 in all |
| EvaluateFaissModels.FailureCause | evaluation/evaluate_faiss_models.py:33-36 | a failed run failed on some query with an empty result list or a vote outside LABEL_MAP |
| EvaluateFaissModels.EvaluateModel | evaluation/evaluate_faiss_models.py:30-38 | the matrix is the evaluation of EVAL_QUERIES at top_k = 5; each row sums to 5 and all cells sum to 10; a failure comes from an empty result list or a vote outside LABEL_MAP |
| EvaluateFaissModels.PrototypeVote | evaluation/evaluate_faiss_models.py:25-28 | on the prototype query, the vote is the routed class when the index holds a record of it, and IndexError otherwise |
| QueryPrototype.ArgMax | query/query_prototype.py:18 | the routed index holds a maximal score, and every earlier score is strictly smaller |
| QueryPrototype.RoutedClassIsLabel | query/query_prototype.py:18-19 | the routed label name is an entry of CLASS_TEXTS and a LABEL_MAP key |
| QueryPrototype.Filter | query/query_prototype.py:23-25 | the filtered list holds exactly the metadata records of the class |
| QueryPrototype.MatchPositions | query/query_prototype.py:23-25 | the positions are increasing, each holds a record of the class, and every such record's position is listed |
| QueryPrototype.FirstMatches | query/query_prototype.py:22-29 | the returned records are a prefix of the class's records in index order; for top_k >= 1 there are min(top_k, count) of them; for top_k < 1 either none or all of them |
| QueryPrototype.Query | query/query_prototype.py:13-29 | the loop with its break returns FirstMatches of the class picked by ArgMax, for every top_k |
| QueryPrototype.FilterConcat | query/query_prototype.py:22-25 | filtering a concatenation concatenates the filtered parts, so metadata order is kept |
| QueryPrototype.FilterAtPositions | query/query_prototype.py:22-25 | filtered record k is the unchanged metadata record at the k-th matching position |
| QueryPrototype.FirstMatchesProperties | query/query_prototype.py:22-27 | results are original records of the routed class and a prefix of the class's records; for top_k >= 1 there are min(top_k, count) of them, at the first matching positions |
| QueryPrototype.NothingOnlyWhenClassAbsent | query/query_prototype.py:22-27 | for top_k >= 1 the result is empty exactly when no record has the class |
| QueryPrototype.ZeroTopK | query/query_prototype.py:24-27 | top_k = 0 returns nothing exactly when the metadata is empty or its first record is of another class; otherwise it returns every record of the class |
| QueryPrototype.NegativeTopK | query/query_prototype.py:26-27 | a negative top_k returns every record of the class |
| QueryPrototype.EmptyMetadata | query/query_prototype.py:22-29 | empty metadata returns nothing |
| QueryPrototype.InsertionOrderExample | query/query_prototype.py:22-27 | with records a, b (drums) and c (keys), top_k = 2 for drums gives [a, b] |
| BuildFaissIndex.ClassOfLabel | indexing/build_faiss_index.py:33 | the class is "drums" exactly for label 0 and "keys" for every other label, and it is always a LABEL_MAP key |
| BuildFaissIndex.MetadataOf | indexing/build_faiss_index.py:32-35 | there are min(len(filenames), len(labels)) records, and record i pairs filenames[i] with the class of labels[i] |
| BuildFaissIndex.Join | indexing/build_faiss_index.py:15 | os.path.join of two components: an absolute part replaces the base; otherwise the path starts with the base, ends with the part, and at most one inserted character, a '/', separates them, inserted exactly when the base is non-empty and does not already end in '/' |
| BuildFaissIndex.IndexPath | indexing/build_faiss_index.py:15 | the index file of a relative name is indexing/indices/<name>.faiss |
| BuildFaissIndex.MetadataPath | indexing/build_faiss_index.py:18 | the metadata file of a relative name is indexing/indices/<name>_metadata.json |
| BuildFaissIndex.MetadataClasses | indexing/build_faiss_index.py:32-35 | every record's class is a LABEL_MAP key, and it is drums exactly when its label is 0 |
| BuildFaissIndex.BuildersShareMetadataRule | indexing/build_faiss_index.py:25-61 | all three builders build their metadata with MetadataOf from the arrays they load |
| BuildFaissIndex.BuildIndex | indexing/build_faiss_index.py:10-20 | the metadata is written unchanged, and the index file and metadata file are different paths |
| BuildFaissIndex.BuildPrototypeIndex | indexing/build_faiss_index.py:25-37 | writes indexing/indices/prototype_audio_index.faiss and its _metadata.json, with one record per (filename, label) pair up to the shorter array, each classed by its label |
| BuildFaissIndex.BuildProjectionIndex | indexing/build_faiss_index.py:39-49 | writes indexing/indices/linear_projection_index.faiss and its _metadata.json, with one record per (filename, label) pair up to the shorter array, each classed by its label |
| BuildFaissIndex.BuildContrastiveIndex | indexing/build_faiss_index.py:51-61 | writes indexing/indices/contrastive_audio_index.faiss and its _metadata.json, with one record per (filename, label) pair up to the shorter array, each classed by its label |
| BuildFaissIndex.PathsNeverCollide | indexing/build_faiss_index.py:15-18 | no index file path equals any metadata file path |
| BuildFaissIndex.PathsInjective | indexing/build_faiss_index.py:15-18 | different index names give different index files and different metadata files |
| BuildFaissIndex.JoinInjective | indexing/build_faiss_index.py:15-18 | joining the save directory with two different file names never gives the same path |
| BuildFaissIndex.Run | indexing/build_faiss_index.py:63-77 | exit status 1 exactly when no mode is given; ValueError exactly for a mode other than the three; "prototype" runs the prototype builder on the embeddings/saved arrays, "projection" and "contrastive" run their builders on the embeddings/projected arrays |
| BuildFaissIndex.DispatchSelectsExactly | indexing/build_faiss_index.py:63-77 | an index is built under the prototype, projection or contrastive name exactly when the mode names that builder (with Run, the whole artifact, paths and records, is that builder's) |
| LoadIndex.BuildThenLoadSamePaths | indexing/load_index.py:5-8 | build_index writes exactly the two paths load_faiss_index reads for the same name |
| LoadIndex.LoadPaths | indexing/load_index.py:5-8 | load_faiss_index of a relative name opens indexing/indices/<name>.faiss and indexing/indices/<name>_metadata.json |

## Left out

- Audio preprocessing, YAMNet and SentenceTransformer embedding extraction: foreign model inference, floating-point signal processing and file writes.
- Embedding computation: the anchor scores are given values. Unit-norm normalisation and the dot products are floating-point numerics.
- QueryPrototype.ArgMax: scores are real numbers, so NaN handling (`np.argmax` returns the first NaN) is not modelled.
- The FAISS index itself: building, searching and persisting vectors, and the vectors' count and dimension. `query/query_linear_projection.py` and `query/query_contrastive.py` are FAISS searches plus a float projection, so they are not part of this model. They enter the evaluation only as retrieval-function parameters.
- The retrieval functions under `models/` that `evaluation/evaluate_model.py` imports are not part of this model. They are parameters.
- JSON and `.npy` serialisation, `np.load`, `str(f)` on filename entries (taken to be strings already), and all `print` output.
- sklearn's label inference. The matrix is counted over the fixed codes 0 and 1. Both query lists contain both classes (EvalQueriesTruths), and every vote that survives LABEL_MAP is 0 or 1, so sklearn infers the same two labels.
- `load_faiss_index` reading files: only the paths it opens are modelled.
- BuildFaissIndex.Join: models `os.path.join` for two components on POSIX paths only.
