/**
  `query/query_prototype.py`: route a query to a class by the anchor it scores highest against,
  then return the first `top_k` metadata records of that class in index order. The anchor scores
  (inner products of text embeddings) are given; how they are computed is not modelled.
 */
module QueryPrototype {
  import opened Labels
  import opened BuildFaissIndex

  /** `np.argmax`: the position of the largest score, the first one on ties. */
  function ArgMax(scores: seq<real>): (k: nat)
    requires |scores| > 0
    ensures k < |scores|
    ensures forall j :: 0 <= j < |scores| ==> scores[j] <= scores[k]
    ensures forall j :: 0 <= j < k ==> scores[j] < scores[k]
  {
    if |scores| == 1 then 0
    else
      var best := ArgMax(scores[..|scores| - 1]);
      if scores[|scores| - 1] > scores[best] then |scores| - 1 else best
  }

  /** The records of class `name`, in metadata order. */
  function Filter(metadata: seq<Record>, name: string): (r: seq<Record>)
    ensures forall x :: x in r <==> x in metadata && x.className == name
  {
    if |metadata| == 0 then []
    else
      var n := |metadata| - 1;
      Filter(metadata[..n], name) + (if metadata[n].className == name then [metadata[n]] else [])
  }

  /** The positions of the records of class `name`, in increasing order. */
  function MatchPositions(metadata: seq<Record>, name: string): (ps: seq<nat>)
    ensures forall k :: 0 <= k < |ps| ==> ps[k] < |metadata| && metadata[ps[k]].className == name
    ensures forall k, l :: 0 <= k < l < |ps| ==> ps[k] < ps[l]
    ensures forall j :: 0 <= j < |metadata| && metadata[j].className == name ==> j in ps
  {
    if |metadata| == 0 then []
    else
      var n := |metadata| - 1;
      MatchPositions(metadata[..n], name) + (if metadata[n].className == name then [n] else [])
  }

  /**
    What the collection loop returns, stated without the loop. For `top_k >= 1`: the first
    `top_k` records of the class (all of them when there are fewer). For `top_k == 0`: nothing
    when the first record is of another class (the length check fires at once), otherwise every
    record of the class (the check can never fire again). For `top_k < 0`: every record of the class.
   */
  function FirstMatches(metadata: seq<Record>, name: string, topK: int): (r: seq<Record>)
    ensures r <= Filter(metadata, name)
    ensures topK >= 1 ==> |r| == Min(topK, |Filter(metadata, name)|)
    ensures topK < 1 ==> r == [] || r == Filter(metadata, name)
  {
    var all := Filter(metadata, name);
    if topK >= 1 then all[..Min(topK, |all|)]
    else if topK == 0 && |metadata| > 0 && metadata[0].className != name then []
    else all
  }

  /**
    `query(text, top_k)`: `scores[i]` is the similarity of the query to `CLASS_TEXTS[i]`.
    The loop appends each record of the routed class and stops once the list has `top_k` records.
   */
  method Query(metadata: seq<Record>, scores: seq<real>, topK: int) returns (results: seq<Record>)
    requires |scores| == |ClassTexts|
    ensures var routed := ArgMax(scores);
      routed < |ClassTexts| && results == FirstMatches(metadata, ClassTexts[routed], topK)
  {
    var routed := ArgMax(scores);
    var labelName := ClassTexts[routed];
    results := [];
    var i := 0;
    while i < |metadata|
      invariant 0 <= i <= |metadata|
      invariant results == Filter(metadata[..i], labelName)
      invariant topK >= 1 ==> |results| < topK
      invariant topK == 0 && i > 0 ==> metadata[0].className == labelName && |results| > 0
    {
      var m := metadata[i];
      assert metadata[..i + 1][..i] == metadata[..i];
      if m.className == labelName {
        results := results + [m];
      }
      if |results| == topK {
        FilterSplit(metadata, labelName, i + 1);
        break;
      }
      i := i + 1;
    }
    if i == |metadata| {
      assert metadata[..i] == metadata;
    }
  }

  /** Filtering a split list filters each part: the records of a prefix come first. */
  lemma {:induction false} FilterConcat(a: seq<Record>, b: seq<Record>, name: string)
    ensures Filter(a + b, name) == Filter(a, name) + Filter(b, name)
  {
    if |b| > 0 {
      var n := |b| - 1;
      assert (a + b)[..|a| + n] == a + b[..n];
      FilterConcat(a, b[..n], name);
    } else {
      assert a + b == a;
    }
  }

  /** Filtering a list cut at `k` is the filtered head followed by the filtered tail. */
  lemma FilterSplit(metadata: seq<Record>, name: string, k: nat)
    requires k <= |metadata|
    ensures Filter(metadata, name) == Filter(metadata[..k], name) + Filter(metadata[k..], name)
  {
    assert metadata == metadata[..k] + metadata[k..];
    FilterConcat(metadata[..k], metadata[k..], name);
  }

  /** The filtered records are the records at the matching positions, in order. */
  lemma {:induction false} FilterAtPositions(metadata: seq<Record>, name: string)
    ensures |Filter(metadata, name)| == |MatchPositions(metadata, name)|
    ensures forall k :: 0 <= k < |Filter(metadata, name)| ==>
      Filter(metadata, name)[k] == metadata[MatchPositions(metadata, name)[k]]
  {
    if |metadata| > 0 {
      var n := |metadata| - 1;
      FilterAtPositions(metadata[..n], name);
    }
  }

  /**
    The routed query returns original metadata records of the routed class only, as a prefix of
    that class's records in index order; for `top_k >= 1` it returns the records at the first
    `min(top_k, count)` matching positions, so a short class is returned whole, without padding.
   */
  lemma FirstMatchesProperties(metadata: seq<Record>, name: string, topK: int)
    ensures var r := FirstMatches(metadata, name, topK);
      && (forall x :: x in r ==> x in metadata && x.className == name)
      && r <= Filter(metadata, name)
      && (topK >= 1 ==> |r| == Min(topK, |MatchPositions(metadata, name)|))
      && (topK >= 1 ==> forall k :: 0 <= k < |r| ==> r[k] == metadata[MatchPositions(metadata, name)[k]])
  {
    FilterAtPositions(metadata, name);
    var r := FirstMatches(metadata, name, topK);
    forall x | x in r ensures x in Filter(metadata, name) {
      var k :| 0 <= k < |r| && r[k] == x;
    }
  }

  /** For `top_k >= 1` the query returns nothing exactly when no record has the class. */
  lemma NothingOnlyWhenClassAbsent(metadata: seq<Record>, name: string, topK: int)
    requires topK >= 1
    ensures FirstMatches(metadata, name, topK) == [] <==> forall j :: 0 <= j < |metadata| ==> metadata[j].className != name
  {
    var all := Filter(metadata, name);
    if exists j :: 0 <= j < |metadata| && metadata[j].className == name {
      var j :| 0 <= j < |metadata| && metadata[j].className == name;
      assert metadata[j] in all;
    } else {
      assert |all| > 0 ==> all[0] in metadata && all[0].className == name;
    }
  }

  /**
    `top_k == 0` returns nothing exactly when the metadata is empty or its first record is of
    another class; otherwise it returns every record of the class.
   */
  lemma ZeroTopK(metadata: seq<Record>, name: string)
    ensures FirstMatches(metadata, name, 0) == [] <==> |metadata| == 0 || metadata[0].className != name
    ensures |metadata| > 0 && metadata[0].className == name ==> FirstMatches(metadata, name, 0) == Filter(metadata, name)
  {
    if |metadata| > 0 && metadata[0].className == name {
      assert metadata[0] in Filter(metadata, name);
    }
  }

  /** A negative `top_k` never matches the length check: every record of the class is returned. */
  lemma NegativeTopK(metadata: seq<Record>, name: string, topK: int)
    requires topK < 0
    ensures FirstMatches(metadata, name, topK) == Filter(metadata, name)
  {
  }

  /** Empty metadata yields no records whatever the class and `top_k`. */
  lemma EmptyMetadata(name: string, topK: int)
    ensures FirstMatches([], name, topK) == []
  {
  }

  /** The routed class is one of CLASS_TEXTS and hence a LABEL_MAP key. */
  lemma RoutedClassIsLabel(scores: seq<real>)
    requires |scores| == |ClassTexts|
    ensures ArgMax(scores) < |ClassTexts| && ClassTexts[ArgMax(scores)] in LabelMap
  {
    ClassTextsAreLabels();
  }

  /** Two drums records then a keys record, `top_k = 2`: the first two drums records, in index order. */
  lemma InsertionOrderExample()
    ensures var md := [Record("a", "drums"), Record("b", "drums"), Record("c", "keys")];
      FirstMatches(md, "drums", 2) == [Record("a", "drums"), Record("b", "drums")]
  {
    var md := [Record("a", "drums"), Record("b", "drums"), Record("c", "keys")];
    assert md[..2][..1] == [md[0]] && [md[0]][..0] == [];
    assert Filter([md[0]], "drums") == [md[0]];
    assert Filter(md[..2], "drums") == [md[0], md[1]];
    assert Filter(md, "drums") == [md[0], md[1]];
  }
}
