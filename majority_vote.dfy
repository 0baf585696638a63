/**
  `Counter(xs).most_common(1)[0][0]`: a Counter keeps its keys in first-insertion order, and
  `most_common(1)` picks with Python's `max`, which keeps the earliest of several maximal items.
  So the winner is the most frequent value, ties going to the value seen first; an empty input
  yields no winner (the `[0]` that follows raises IndexError).
 */
module MajorityVote {
  import opened Wrappers

  /** How often `x` occurs in `xs` (the Counter's value for key `x`). */
  function Count<T(==,!new)>(xs: seq<T>, x: T): nat
  {
    multiset(xs)[x]
  }

  /** Position of the first occurrence of `x` in `xs`. */
  function FirstIndex<T(==,!new)>(xs: seq<T>, x: T): (i: nat)
    requires x in xs
    ensures i < |xs| && xs[i] == x
    ensures forall j :: 0 <= j < i ==> xs[j] != x
  {
    if xs[0] == x then 0 else 1 + FirstIndex(xs[1..], x)
  }

  /** The keys of `Counter(xs)`: each distinct value once, in order of first occurrence. */
  function Distinct<T(==,!new)>(xs: seq<T>): (d: seq<T>)
    ensures forall x :: x in d <==> x in xs
  {
    if |xs| == 0 then []
    else
      var d := Distinct(xs[..|xs| - 1]);
      if xs[|xs| - 1] in d then d else d + [xs[|xs| - 1]]
  }

  /**
    Python's `max(keys, key=count)`: scan left to right, replacing the current best only by a
    strictly larger count. Returns the position of the winner in `keys`.
   */
  function MaxByCount<T(==,!new)>(keys: seq<T>, xs: seq<T>): (k: nat)
    requires |keys| > 0
    ensures k < |keys|
    ensures forall j :: 0 <= j < |keys| ==> Count(xs, keys[j]) <= Count(xs, keys[k])
    ensures forall j :: 0 <= j < k ==> Count(xs, keys[j]) < Count(xs, keys[k])
  {
    if |keys| == 1 then 0
    else
      var best := MaxByCount(keys[..|keys| - 1], xs);
      if Count(xs, keys[|keys| - 1]) > Count(xs, keys[best]) then |keys| - 1 else best
  }

  /** `Counter(xs).most_common(1)`, reduced to its single key, or None when `xs` is empty. */
  function MostCommon<T(==,!new)>(xs: seq<T>): (r: Option<T>)
    ensures r.None? <==> |xs| == 0
    ensures r.Some? ==> IsMostCommon(xs, r.value)
  {
    if |xs| == 0 then None
    else
      var d := Distinct(xs);
      var k := MaxByCount(d, xs);
      DistinctOrdered(xs);
      assert xs[0] in d;
      forall y ensures Count(xs, y) <= Count(xs, d[k]) {
        if y in xs {
          var j :| 0 <= j < |d| && d[j] == y;
        }
      }
      forall y | y in xs && Count(xs, y) == Count(xs, d[k])
        ensures FirstIndex(xs, d[k]) <= FirstIndex(xs, y)
      {
        var j :| 0 <= j < |d| && d[j] == y;
        if j < k {
          assert false;
        } else if k < j {
          assert FirstIndex(xs, d[k]) < FirstIndex(xs, d[j]);
        }
      }
      Some(d[k])
  }

  /**
    The independent description of the vote: `v` occurs in `xs`, no value occurs more often,
    and among the values that occur equally often `v` is the one seen first.
   */
  ghost predicate IsMostCommon<T(!new)>(xs: seq<T>, v: T)
  {
    && v in xs
    && (forall y :: Count(xs, y) <= Count(xs, v))
    && (forall y :: y in xs && Count(xs, y) == Count(xs, v) ==> FirstIndex(xs, v) <= FirstIndex(xs, y))
  }

  /** The keys of the Counter are listed without repetition and by first occurrence. */
  lemma {:induction false} DistinctOrdered<T(!new)>(xs: seq<T>)
    ensures forall i, j :: 0 <= i < j < |Distinct(xs)| ==>
      FirstIndex(xs, Distinct(xs)[i]) < FirstIndex(xs, Distinct(xs)[j])
  {
    if |xs| > 0 {
      var init := xs[..|xs| - 1];
      DistinctOrdered(init);
      var d := Distinct(init);
      assert init <= xs;
      forall x | x in init ensures x in xs && FirstIndex(xs, x) == FirstIndex(init, x) {
        FirstIndexOfPrefix(xs, init, x);
      }
      if xs[|xs| - 1] !in d {
        forall i | 0 <= i < |d| ensures FirstIndex(xs, d[i]) < |xs| - 1 {
          assert d[i] in d;
          assert d[i] in init;
        }
        assert FirstIndex(xs, xs[|xs| - 1]) == |xs| - 1;
      }
    }
  }

  /** The first occurrence of a value that occurs in a prefix is found in that prefix. */
  lemma {:induction false} FirstIndexOfPrefix<T(!new)>(xs: seq<T>, p: seq<T>, x: T)
    requires p <= xs && x in p
    ensures x in xs && FirstIndex(xs, x) == FirstIndex(p, x)
  {
    if xs[0] != x {
      FirstIndexOfPrefix(xs[1..], p[1..], x);
    }
  }

  /** The vote is determined by its description: `MostCommon` is the one value it admits. */
  lemma MostCommonUnique<T(!new)>(xs: seq<T>, v: T)
    ensures MostCommon(xs) == Some(v) <==> IsMostCommon(xs, v)
  {
    if IsMostCommon(xs, v) {
      var w := MostCommon(xs).value;
      assert Count(xs, v) == Count(xs, w);
      assert FirstIndex(xs, v) == FirstIndex(xs, w);
    }
  }

  /** A vote over results that all carry the same value yields that value. */
  lemma {:induction false} UnanimousVote<T(!new)>(xs: seq<T>, v: T)
    requires |xs| > 0
    requires forall i :: 0 <= i < |xs| ==> xs[i] == v
    ensures MostCommon(xs) == Some(v)
  {
    var w := MostCommon(xs).value;
    assert w in xs;
  }

  /** Frequency tie between two labels: the label at position 0 wins. */
  lemma TieGoesToFirstSeen()
    ensures MostCommon(["drums", "keys", "drums", "keys"]) == Some("drums")
  {
    var xs: seq<string> := ["drums", "keys", "drums", "keys"];
    var m := multiset(xs);
    assert m == multiset{"drums", "drums", "keys", "keys"};
    assert Count(xs, "drums") == 2;
    forall y ensures Count(xs, y) <= Count(xs, "drums") {
      if y != "drums" && y != "keys" {
        assert y !in xs;
      }
    }
    assert FirstIndex(xs, "drums") == 0;
    MostCommonUnique(xs, "drums");
  }
}
