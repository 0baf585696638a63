/**
  The closed label set of the retrieval system and the two lookup tables that encode it
  (LABEL_MAP and INV_LABEL_MAP of the evaluation scripts, CLASS_TEXTS of the prototype router).
 */
module Labels {

  datatype Label = Drums | Keys

  /** The class string stored in index metadata and compared by the evaluators. */
  function Name(l: Label): string
  {
    match l
    case Drums => "drums"
    case Keys => "keys"
  }

  /** LABEL_MAP: class string to integer code. */
  const LabelMap: map<string, int> := map["drums" := 0, "keys" := 1]

  /** INV_LABEL_MAP: integer code back to class string. */
  const InvLabelMap: map<int, string> := map[0 := "drums", 1 := "keys"]

  /** CLASS_TEXTS: the anchor texts of the prototype router, in argmax index order. */
  const ClassTexts: seq<string> := [Name(Drums), Name(Keys)]

  /** The string keys of LABEL_MAP are exactly the names of the two labels. */
  lemma LabelMapDomain(name: string)
    ensures name in LabelMap <==> exists l: Label :: Name(l) == name
  {
    if name in LabelMap {
      if name == "drums" {
        assert Name(Drums) == name;
      } else {
        assert Name(Keys) == name;
      }
    }
  }

  /** LABEL_MAP and INV_LABEL_MAP are mutual inverses between {drums, keys} and {0, 1}. */
  lemma LabelMapsInverse()
    ensures LabelMap.Keys == InvLabelMap.Values && InvLabelMap.Keys == LabelMap.Values
    ensures forall name :: name in LabelMap ==> LabelMap[name] in InvLabelMap && InvLabelMap[LabelMap[name]] == name
    ensures forall c :: c in InvLabelMap ==> InvLabelMap[c] in LabelMap && LabelMap[InvLabelMap[c]] == c
  {
    assert InvLabelMap[0] == "drums" && InvLabelMap[1] == "keys";
    assert LabelMap["drums"] == 0 && LabelMap["keys"] == 1;
  }

  /** LABEL_MAP is injective: two class strings with the same code are the same string. */
  lemma LabelMapInjective(a: string, b: string)
    requires a in LabelMap && b in LabelMap && LabelMap[a] == LabelMap[b]
    ensures a == b
  {
    LabelMapsInverse();
  }

  /** CLASS_TEXTS lists each label once, drums first, and every entry is a LABEL_MAP key. */
  lemma ClassTextsAreLabels()
    ensures |ClassTexts| == 2
    ensures forall i :: 0 <= i < |ClassTexts| ==> ClassTexts[i] in LabelMap && LabelMap[ClassTexts[i]] == i
  {
    assert ClassTexts[0] == "drums" && ClassTexts[1] == "keys";
  }
}
