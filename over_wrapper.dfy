// The Over wrapper: evaluates another aggregation within groups of rows that share
// the values of some columns.

module OverWrappers {
  import opened Wrappers
  import opened Strings
  import opened ColumnSpecification
  import opened Utils
  import opened TransformerBase
  import opened Transformers
  import A = AggregatingTransformers

  /** The constructor: grouping columns given as specifications or names are kept as names. */
  function NewOver(inner: Transformer, overColumns: seq<ColumnRef>): (t: Transformer)
    ensures t.Over? && t.inner == inner
    ensures |t.overColumns| == |overColumns|
    ensures forall i :: 0 <= i < |overColumns| ==> t.overColumns[i] == RefName(overColumns[i])
  {
    Over(inner, GetNamesFromColumnSpecs(overColumns))
  }

  /**
   * An Over transformer accepts what its inner one accepts, returns its type, and is
   * named after it: the inner name, `_over_`, the grouping columns joined by `_and_`.
   */
  lemma OverDelegates(inner: Transformer, overColumns: seq<ColumnRef>)
    ensures InputType(NewOver(inner, overColumns)) == InputType(inner)
    ensures ReturnType(NewOver(inner, overColumns)) == ReturnType(inner)
    ensures IsCommutative(FactoryOf(NewOver(inner, overColumns)))
    ensures Name(NewOver(inner, overColumns))
            == Name(inner) + "_over_" + Join("_and_", GetNamesFromColumnSpecs(overColumns))
  {
  }

  /** Wrapping keeps different inner outputs apart when the grouping is the same. */
  lemma OverKeepsDistinct(i1: Transformer, i2: Transformer, keys: seq<string>)
    requires Name(i1) != Name(i2)
    ensures OutputSpec(Over(i1, keys)) != OutputSpec(Over(i2, keys))
  {
    SuffixKeepsDistinct(Name(i1), Name(i2), OverSuffix(keys));
  }

  lemma OverCountExample()
    ensures Name(NewOver(Agg(A.Count(A.NONE, None)), [ByName("G1"), ByName("G2")])) == "count_over_G1_and_G2"
  {
    OverDelegates(Agg(A.Count(A.NONE, None)), [ByName("G1"), ByName("G2")]);
    PlainCountName();
    TwoGroupsJoined();
    OverCountConcatenation();
  }

  lemma PlainCountName()
    ensures Name(Agg(A.Count(A.NONE, None))) == "count"
  {
    assert A.Name(A.Count(A.NONE, None)) == "" + "count" + "";
  }

  lemma TwoGroupsJoined()
    ensures Join("_and_", GetNamesFromColumnSpecs([ByName("G1"), ByName("G2")])) == "G1_and_G2"
  {
    assert GetNamesFromColumnSpecs([ByName("G1"), ByName("G2")]) == ["G1", "G2"];
    assert Join("_and_", ["G1", "G2"]) == "G1_and_G2" by {
      assert ["G1", "G2"][1..] == ["G2"];
    }
  }

  lemma OverCountConcatenation()
    ensures "count" + "_over_" + "G1_and_G2" == "count_over_G1_and_G2"
  {
  }
}
