// The Rolling wrapper: evaluates another aggregation over a trailing time window
// along a DATETIME index column.

module RollingWrappers {
  import opened Wrappers
  import opened Strings
  import opened ColumnSpecification
  import opened Utils
  import opened TransformerBase
  import opened Transformers
  import A = AggregatingTransformers

  /** The constructor, which refuses an index column that is not DATETIME. */
  function NewRolling(inner: Transformer, indexColumn: ColumnSpec, window: TimeWindow): (r: Result<Transformer>)
    ensures r.Success? <==> indexColumn.columnType == Datetime
    ensures r.Failure? ==> r.error == IndexNotDatetime(indexColumn.name)
    ensures r.Success? ==> r.value == Rolling(inner, indexColumn, window)
  {
    if indexColumn.columnType != Datetime then Failure(IndexNotDatetime(indexColumn.name))
    else Success(Rolling(inner, indexColumn, window))
  }

  /**
   * A Rolling transformer accepts what its inner one accepts, returns its type, and is
   * named after it: the inner name, `_in_the_last_`, the window.
   */
  lemma RollingDelegates(inner: Transformer, index: ColumnSpec, w: TimeWindow)
    ensures InputType(Rolling(inner, index, w)) == InputType(inner)
    ensures ReturnType(Rolling(inner, index, w)) == ReturnType(inner)
    ensures IsCommutative(FactoryOf(Rolling(inner, index, w)))
    ensures Name(Rolling(inner, index, w)) == Name(inner) + "_in_the_last_" + WindowName(w)
    ensures w.WindowText? ==> WindowName(w) == w.text
  {
  }

  /** A duration of two days and one hour is written `2d1h`, like the equivalent string. */
  lemma RollingDeltaExample(inner: Transformer, index: ColumnSpec)
    ensures Name(Rolling(inner, index, WindowDelta(2 * 86400 + 3600)))
            == Name(Rolling(inner, index, WindowText("2d1h")))
  {
    TimedeltaDayExample();
  }

  /** Nesting the two wrappers appends their suffixes in the order they are applied. */
  lemma NestingOrder(t: Transformer, index: ColumnSpec, w: TimeWindow, keys: seq<string>)
    ensures Name(Over(Rolling(t, index, w), keys)) == Name(t) + RollingSuffix(w) + OverSuffix(keys)
    ensures Name(Rolling(Over(t, keys), index, w)) == Name(t) + OverSuffix(keys) + RollingSuffix(w)
  {
  }

  /** Rolling over Over and Over over Rolling put the two suffixes in opposite orders. */
  lemma NestingOrderExamples(t: Transformer, index: ColumnSpec)
    requires Name(t) == "x_first_value"
    ensures Name(Over(Rolling(t, index, WindowText("2d1h")), ["g"])) == "x_first_value_in_the_last_2d1h_over_g"
    ensures Name(Rolling(Over(t, ["g"]), index, WindowText("2d1h"))) == "x_first_value_over_g_in_the_last_2d1h"
  {
    NestingOrder(t, index, WindowText("2d1h"), ["g"]);
    ExampleSuffixes();
    RollingThenOverConcatenation();
    OverThenRollingConcatenation();
  }

  lemma ExampleSuffixes()
    ensures OverSuffix(["g"]) == "_over_g"
    ensures RollingSuffix(WindowText("2d1h")) == "_in_the_last_2d1h"
  {
    assert OverSuffix(["g"]) == "_over_g";
  }

  lemma RollingThenOverConcatenation()
    ensures "x_first_value" + "_in_the_last_2d1h" + "_over_g" == "x_first_value_in_the_last_2d1h_over_g"
  {
  }

  lemma OverThenRollingConcatenation()
    ensures "x_first_value" + "_over_g" + "_in_the_last_2d1h" == "x_first_value_over_g_in_the_last_2d1h"
  {
  }
}
