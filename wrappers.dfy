// Optional values, results and the exceptions the library raises, as values.

module Wrappers {

  datatype Option<T> = None | Some(value: T)

  /** An exception raised by the library, one constructor per distinct failure. */
  datatype Error =
    | CannotCombine                              // TypeError from `&` on two types or two roles
    | UnknownColumn(name: string)                // KeyError: no column of that name
    | NoLabelColumn                              // ValueError: schema has no LABEL column
    | UnexpectedSelection                        // ValueError: unsupported subset kind
    | ArgumentMismatch                           // TypeError: a factory called with the wrong arguments
    | IndexNotDatetime(column: string)           // ValueError: rolling index is not DATETIME
    | WindowWithoutIndex                         // ValueError: time window but no index column
    | ArityMismatch(expected: nat, received: nat)  // validation: wrong number of input columns
    | TypeNotAccepted(column: string, position: nat) // validation: input column of a wrong type
    | SelectorNotSized                           // TypeError: `len()` of, or iteration over, a ColumnTypeSelector
    | ExactlyOneOfKOrFrac                        // ValueError in feature selection
    | TopKBelowOne                               // ValueError in feature selection
    | FracOutOfRange                             // ValueError in feature selection
    | UnsupportedLabelType(column: string)       // ValueError in feature selection
    | UnsupportedFeatureType(column: string)     // ValueError in feature selection

  datatype Result<T> = Success(value: T) | Failure(error: Error)
  {
    predicate IsFailure() { Failure? }

    function PropagateFailure<U>(): Result<U>
      requires Failure?
    {
      Failure(error)
    }

    function Extract(): T
      requires Success?
    {
      value
    }
  }

  /**
   * Evaluating a list comprehension whose elements may raise: the values when every
   * element succeeds, otherwise the first error in order.
   */
  function CollectResults<T>(results: seq<Result<T>>): (r: Result<seq<T>>)
    ensures r.Success? <==> forall i :: 0 <= i < |results| ==> results[i].Success?
    ensures r.Success? ==> |r.value| == |results|
                           && forall i :: 0 <= i < |results| ==> r.value[i] == results[i].value
    ensures r.Failure? ==> exists i :: 0 <= i < |results| && results[i] == Failure(r.error)
                                       && forall j :: 0 <= j < i ==> results[j].Success?
    decreases |results|
  {
    if |results| == 0 then Success([])
    else if results[0].Failure? then Failure(results[0].error)
    else
      var rest := CollectResults(results[1..]);
      if rest.Failure? then
        assert exists i :: 0 <= i < |results| - 1 && results[1..][i] == Failure(rest.error)
                           && forall j :: 0 <= j < i ==> results[1..][j].Success?;
        var i :| 0 <= i < |results| - 1 && results[1..][i] == Failure(rest.error)
                 && forall j :: 0 <= j < i ==> results[1..][j].Success?;
        assert results[i + 1] == Failure(rest.error);
        assert forall j :: 0 <= j < i + 1 ==> results[j].Success? by {
          forall j | 0 <= j < i + 1 ensures results[j].Success? {
            if j > 0 {
              assert results[j] == results[1..][j - 1];
            }
          }
        }
        Failure(rest.error)
      else
        assert forall i :: 1 <= i < |results| ==> results[i] == results[1..][i - 1];
        Success([results[0].value] + rest.value)
  }

  /**
   * Nested loops that append what each step yields, where a step may raise: the
   * concatenation of every step's list when no step fails, otherwise the first error.
   */
  function FlatMapResults<X, T>(xs: seq<X>, step: X -> Result<seq<T>>): Result<seq<T>>
    decreases |xs|
  {
    if |xs| == 0 then Success([])
    else
      var done := FlatMapResults(xs[..|xs| - 1], step);
      if done.Failure? then done
      else
        var last := step(xs[|xs| - 1]);
        if last.Failure? then Failure(last.error) else Success(done.value + last.value)
  }

  /** The whole succeeds exactly when every step does; otherwise it fails with the first failing step's error. */
  lemma {:induction false} FlatMapResultsSpec<X, T>(xs: seq<X>, step: X -> Result<seq<T>>)
    ensures FlatMapResults(xs, step).Success? <==> forall i :: 0 <= i < |xs| ==> step(xs[i]).Success?
    ensures FlatMapResults(xs, step).Failure?
            ==> exists i :: 0 <= i < |xs| && step(xs[i]) == Failure(FlatMapResults(xs, step).error)
                            && forall j :: 0 <= j < i ==> step(xs[j]).Success?
    decreases |xs|
  {
    if |xs| > 0 {
      var init := xs[..|xs| - 1];
      assert forall i :: 0 <= i < |init| ==> init[i] == xs[i];
      FlatMapResultsSpec(init, step);
    }
  }

  /** One more step: its list is appended, or its error becomes the result. */
  lemma FlatMapResultsAppend<X, T>(xs: seq<X>, x: X, step: X -> Result<seq<T>>)
    ensures var done := FlatMapResults(xs, step);
            FlatMapResults(xs + [x], step)
            == if done.Failure? then done
               else if step(x).Failure? then Failure(step(x).error)
               else Success(done.value + step(x).value)
  {
    assert (xs + [x])[..|xs|] == xs;
  }

  /** Once a prefix has failed, the whole fails with the same error. */
  lemma {:induction false} FlatMapResultsFailurePersists<X, T>(xs: seq<X>, n: nat, step: X -> Result<seq<T>>)
    requires n <= |xs| && FlatMapResults(xs[..n], step).Failure?
    ensures FlatMapResults(xs, step) == FlatMapResults(xs[..n], step)
    decreases |xs|
  {
    if n < |xs| {
      var init := xs[..|xs| - 1];
      assert init[..n] == xs[..n];
      FlatMapResultsFailurePersists(init, n, step);
    } else {
      assert xs[..n] == xs;
    }
  }

  /** When every step yields `width` elements, the steps together yield `|xs| * width`. */
  lemma {:induction false} FlatMapResultsUniformLength<X, T>(xs: seq<X>, step: X -> Result<seq<T>>, width: nat)
    requires forall i :: 0 <= i < |xs| && step(xs[i]).Success? ==> |step(xs[i]).value| == width
    ensures FlatMapResults(xs, step).Success? ==> |FlatMapResults(xs, step).value| == |xs| * width
    decreases |xs|
  {
    if |xs| > 0 {
      var init := xs[..|xs| - 1];
      assert forall i :: 0 <= i < |init| ==> init[i] == xs[i];
      FlatMapResultsUniformLength(init, step, width);
      FlatMapResultsAppend(init, xs[|xs| - 1], step);
      assert init + [xs[|xs| - 1]] == xs;
      var done := FlatMapResults(init, step);
      var last := step(xs[|xs| - 1]);
      if done.Success? && last.Success? {
        assert |done.value + last.value| == |init| * width + width;
        assert |init| * width + width == (|init| + 1) * width;
      }
    }
  }

  /** A single step: its result is the whole result. */
  lemma FlatMapResultsSingle<X, T>(x: X, step: X -> Result<seq<T>>)
    ensures FlatMapResults([x], step) == step(x)
  {
    assert [x][..0] == [];
    if step(x).Success? {
      assert [] + step(x).value == step(x).value;
    }
  }

  /** When every step yields one element, the i-th element of the whole is the i-th step's. */
  lemma {:induction false} FlatMapResultsSingletons<X, T>(xs: seq<X>, step: X -> Result<seq<T>>)
    requires forall i :: 0 <= i < |xs| ==> step(xs[i]).Success? && |step(xs[i]).value| == 1
    ensures FlatMapResults(xs, step).Success?
    ensures |FlatMapResults(xs, step).value| == |xs|
    ensures forall i :: 0 <= i < |xs| ==> FlatMapResults(xs, step).value[i] == step(xs[i]).value[0]
    decreases |xs|
  {
    if |xs| > 0 {
      var init := xs[..|xs| - 1];
      assert forall i :: 0 <= i < |init| ==> init[i] == xs[i];
      FlatMapResultsSingletons(init, step);
    }
  }

  /** One loop iteration over `xs[i]`: a failure decides the whole, a success extends the prefix. */
  lemma FlatMapResultsStep<X, T>(xs: seq<X>, i: nat, step: X -> Result<seq<T>>, done: seq<T>)
    requires i < |xs| && FlatMapResults(xs[..i], step) == Success(done)
    ensures step(xs[i]).Failure? ==> FlatMapResults(xs, step) == Failure(step(xs[i]).error)
    ensures step(xs[i]).Success? ==> FlatMapResults(xs[..i + 1], step) == Success(done + step(xs[i]).value)
  {
    FlatMapResultsAppend(xs[..i], xs[i], step);
    assert xs[..i] + [xs[i]] == xs[..i + 1];
    if step(xs[i]).Failure? {
      FlatMapResultsFailurePersists(xs, i + 1, step);
    }
  }

  /** Every element of the whole comes from some step that succeeded. */
  lemma {:induction false} FlatMapResultsMembers<X, T>(xs: seq<X>, step: X -> Result<seq<T>>, y: T)
    requires FlatMapResults(xs, step).Success? && y in FlatMapResults(xs, step).value
    ensures exists i :: 0 <= i < |xs| && step(xs[i]).Success? && y in step(xs[i]).value
    decreases |xs|
  {
    var init := xs[..|xs| - 1];
    var done := FlatMapResults(init, step);
    if y in done.value {
      FlatMapResultsMembers(init, step, y);
      var i :| 0 <= i < |init| && step(init[i]).Success? && y in step(init[i]).value;
      assert init[i] == xs[i];
    } else {
      assert y in step(xs[|xs| - 1]).value;
    }
  }
}
