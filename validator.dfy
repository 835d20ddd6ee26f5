// The validator: checks a transformer against the columns it is about to be built on,
// and the index column a rolling aggregation needs.

module Validators {
  import opened Wrappers
  import opened Sequences
  import opened ColumnSpecification
  import opened TransformerBase
  import opened Transformers
  import Utils
  import N = NumericTransformers
  import A = AggregatingTransformers
  import D = DatetimeTransformers

  /** A validator either raises on a failed check or logs a warning and reports false. */
  datatype Validator = Validator(raiseOnError: bool)

  /** The pipeline's validator, which raises. */
  const DefaultValidator := Validator(true)

  /**
   * `validate_time_window_index_column`: a first window that is not None needs an index
   * column, and an index column must be DATETIME whatever the windows are. Only the
   * first window is looked at, and only for being None (an empty string still counts).
   */
  function ValidateTimeWindowIndexColumn(windows: seq<Option<TimeWindow>>, index: Option<ColumnSpec>): (r: Result<()>)
    ensures r.Failure? <==> (|windows| > 0 && windows[0].Some? && index.None?)
                            || (index.Some? && index.value.columnType != Datetime)
    ensures r.Failure? && index.None? ==> r.error == WindowWithoutIndex
    ensures r.Failure? && index.Some? ==> r.error == IndexNotDatetime(index.value.name)
  {
    if |windows| > 0 && windows[0].Some? && index.None? then Failure(WindowWithoutIndex)
    else if index.Some? && index.value.columnType != Datetime then Failure(IndexNotDatetime(index.value.name))
    else Success(())
  }

  /** A position takes part in the arity only when its type set is not empty. */
  predicate NonEmpty(types: set<ColumnType>)
  {
    |types| > 0
  }

  /**
   * The per-position type sets a transformer declares: a single set counts as one
   * position, and positions with no accepted type are dropped (so Count has arity 0).
   */
  function ExpectedPositions(expected: ExpectedTypes): (r: seq<set<ColumnType>>)
    ensures forall i :: 0 <= i < |r| ==> |r[i]| > 0
    ensures expected.Single? && |expected.types| > 0 ==> r == [expected.types]
    ensures expected.Single? && |expected.types| == 0 ==> r == []
    ensures expected.Positions? ==> IsSubsequence(r, expected.positions)
    ensures expected.Positions? && (forall i :: 0 <= i < |expected.positions| ==> |expected.positions[i]| > 0)
            ==> r == expected.positions
  {
    var all := match expected
      case Single(types) => [types]
      case Positions(positions) => positions;
    FilterSubsequence(all, NonEmpty);
    FilterKeepsAll(all, NonEmpty);
    Filter(all, NonEmpty)
  }

  /** The reference condition: one column per position, each of an accepted type. */
  predicate Accepts(positions: seq<set<ColumnType>>, columns: seq<ColumnSpec>)
  {
    |columns| == |positions| && forall i :: 0 <= i < |columns| ==> columns[i].columnType in positions[i]
  }

  /** The first position, from `from` on, whose column has a type the position does not accept. */
  function FirstTypeMismatch(positions: seq<set<ColumnType>>, columns: seq<ColumnSpec>, from: nat): (r: Option<nat>)
    requires |columns| == |positions| && from <= |columns|
    ensures r.None? <==> forall i :: from <= i < |columns| ==> columns[i].columnType in positions[i]
    ensures r.Some? ==> from <= r.value < |columns| && columns[r.value].columnType !in positions[r.value]
                        && forall i :: from <= i < r.value ==> columns[i].columnType in positions[i]
    decreases |columns| - from
  {
    if from == |columns| then None
    else if columns[from].columnType !in positions[from] then Some(from)
    else FirstTypeMismatch(positions, columns, from + 1)
  }

  /** `_raise_or_warn`: the raising validator fails with the error, the other one reports false. */
  function RaiseOrWarn(v: Validator, e: Error): (r: Result<bool>)
    ensures v.raiseOnError <==> r.Failure?
    ensures r.Failure? ==> r.error == e
    ensures r.Success? ==> !r.value
  {
    if v.raiseOnError then Failure(e) else Success(false)
  }

  /**
   * `validate_transformer_against_input_columns`. Over and Rolling wrappers always pass.
   * Otherwise the arity is checked first and then each position in order; the first
   * failed check raises or reports false.
   */
  function ValidateTransformer(v: Validator, t: Transformer, columns: seq<ColumnSpec>): (r: Result<bool>)
    ensures IsWrapper(t) ==> r == Success(true)
    ensures !IsWrapper(t) ==> (r == Success(true) <==> Accepts(ExpectedPositions(InputType(t)), columns))
    ensures r.Failure? <==> v.raiseOnError && r != Success(true) && !IsWrapper(t)
    ensures r.Success? && !v.raiseOnError ==> (r.value <==> IsWrapper(t) || Accepts(ExpectedPositions(InputType(t)), columns))
  {
    if IsWrapper(t) then Success(true)
    else
      var positions := ExpectedPositions(InputType(t));
      if |columns| != |positions| then RaiseOrWarn(v, ArityMismatch(|positions|, |columns|))
      else
        match FirstTypeMismatch(positions, columns, 0)
        case None => Success(true)
        case Some(p) => RaiseOrWarn(v, TypeNotAccepted(columns[p].name, p))
  }

  /**
   * The error a failed check reports: the arity when the column count is wrong, and
   * otherwise the first position whose column has a type the position does not accept.
   */
  lemma ValidationErrors(v: Validator, t: Transformer, columns: seq<ColumnSpec>)
    ensures var r := ValidateTransformer(v, t, columns);
            r.Failure? && |columns| != |ExpectedPositions(InputType(t))|
            ==> r.error == ArityMismatch(|ExpectedPositions(InputType(t))|, |columns|)
    ensures var r := ValidateTransformer(v, t, columns);
            r.Failure? && |columns| == |ExpectedPositions(InputType(t))|
            ==> var positions := ExpectedPositions(InputType(t));
                r.error.TypeNotAccepted?
                && var p := r.error.position;
                   p < |columns| && r.error.column == columns[p].name
                   && columns[p].columnType !in positions[p]
                   && forall i :: 0 <= i < p ==> columns[i].columnType in positions[i]
  {
  }

  // ---------------------------------------------------------------------------
  // The cases the validator's own tests exercise

  /** A first window with no index column raises; a DATETIME index lets the same window pass. */
  lemma TimeWindowExamples(ts: ColumnSpec)
    requires ts.columnType == Datetime
    ensures ValidateTimeWindowIndexColumn([Some(WindowText("1h"))], None) == Failure(WindowWithoutIndex)
    ensures ValidateTimeWindowIndexColumn([Some(WindowText("1h"))], Some(ts)) == Success(())
    ensures ValidateTimeWindowIndexColumn([], None) == Success(())
    ensures ValidateTimeWindowIndexColumn([None, Some(WindowText("1h"))], None) == Success(())
  {
  }

  /** A non-DATETIME index column is refused whatever the windows are. */
  lemma IndexMustBeDatetime(windows: seq<Option<TimeWindow>>, index: ColumnSpec)
    requires index.columnType != Datetime
    ensures ValidateTimeWindowIndexColumn(windows, Some(index)) == Failure(IndexNotDatetime(index.name))
  {
  }

  /** Count declares no typed position, so it takes no columns and refuses any. */
  lemma CountArity(v: Validator, cumulative: A.CumulativeOptions, filter: Option<Utils.Condition>, c: ColumnSpec)
    ensures ValidateTransformer(v, Agg(A.Count(cumulative, filter)), []) == Success(true)
    ensures ValidateTransformer(v, Agg(A.Count(cumulative, filter)), [c]) == RaiseOrWarn(v, ArityMismatch(0, 1))
  {
    assert ExpectedPositions(InputType(Agg(A.Count(cumulative, filter)))) == [];
  }

  /** Arithmetic transformers declare two NUMERIC|BOOLEAN positions. */
  lemma ArithmeticPositions(left: string, right: string)
    ensures ExpectedPositions(InputType(Num(N.Add(left, right)))) == [{Numeric, Boolean}, {Numeric, Boolean}]
  {
    var numericOrBoolean: set<ColumnType> := {Numeric, Boolean};
    assert |numericOrBoolean| > 0 by { assert Numeric in numericOrBoolean; }
    assert InputType(Num(N.Add(left, right))) == Positions([numericOrBoolean, numericOrBoolean]);
    PairPositions(numericOrBoolean, numericOrBoolean);
  }

  /** Two positions that each accept some type are both kept. */
  lemma PairPositions(first: set<ColumnType>, second: set<ColumnType>)
    requires |first| > 0 && |second| > 0
    ensures ExpectedPositions(Positions([first, second])) == [first, second]
  {
    var positions := [first, second];
    assert forall i :: 0 <= i < |positions| ==> |positions[i]| > 0;
  }

  /** Single-column numeric transformers declare one NUMERIC position. */
  lemma SinPositions(column: string)
    ensures ExpectedPositions(InputType(Num(N.Sin(column)))) == [{Numeric}]
  {
    var numeric: set<ColumnType> := {Numeric};
    assert InputType(Num(N.Sin(column))) == Single(numeric);
    assert |numeric| == 1;
  }

  /** A binary arithmetic transformer given one column raises an arity error. */
  lemma ArityExample(a: ColumnSpec, b: ColumnSpec)
    ensures ValidateTransformer(DefaultValidator, Num(N.Add(a.name, b.name)), [a]) == Failure(ArityMismatch(2, 1))
  {
    ArithmeticPositions(a.name, b.name);
  }

  /**
   * A sine of an ORDINAL column raises a type error at position 0, or reports false
   * without raising; a sine of a NUMERIC column passes.
   */
  lemma TypeExamples(a: ColumnSpec, b: ColumnSpec)
    requires a.columnType == Numeric && b.columnType == Ordinal
    ensures ValidateTransformer(DefaultValidator, Num(N.Sin(b.name)), [b]) == Failure(TypeNotAccepted(b.name, 0))
    ensures ValidateTransformer(Validator(false), Num(N.Sin(b.name)), [b]) == Success(false)
    ensures ValidateTransformer(DefaultValidator, Num(N.Sin(a.name)), [a]) == Success(true)
  {
    SinValidation(DefaultValidator, Num(N.Sin(b.name)), b);
    SinValidation(Validator(false), Num(N.Sin(b.name)), b);
    SinValidation(DefaultValidator, Num(N.Sin(a.name)), a);
  }

  /** Single-column numeric transformers have no wrapper and declare one NUMERIC position. */
  lemma SinShape(t: Transformer, column: string)
    requires t == Num(N.Sin(column))
    ensures !IsWrapper(t) && ExpectedPositions(InputType(t)) == [{Numeric}]
  {
    SinPositions(column);
  }

  /** A sine passes a NUMERIC column and raises, or reports false, on any other at position 0. */
  lemma SinValidation(v: Validator, t: Transformer, c: ColumnSpec)
    requires t == Num(N.Sin(c.name))
    ensures c.columnType == Numeric ==> ValidateTransformer(v, t, [c]) == Success(true)
    ensures c.columnType != Numeric ==> ValidateTransformer(v, t, [c]) == RaiseOrWarn(v, TypeNotAccepted(c.name, 0))
  {
    SinShape(t, c.name);
    SinglePositionValidation(v, t, c, {Numeric});
  }

  /** A transformer with one typed position, given one column: it passes exactly when the type is accepted. */
  lemma SinglePositionValidation(v: Validator, t: Transformer, c: ColumnSpec, types: set<ColumnType>)
    requires !IsWrapper(t) && ExpectedPositions(InputType(t)) == [types]
    ensures c.columnType in types ==> ValidateTransformer(v, t, [c]) == Success(true)
    ensures c.columnType !in types ==> ValidateTransformer(v, t, [c]) == RaiseOrWarn(v, TypeNotAccepted(c.name, 0))
  {
    if c.columnType !in types {
      assert FirstTypeMismatch([types], [c], 0) == Some(0);
    }
  }
  // ---------------------------------------------------------------------------
  // The validator as written, on the selectors `input_type` actually returns

  /**
   * Whether `input_type` returns a `ColumnTypeSelector`, or a tuple of them, rather than
   * a `set`. Only the seasonal transformers return a set; a wrapper returns its inner one's.
   */
  predicate DeclaresSelector(t: Transformer)
  {
    match t
    case Season(_) => false
    case Over(inner, _) => DeclaresSelector(inner)
    case Rolling(inner, _, _) => DeclaresSelector(inner)
    case _ => true
  }

  /**
   * `validate_transformer_against_input_columns` as written. A selector is not a `set`, so
   * it is iterated as if it were a tuple, or each selector of a tuple is passed to `len`;
   * `ColumnTypeSelector` supports neither, and the TypeError is not one `_raise_or_warn`
   * turns into a warning. Wrappers return before `input_type` is called.
   */
  function ValidateTransformerAsWritten(v: Validator, t: Transformer, columns: seq<ColumnSpec>): (r: Result<bool>)
    ensures r == Failure(SelectorNotSized) <==> !IsWrapper(t) && DeclaresSelector(t)
    ensures r != Failure(SelectorNotSized) ==> r == ValidateTransformer(v, t, columns)
  {
    if IsWrapper(t) then Success(true)
    else if DeclaresSelector(t) then Failure(SelectorNotSized)
    else
      ValidationNeverSelectorError(v, t, columns);
      ValidateTransformer(v, t, columns)
  }

  /** Reading a selector as its type set, validation only ever reports arity or type errors. */
  lemma ValidationNeverSelectorError(v: Validator, t: Transformer, columns: seq<ColumnSpec>)
    ensures ValidateTransformer(v, t, columns) != Failure(SelectorNotSized)
  {
    ValidationErrors(v, t, columns);
  }

  /**
   * As written, a transformer that is not a wrapper passes validation only when it is
   * seasonal: every other family declares its inputs with selectors.
   */
  lemma OnlySeasonalPassAsWritten(v: Validator, t: Transformer, columns: seq<ColumnSpec>)
    requires !IsWrapper(t)
    ensures ValidateTransformerAsWritten(v, t, columns).Success?
            <==> t.Season? && ValidateTransformer(v, t, columns).Success?
    ensures t.Season? ==> ValidateTransformerAsWritten(v, t, columns) == ValidateTransformer(v, t, columns)
  {
  }

  /**
   * The input that shows the difference: a count with no columns raises TypeError as
   * written, with either validator, where reading its selector as a type set accepts it.
   */
  lemma CountRaisesAsWritten(v: Validator, c: ColumnSpec)
    ensures ValidateTransformerAsWritten(v, Agg(A.Count(A.NONE, None)), []) == Failure(SelectorNotSized)
    ensures ValidateTransformer(v, Agg(A.Count(A.NONE, None)), []) == Success(true)
  {
    CountArity(v, A.NONE, None, c);
  }

  /** The validator test's valid input: a sine of a NUMERIC column, which raises TypeError as written. */
  lemma SinRaisesAsWritten(v: Validator, a: ColumnSpec)
    requires a.columnType == Numeric
    ensures ValidateTransformerAsWritten(v, Num(N.Sin(a.name)), [a]) == Failure(SelectorNotSized)
    ensures ValidateTransformer(v, Num(N.Sin(a.name)), [a]) == Success(true)
  {
    SinValidation(v, Num(N.Sin(a.name)), a);
  }

  /** A seasonal transformer declares a real set, so it validates the same way as written. */
  lemma SeasonalPassesAsWritten(v: Validator, d: ColumnSpec)
    requires d.columnType == Datetime
    ensures ValidateTransformerAsWritten(v, Season(D.HourOfDay(d.name)), [d]) == Success(true)
  {
    assert ExpectedPositions(InputType(Season(D.HourOfDay(d.name)))) == [{Datetime}];
    SinglePositionValidation(v, Season(D.HourOfDay(d.name)), d, {Datetime});
  }
}
