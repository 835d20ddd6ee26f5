// Aggregating transformers: counts, lags, first values, modes, distinct counts,
// entropy, pointwise mutual information and the arithmetic aggregations, each
// optionally cumulative and optionally restricted by a filtering condition.

module AggregatingTransformers {
  import opened Wrappers
  import opened Strings
  import opened ColumnSpecification
  import opened Utils
  import opened TransformerBase

  datatype CumulativeOptions = NONE | EXCLUSIVE | INCLUSIVE

  function CumulativeValue(c: CumulativeOptions): string
  {
    match c
    case NONE => "none"
    case EXCLUSIVE => "exclusive"
    case INCLUSIVE => "inclusive"
  }

  /** `str(CumulativeOptions)`: the name fragment of a cumulative mode. */
  function CumulativeText(c: CumulativeOptions): (s: string)
    ensures s == "" <==> c == NONE
    ensures c != NONE ==> s == CumulativeValue(c) + "_cum_"
  {
    if c != NONE then CumulativeValue(c) + "_cum_" else ""
  }

  /** The three modes produce three different fragments. */
  lemma CumulativeTextInjective(a: CumulativeOptions, b: CumulativeOptions)
    requires CumulativeText(a) == CumulativeText(b)
    ensures a == b
  {
    if a != NONE && b != NONE {
      assert CumulativeText(a)[0] == CumulativeText(b)[0];
    }
  }

  /**
   * The aggregating transformers. `filter` is the filtering condition as passed to the
   * constructor; the classes that default it to `True` do so in `StoredFilter`.
   */
  datatype AggregatingTransformer =
    | Count(cumulative: CumulativeOptions, filter: Option<Condition>)
    | Lagged(spec: ColumnSpec, lag: int)
    | FirstValue(spec: ColumnSpec, filter: Option<Condition>)
    | Mode(spec: ColumnSpec, cumulative: CumulativeOptions, filter: Option<Condition>)
    | NumUnique(column: string, cumulative: CumulativeOptions, filter: Option<Condition>)
    | EntityEntropy(source: string, target: string, cumulative: CumulativeOptions)
    | Pmi(columnA: string, columnB: string, cumulative: CumulativeOptions, filter: Option<Condition>)
    | Sum(column: string, cumulative: CumulativeOptions, filter: Option<Condition>)
    | Quantile(column: string, quantile: real, cumulative: CumulativeOptions, filter: Option<Condition>)
    | Median(column: string, cumulative: CumulativeOptions, filter: Option<Condition>)
    | Mean(column: string, cumulative: CumulativeOptions, filter: Option<Condition>)
    | Std(column: string, cumulative: CumulativeOptions, filter: Option<Condition>)
    | Zscore(column: string, cumulative: CumulativeOptions, filter: Option<Condition>)

  datatype AggregatingKind =
    | CountKind | LaggedKind | FirstValueKind | ModeKind | NumUniqueKind | EntityEntropyKind | PmiKind
    | SumKind | QuantileKind | MedianKind | MeanKind | StdKind | ZscoreKind

  function KindOf(t: AggregatingTransformer): AggregatingKind
  {
    match t
    case Count(_, _) => CountKind
    case Lagged(_, _) => LaggedKind
    case FirstValue(_, _) => FirstValueKind
    case Mode(_, _, _) => ModeKind
    case NumUnique(_, _, _) => NumUniqueKind
    case EntityEntropy(_, _, _) => EntityEntropyKind
    case Pmi(_, _, _, _) => PmiKind
    case Sum(_, _, _) => SumKind
    case Quantile(_, _, _, _) => QuantileKind
    case Median(_, _, _) => MedianKind
    case Mean(_, _, _) => MeanKind
    case Std(_, _, _) => StdKind
    case Zscore(_, _, _) => ZscoreKind
  }

  predicate IsArithmeticAggregation(k: AggregatingKind)
  {
    k in {SumKind, QuantileKind, MedianKind, MeanKind, StdKind, ZscoreKind}
  }

  /** Entropy of a target within a source is the only order-sensitive aggregation. */
  predicate IsCommutative(k: AggregatingKind)
  {
    k != EntityEntropyKind
  }

  /** The condition the object keeps: Count keeps what it was given, the others default it to `True`. */
  function StoredFilter(t: AggregatingTransformer): Option<Condition>
  {
    match t
    case Count(_, f) => f
    case Lagged(_, _) => None
    case EntityEntropy(_, _, _) => None
    case _ => Some(DefaultTrueFilteringCondition(t.filter))
  }

  /** Neither categorical-only position accepts NUMERIC or DATETIME. */
  function CategoricalTypes(): (r: set<ColumnType>)
    ensures r == ExcludeTypes({Numeric, Datetime})
  {
    ExcludeTypes({Numeric, Datetime})
  }

  function InputType(t: AggregatingTransformer): ExpectedTypes
  {
    match KindOf(t)
    case CountKind => Single({})
    case EntityEntropyKind => Positions([CategoricalTypes(), CategoricalTypes()])
    case PmiKind => Positions([CategoricalTypes(), CategoricalTypes()])
    case _ => if IsArithmeticAggregation(KindOf(t)) then Single({Numeric, Boolean}) else Single(AnyType())
  }

  function ReturnType(t: AggregatingTransformer): ColumnType
  {
    match t
    case Lagged(c, _) => c.columnType
    case FirstValue(c, _) => c.columnType
    case Mode(c, _, _) => c.columnType
    case _ => Numeric
  }

  /** Python's `int(x)`: truncation toward zero. */
  function Truncate(x: real): (r: int)
    ensures x >= 0.0 ==> r >= 0 && r as real <= x < r as real + 1.0
    ensures x < 0.0 ==> r <= 0 && r as real - 1.0 < x <= r as real
  {
    if x >= 0.0 then x.Floor else -((-x).Floor)
  }

  /** The aggregation word of an arithmetic aggregation. */
  function Aggregation(t: AggregatingTransformer): string
    requires IsArithmeticAggregation(KindOf(t))
  {
    match t
    case Sum(_, _, _) => "sum"
    case Quantile(_, q, _, _) => if q == 0.5 then "median" else "quantile_" + IntToString(Truncate(q * 100.0))
    case Median(_, _, _) => "median"
    case Mean(_, _, _) => "mean"
    case Std(_, _, _) => "std"
    case Zscore(_, _, _) => "z_score"
  }

  function Name(t: AggregatingTransformer): string
  {
    match t
    case Count(cum, f) => CumulativeText(cum) + "count" + FilteringConditionToString(f)
    case Lagged(c, lag) => c.name + "_lagged_" + IntToString(lag)
    case FirstValue(c, _) => c.name + "_first_value" + FilteringConditionToString(StoredFilter(t))
    case Mode(c, cum, _) => c.name + "_" + CumulativeText(cum) + "mode" + FilteringConditionToString(StoredFilter(t))
    case NumUnique(c, cum, _) => c + "_" + CumulativeText(cum) + "num_unique" + FilteringConditionToString(StoredFilter(t))
    case EntityEntropy(source, target, cum) => target + "_by_" + source + "_" + CumulativeText(cum) + "entropy"
    case Pmi(a, b, cum, _) => a + "_" + b + "_" + CumulativeText(cum) + "pmi" + FilteringConditionToString(StoredFilter(t))
    case _ => t.column + "_" + CumulativeText(t.cumulative) + Aggregation(t) + FilteringConditionToString(StoredFilter(t))
  }

  function OutputSpec(t: AggregatingTransformer): (r: ColumnSpec)
    ensures r.name == Name(t) && r.columnType == ReturnType(t) && r.role == Feature
  {
    OutputSpecification(Name(t), ReturnType(t))
  }

  // Sub-transformers of the composite aggregations, built from the constructor's arguments.

  /** The count a PMI transformer normalises by. */
  function PmiCount(t: AggregatingTransformer): AggregatingTransformer
    requires t.Pmi?
  {
    Count(t.cumulative, t.filter)
  }

  /** The sum and the count whose ratio a mean is. */
  function MeanParts(t: AggregatingTransformer): (AggregatingTransformer, AggregatingTransformer)
    requires t.Mean?
  {
    (Sum(t.column, t.cumulative, t.filter), Count(t.cumulative, t.filter))
  }

  /** The mean a standard deviation is taken around. */
  function StdMean(t: AggregatingTransformer): AggregatingTransformer
    requires t.Std?
  {
    Mean(t.column, t.cumulative, t.filter)
  }

  /** The mean and standard deviation a z-score standardises with. */
  function ZscoreParts(t: AggregatingTransformer): (AggregatingTransformer, AggregatingTransformer)
    requires t.Zscore?
  {
    (Mean(t.column, t.cumulative, t.filter), Std(t.column, t.cumulative, t.filter))
  }

  /** Composite aggregations hand their column, cumulative mode and condition down unchanged. */
  lemma CompositesShareArguments(t: AggregatingTransformer)
    ensures t.Mean? ==> MeanParts(t).0.column == t.column && MeanParts(t).0.cumulative == t.cumulative
                        && MeanParts(t).1.cumulative == t.cumulative
                        && StoredFilter(MeanParts(t).0) == StoredFilter(t) && MeanParts(t).1.filter == t.filter
    ensures t.Std? ==> StdMean(t).column == t.column && StdMean(t).cumulative == t.cumulative
                       && StoredFilter(StdMean(t)) == StoredFilter(t)
    ensures t.Zscore? ==> ZscoreParts(t).0 == Mean(t.column, t.cumulative, t.filter)
                          && StdMean(ZscoreParts(t).1) == ZscoreParts(t).0
    ensures t.Pmi? ==> PmiCount(t).cumulative == t.cumulative && PmiCount(t).filter == t.filter
  {
  }

  /** A count has no input position, is NUMERIC and is named after its mode and condition. */
  lemma CountMetadata(cum: CumulativeOptions, f: Option<Condition>)
    ensures InputType(Count(cum, f)) == Single({})
    ensures ReturnType(Count(cum, f)) == Numeric
    ensures Name(Count(cum, f)) == CumulativeText(cum) + "count" + FilteringConditionToString(f)
  {
  }

  lemma CountNameExamples()
    ensures Name(Count(NONE, Some(Expression("X")))) == "count_where_X"
    ensures Name(Count(NONE, None)) == "count"
    ensures Name(Count(INCLUSIVE, None)) == "inclusive_cum_count"
  {
  }

  /** Lags, first values and modes keep the type of the column they read. */
  lemma ReturnTypeFollowsInput(t: AggregatingTransformer)
    requires t.Lagged? || t.FirstValue? || t.Mode?
    ensures ReturnType(t) == t.spec.columnType
    ensures InputType(t) == Single(AnyType())
  {
  }

  /** Different lags of one column are different features. */
  lemma LaggedNamesDistinct(c: ColumnSpec, lag1: int, lag2: int)
    requires lag1 != lag2
    ensures Name(Lagged(c, lag1)) != Name(Lagged(c, lag2))
  {
    if IntToString(lag1) == IntToString(lag2) {
      IntToStringInjective(lag1, lag2);
    }
    var p := c.name + "_lagged_";
    assert Name(Lagged(c, lag1)) == p + IntToString(lag1);
    assert (p + IntToString(lag1))[|p|..] == IntToString(lag1);
    assert (p + IntToString(lag2))[|p|..] == IntToString(lag2);
  }

  /** The arithmetic aggregations read one NUMERIC-or-BOOLEAN column and yield NUMERIC. */
  lemma ArithmeticAggregationMetadata(t: AggregatingTransformer)
    requires IsArithmeticAggregation(KindOf(t))
    ensures InputType(t) == Single({Numeric, Boolean})
    ensures ReturnType(t) == Numeric && IsCommutative(KindOf(t))
    ensures Name(t) == t.column + "_" + CumulativeText(t.cumulative) + Aggregation(t) + FilteringConditionToString(t.filter)
  {
    DefaultTrueKeepsSuffix(t.filter);
  }

  /** A median is the 0.5 quantile, down to its name. */
  lemma MedianIsHalfQuantile(c: string, cum: CumulativeOptions, f: Option<Condition>)
    ensures OutputSpec(Median(c, cum, f)) == OutputSpec(Quantile(c, 0.5, cum, f))
    ensures Name(Median(c, cum, f)) == c + "_" + CumulativeText(cum) + "median" + FilteringConditionToString(f)
  {
    DefaultTrueKeepsSuffix(f);
  }

  lemma QuantileNameExample()
    ensures Aggregation(Quantile("x", 0.25, NONE, None)) == "quantile_25"
  {
    assert Truncate(0.25 * 100.0) == 25;
    assert IntToString(25) == "25" by {
      assert NatToString(25) == NatToString(2) + [DigitChar(5)];
    }
  }

  lemma ModeNameExample()
    ensures Name(Mode(NominalSpec("x"), EXCLUSIVE, Some(Expression("X")))) == "x_exclusive_cum_mode_where_X"
  {
    ModeNamePieces();
    ModeNameConcatenation();
  }

  lemma ModeNamePieces()
    ensures Name(Mode(NominalSpec("x"), EXCLUSIVE, Some(Expression("X")))) == "x" + "_" + "exclusive_cum_" + "mode" + "_where_X"
  {
    assert FilteringConditionToString(StoredFilter(Mode(NominalSpec("x"), EXCLUSIVE, Some(Expression("X"))))) == "_where_X";
    assert CumulativeText(EXCLUSIVE) == "exclusive_cum_";
  }

  lemma ModeNameConcatenation()
    ensures "x" + "_" + "exclusive_cum_" + "mode" + "_where_X" == "x_exclusive_cum_mode_where_X"
  {
    assert "x" + "_" == "x_";
    assert "x_" + "exclusive_cum_" == "x_exclusive_cum_";
    assert "x_exclusive_cum_" + "mode" == "x_exclusive_cum_mode";
  }

  lemma FirstValueNameExample()
    ensures Name(FirstValue(NominalSpec("x"), Some(Expression("X")))) == "x_first_value_where_X"
    ensures Name(NumUnique("x", NONE, None)) == "x_num_unique"
  {
    FilteredFirstValueName();
    UnfilteredNumUniqueName();
  }

  lemma FilteredFirstValueName()
    ensures Name(FirstValue(NominalSpec("x"), Some(Expression("X")))) == "x_first_value_where_X"
  {
    var t := FirstValue(NominalSpec("x"), Some(Expression("X")));
    assert FilteringConditionToString(StoredFilter(t)) == "_where_X";
    assert Name(t) == "x" + "_first_value" + "_where_X";
  }

  /** The first value of a column without a filter is named `<column>_first_value`. */
  lemma UnfilteredFirstValueName(c: ColumnSpec)
    ensures Name(FirstValue(c, None)) == c.name + "_first_value"
  {
    assert StoredFilter(FirstValue(c, None)) == Some(LiteralTrue);
  }

  lemma UnfilteredNumUniqueName()
    ensures Name(NumUnique("x", NONE, None)) == "x_num_unique"
  {
    var t := NumUnique("x", NONE, None);
    assert FilteringConditionToString(StoredFilter(t)) == "";
    assert Name(t) == "x" + "_" + "" + "num_unique" + "";
  }

  lemma EntropyAndPmiNameExample()
    ensures Name(EntityEntropy("s", "t", NONE)) == "t_by_s_entropy"
    ensures Name(Pmi("a", "b", INCLUSIVE, None)) == "a_b_inclusive_cum_pmi"
  {
    EntropyName();
    PmiName();
  }

  lemma EntropyName()
    ensures Name(EntityEntropy("s", "t", NONE)) == "t_by_s_entropy"
  {
    assert Name(EntityEntropy("s", "t", NONE)) == "t" + "_by_" + "s" + "_" + "" + "entropy";
  }

  lemma PmiName()
    ensures Name(Pmi("a", "b", INCLUSIVE, None)) == "a_b_inclusive_cum_pmi"
  {
    PmiNamePieces();
    PmiNameConcatenation();
  }

  lemma PmiNamePieces()
    ensures Name(Pmi("a", "b", INCLUSIVE, None)) == "a" + "_" + "b" + "_" + "inclusive_cum_" + "pmi" + ""
  {
    assert FilteringConditionToString(StoredFilter(Pmi("a", "b", INCLUSIVE, None))) == "";
    assert CumulativeText(INCLUSIVE) == "inclusive_cum_";
  }

  lemma PmiNameConcatenation()
    ensures "a" + "_" + "b" + "_" + "inclusive_cum_" + "pmi" + "" == "a_b_inclusive_cum_pmi"
  {
    assert "a" + "_" + "b" + "_" == "a_b_";
    assert "a_b_" + "inclusive_cum_" == "a_b_inclusive_cum_";
  }

  /** Every aggregation except entropy is commutative; NUMERIC results for all but the type-keeping three. */
  lemma CommutativityAndTypes(t: AggregatingTransformer)
    ensures IsCommutative(KindOf(t)) <==> !t.EntityEntropy?
    ensures !(t.Lagged? || t.FirstValue? || t.Mode?) ==> ReturnType(t) == Numeric
  {
  }

  datatype ArithmeticAggregations = SUM | QUANTILE | MEDIAN | MEAN | STD | ZSCORE

  function ArithmeticAggregationKind(a: ArithmeticAggregations): (k: AggregatingKind)
    ensures IsArithmeticAggregation(k)
  {
    match a
    case SUM => SumKind
    case QUANTILE => QuantileKind
    case MEDIAN => MedianKind
    case MEAN => MeanKind
    case STD => StdKind
    case ZSCORE => ZscoreKind
  }

  lemma ArithmeticAggregationsRegistry(a: ArithmeticAggregations, b: ArithmeticAggregations, k: AggregatingKind)
    ensures ArithmeticAggregationKind(a) == ArithmeticAggregationKind(b) ==> a == b
    ensures IsArithmeticAggregation(k) ==> exists x :: ArithmeticAggregationKind(x) == k
  {
    if k == SumKind { assert ArithmeticAggregationKind(SUM) == k; }
    if k == QuantileKind { assert ArithmeticAggregationKind(QUANTILE) == k; }
    if k == MedianKind { assert ArithmeticAggregationKind(MEDIAN) == k; }
    if k == MeanKind { assert ArithmeticAggregationKind(MEAN) == k; }
    if k == StdKind { assert ArithmeticAggregationKind(STD) == k; }
    if k == ZscoreKind { assert ArithmeticAggregationKind(ZSCORE) == k; }
  }

  /**
   * An output name starts from what the aggregation reads: the column (both columns for PMI,
   * the target then the source for entropy), or the cumulative text and `count` for a count.
   */
  lemma NameStartsWithColumns(t: AggregatingTransformer)
    ensures t.Lagged? || t.FirstValue? || t.Mode? ==> t.spec.name + "_" <= Name(t)
    ensures t.NumUnique? || IsArithmeticAggregation(KindOf(t)) ==> t.column + "_" <= Name(t)
    ensures t.Pmi? ==> t.columnA + "_" + t.columnB + "_" <= Name(t)
    ensures t.EntityEntropy? ==> t.target + "_by_" + t.source + "_" <= Name(t)
    ensures t.Count? ==> CumulativeText(t.cumulative) + "count" <= Name(t)
  {
    if t.Lagged? || t.FirstValue? || t.Mode? {
      SpecNameFirst(t);
    } else if t.NumUnique? || IsArithmeticAggregation(KindOf(t)) {
      ColumnNameFirst(t);
    } else if t.Pmi? || t.EntityEntropy? {
      PairNamesFirst(t);
    } else {
      PrefixOfJoin(CumulativeText(t.cumulative) + "count", FilteringConditionToString(t.filter));
    }
  }

  lemma SpecNameFirst(t: AggregatingTransformer)
    requires t.Lagged? || t.FirstValue? || t.Mode?
    ensures t.spec.name + "_" <= Name(t)
  {
    match t
    case Lagged(c, lag) =>
      PrefixOfJoin(c.name + "_", "lagged_" + IntToString(lag));
    case FirstValue(c, _) =>
      PrefixOfJoin(c.name + "_", "first_value" + FilteringConditionToString(StoredFilter(t)));
    case Mode(c, cum, _) =>
      PrefixOfJoin(c.name + "_", CumulativeText(cum) + "mode" + FilteringConditionToString(StoredFilter(t)));
  }

  lemma ColumnNameFirst(t: AggregatingTransformer)
    requires t.NumUnique? || IsArithmeticAggregation(KindOf(t))
    ensures t.column + "_" <= Name(t)
  {
    if t.NumUnique? {
      PrefixOfJoin(t.column + "_", CumulativeText(t.cumulative) + "num_unique" + FilteringConditionToString(StoredFilter(t)));
    } else {
      PrefixOfJoin(t.column + "_", CumulativeText(t.cumulative) + Aggregation(t) + FilteringConditionToString(StoredFilter(t)));
    }
  }

  lemma PairNamesFirst(t: AggregatingTransformer)
    requires t.Pmi? || t.EntityEntropy?
    ensures t.Pmi? ==> t.columnA + "_" + t.columnB + "_" <= Name(t)
    ensures t.EntityEntropy? ==> t.target + "_by_" + t.source + "_" <= Name(t)
  {
    if t.Pmi? {
      PrefixOfJoin(t.columnA + "_" + t.columnB + "_", CumulativeText(t.cumulative) + "pmi" + FilteringConditionToString(StoredFilter(t)));
    } else {
      PrefixOfJoin(t.target + "_by_" + t.source + "_", CumulativeText(t.cumulative) + "entropy");
    }
  }

  lemma PrefixOfJoin(prefix: string, rest: string)
    ensures prefix <= prefix + rest
  {
    assert (prefix + rest)[..|prefix|] == prefix;
  }

  /**
   * The arithmetic aggregation words: different classes get different words, except that a
   * 0.5 quantile is named as a median; other quantiles differ exactly in their truncated percent.
   */
  lemma AggregationWords(t: AggregatingTransformer, u: AggregatingTransformer)
    requires IsArithmeticAggregation(KindOf(t)) && IsArithmeticAggregation(KindOf(u))
    ensures Aggregation(t) == "median" <==> t.Median? || (t.Quantile? && t.quantile == 0.5)
    ensures KindOf(t) != KindOf(u) && Aggregation(t) == Aggregation(u) ==> Aggregation(t) == "median"
    ensures t.Quantile? && u.Quantile? && t.quantile != 0.5 && u.quantile != 0.5
            ==> (Aggregation(t) == Aggregation(u) <==> Truncate(t.quantile * 100.0) == Truncate(u.quantile * 100.0))
  {
    if t.Quantile? && t.quantile != 0.5 {
      QuantileWord(t);
    }
    if u.Quantile? && u.quantile != 0.5 {
      QuantileWord(u);
    }
    if t.Quantile? && u.Quantile? && t.quantile != 0.5 && u.quantile != 0.5 && Aggregation(t) == Aggregation(u) {
      var pt, pu := IntToString(Truncate(t.quantile * 100.0)), IntToString(Truncate(u.quantile * 100.0));
      assert ("quantile_" + pt)[9..] == pt;
      assert ("quantile_" + pu)[9..] == pu;
      IntToStringInjective(Truncate(t.quantile * 100.0), Truncate(u.quantile * 100.0));
    }
  }

  /** A quantile other than one half is named `quantile_` and then its percent. */
  lemma QuantileWord(t: AggregatingTransformer)
    requires t.Quantile? && t.quantile != 0.5
    ensures Aggregation(t) == "quantile_" + IntToString(Truncate(t.quantile * 100.0))
    ensures |Aggregation(t)| > 9 && Aggregation(t)[0] == 'q'
  {
  }
}
