// The pipeline: builds transformers from column selections and parameter lists, prunes
// them with the optimizer, validates them, and stacks them in layers whose outputs
// become the inputs of the next layer.

module Pipelines {
  import opened Wrappers
  import opened Sequences
  import opened ColumnSpecification
  import opened Utils
  import opened Schemas
  import opened Datasets
  import opened Transformers
  import opened Optimizers
  import opened Validators
  import opened OverWrappers
  import opened RollingWrappers
  import N = NumericTransformers
  import C = ComparisonTransformers
  import D = DatetimeTransformers
  import T = TextTransformers
  import A = AggregatingTransformers

  // ---------------------------------------------------------------------------
  // Instantiating a transformer class: `factory(*column_combination, **kwargs)`

  /** One value of a keyword parameter list (`kw_params`) handed to a factory. */
  datatype Param =
    | DegreeParam(degree: int)
    | BaseParam(base: N.LogBase)
    | LagParam(lag: int)
    | InnerParam(inner: Transformer)
    | OverColumnsParam(overColumns: seq<ColumnRef>)
    | WindowParam(window: TimeWindow)

  /** The fixed keyword arguments (`**kwargs`) passed to every factory call of one build. */
  datatype Keywords = Keywords(cumulative: A.CumulativeOptions, filter: Option<Condition>, index: Option<ColumnSpec>)

  const NoKeywords := Keywords(A.NONE, None, None)

  /** The names of the columns a transformer reads, in the order its constructor takes them. */
  function InputNames(t: Transformer): seq<string>
  {
    match t
    case Num(n) =>
      (match n
       case Add(l, r) => [l, r]
       case Subtract(l, r) => [l, r]
       case Multiply(l, r) => [l, r]
       case Divide(l, r) => [l, r]
       case Polynomial(c, _) => [c]
       case Log(c, _) => [c]
       case Sin(c) => [c]
       case Cos(c) => [c]
       case StandardScaler(c) => [c]
       case MinMaxScaler(c) => [c])
    case Cmp(c) => [c.left, c.right]
    case Season(s) => [s.column]
    case Txt(x) =>
      (match x
       case DamerauLevenshtein(l, r) => [l, r]
       case TextLength(c) => [c]
       case EmailDomain(c) => [c]
       case CountMatches(c, _) => [c])
    case Agg(a) =>
      (match a
       case Count(_, _) => []
       case Lagged(spec, _) => [spec.name]
       case FirstValue(spec, _) => [spec.name]
       case Mode(spec, _, _) => [spec.name]
       case NumUnique(c, _, _) => [c]
       case EntityEntropy(source, target, _) => [source, target]
       case Pmi(a, b, _, _) => [a, b]
       case Sum(c, _, _) => [c]
       case Quantile(c, _, _, _) => [c]
       case Median(c, _, _) => [c]
       case Mean(c, _, _) => [c]
       case Std(c, _, _) => [c]
       case Zscore(c, _, _) => [c])
    case Over(_, _) => []
    case Rolling(_, _, _) => []
  }

  function Names(columns: Combination): seq<string>
  {
    MapSeq((c: ColumnSpec) => c.name, columns)
  }

  /** Exactly one column and no keyword parameter: the column's name. */
  function OneColumn(columns: Combination, params: seq<Param>): Option<string>
  {
    if |columns| == 1 && |params| == 0 then Some(columns[0].name) else None
  }

  /** Exactly two columns and no keyword parameter: their names. */
  function TwoColumns(columns: Combination, params: seq<Param>): Option<(string, string)>
  {
    if |columns| == 2 && |params| == 0 then Some((columns[0].name, columns[1].name)) else None
  }

  function ConstructNumeric(k: N.NumericKind, columns: Combination, params: seq<Param>): Result<N.NumericTransformer>
  {
    match k
    case PolynomialKind =>
      if |columns| == 1 && |params| == 1 && params[0].DegreeParam? then Success(N.Polynomial(columns[0].name, params[0].degree))
      else Failure(ArgumentMismatch)
    case LogKind =>
      if |columns| == 1 && |params| == 0 then Success(N.Log(columns[0].name, N.NaturalE))
      else if |columns| == 1 && |params| == 1 && params[0].BaseParam? then Success(N.Log(columns[0].name, params[0].base))
      else Failure(ArgumentMismatch)
    case SinKind => if OneColumn(columns, params).Some? then Success(N.Sin(OneColumn(columns, params).value)) else Failure(ArgumentMismatch)
    case CosKind => if OneColumn(columns, params).Some? then Success(N.Cos(OneColumn(columns, params).value)) else Failure(ArgumentMismatch)
    case StandardScalerKind =>
      if OneColumn(columns, params).Some? then Success(N.StandardScaler(OneColumn(columns, params).value)) else Failure(ArgumentMismatch)
    case MinMaxScalerKind =>
      if OneColumn(columns, params).Some? then Success(N.MinMaxScaler(OneColumn(columns, params).value)) else Failure(ArgumentMismatch)
    case AddKind =>
      if TwoColumns(columns, params).Some? then Success(N.Add(columns[0].name, columns[1].name)) else Failure(ArgumentMismatch)
    case SubtractKind =>
      if TwoColumns(columns, params).Some? then Success(N.Subtract(columns[0].name, columns[1].name)) else Failure(ArgumentMismatch)
    case MultiplyKind =>
      if TwoColumns(columns, params).Some? then Success(N.Multiply(columns[0].name, columns[1].name)) else Failure(ArgumentMismatch)
    case DivideKind =>
      if TwoColumns(columns, params).Some? then Success(N.Divide(columns[0].name, columns[1].name)) else Failure(ArgumentMismatch)
  }

  function ConstructComparison(k: C.ComparisonKind, columns: Combination, params: seq<Param>): Result<C.ComparisonTransformer>
  {
    if TwoColumns(columns, params).None? then Failure(ArgumentMismatch)
    else
      var l, r := columns[0].name, columns[1].name;
      match k
      case EqualKind => Success(C.Equal(l, r))
      case GreaterThanKind => Success(C.GreaterThan(l, r))
      case GreaterOrEqualKind => Success(C.GreaterOrEqual(l, r))
  }

  function ConstructSeasonal(k: D.SeasonalKind, columns: Combination, params: seq<Param>): Result<D.SeasonalTransformer>
  {
    if OneColumn(columns, params).None? then Failure(ArgumentMismatch)
    else
      var c := columns[0].name;
      match k
      case HourOfDayKind => Success(D.HourOfDay(c))
      case DayOfWeekKind => Success(D.DayOfWeek(c))
      case MonthOfYearKind => Success(D.MonthOfYear(c))
  }

  /** The pipeline never supplies a pattern, so the count-matches class cannot be built by it. */
  function ConstructText(k: T.TextKind, columns: Combination, params: seq<Param>): Result<T.TextTransformer>
  {
    match k
    case DamerauLevenshteinKind =>
      if TwoColumns(columns, params).Some? then Success(T.DamerauLevenshtein(columns[0].name, columns[1].name)) else Failure(ArgumentMismatch)
    case TextLengthKind =>
      if OneColumn(columns, params).Some? then Success(T.TextLength(columns[0].name)) else Failure(ArgumentMismatch)
    case EmailDomainKind =>
      if OneColumn(columns, params).Some? then Success(T.EmailDomain(columns[0].name)) else Failure(ArgumentMismatch)
    case CountMatchesKind => Failure(ArgumentMismatch)
  }

  /**
   * The aggregating classes take their columns positionally and the cumulative option and
   * filtering condition as keywords. The pipeline never supplies a quantile, so the
   * quantile class raises a TypeError when it is built this way.
   */
  function ConstructAggregating(k: A.AggregatingKind, columns: Combination, params: seq<Param>, kw: Keywords): Result<A.AggregatingTransformer>
  {
    var cum, filter := kw.cumulative, kw.filter;
    match k
    case CountKind => if |columns| == 0 && |params| == 0 then Success(A.Count(cum, filter)) else Failure(ArgumentMismatch)
    case LaggedKind =>
      if |columns| == 1 && |params| == 1 && params[0].LagParam? then Success(A.Lagged(columns[0], params[0].lag))
      else Failure(ArgumentMismatch)
    case FirstValueKind => if OneColumn(columns, params).Some? then Success(A.FirstValue(columns[0], filter)) else Failure(ArgumentMismatch)
    case ModeKind => if OneColumn(columns, params).Some? then Success(A.Mode(columns[0], cum, filter)) else Failure(ArgumentMismatch)
    case NumUniqueKind =>
      if OneColumn(columns, params).Some? then Success(A.NumUnique(columns[0].name, cum, filter)) else Failure(ArgumentMismatch)
    case EntityEntropyKind =>
      if TwoColumns(columns, params).Some? then Success(A.EntityEntropy(columns[0].name, columns[1].name, cum)) else Failure(ArgumentMismatch)
    case PmiKind =>
      if TwoColumns(columns, params).Some? then Success(A.Pmi(columns[0].name, columns[1].name, cum, filter)) else Failure(ArgumentMismatch)
    case SumKind => if OneColumn(columns, params).Some? then Success(A.Sum(columns[0].name, cum, filter)) else Failure(ArgumentMismatch)
    case QuantileKind => Failure(ArgumentMismatch)
    case MedianKind => if OneColumn(columns, params).Some? then Success(A.Median(columns[0].name, cum, filter)) else Failure(ArgumentMismatch)
    case MeanKind => if OneColumn(columns, params).Some? then Success(A.Mean(columns[0].name, cum, filter)) else Failure(ArgumentMismatch)
    case StdKind => if OneColumn(columns, params).Some? then Success(A.Std(columns[0].name, cum, filter)) else Failure(ArgumentMismatch)
    case ZscoreKind => if OneColumn(columns, params).Some? then Success(A.Zscore(columns[0].name, cum, filter)) else Failure(ArgumentMismatch)
  }

  /**
   * `factory(*column_combination, **transformer_kwargs)`: an instance of the factory's
   * class reading exactly the given columns, or the TypeError of a call whose arguments
   * do not fit the constructor, or the wrapper constructor's own error.
   */
  function Construct(f: Factory, columns: Combination, params: seq<Param>, kw: Keywords): (r: Result<Transformer>)
    ensures r.Success? ==> FactoryOf(r.value) == f
    ensures r.Success? && !IsWrapper(r.value) ==> InputNames(r.value) == Names(columns)
    ensures r.Success? && IsWrapper(r.value)
            ==> |columns| == 0 && |params| == 2 && params[0].InnerParam? && r.value.inner == params[0].inner
    ensures r.Failure? ==> r.error == ArgumentMismatch || r.error.IndexNotDatetime?
  {
    match f
    case NumericFactory(k) =>
      var n :- ConstructNumeric(k, columns, params);
      Success(Num(n))
    case ComparisonFactory(k) =>
      var c :- ConstructComparison(k, columns, params);
      Success(Cmp(c))
    case SeasonalFactory(k) =>
      var s :- ConstructSeasonal(k, columns, params);
      Success(Season(s))
    case TextFactory(k) =>
      var x :- ConstructText(k, columns, params);
      Success(Txt(x))
    case AggregatingFactory(k) =>
      var a :- ConstructAggregating(k, columns, params, kw);
      Success(Agg(a))
    case OverFactory =>
      if |columns| == 0 && |params| == 2 && params[0].InnerParam? && params[1].OverColumnsParam? then
        Success(NewOver(params[0].inner, params[1].overColumns))
      else Failure(ArgumentMismatch)
    case RollingFactory =>
      if |columns| == 0 && |params| == 2 && params[0].InnerParam? && params[1].WindowParam? && kw.index.Some? then
        NewRolling(params[0].inner, kw.index.value, params[1].window)
      else Failure(ArgumentMismatch)
  }

  /**
   * One iteration of the innermost loop: instantiate, then validate with the raising
   * validator. Either the one transformer or the first error.
   */
  function BuildOne(f: Factory, columns: Combination, params: seq<Param>, kw: Keywords): (r: Result<seq<Transformer>>)
    ensures r.Success? ==> |r.value| == 1
  {
    var t :- Construct(f, columns, params, kw);
    var accepted :- ValidateTransformer(DefaultValidator, t, columns);
    Success([t])
  }

  /**
   * What survives one iteration is a single instance of the factory's class that reads the
   * combination's columns and whose declared input types accept them (wrappers aside).
   */
  lemma BuildOneAccepted(f: Factory, columns: Combination, params: seq<Param>, kw: Keywords)
    ensures var r := BuildOne(f, columns, params, kw);
            r.Success? ==> |r.value| == 1 && FactoryOf(r.value[0]) == f
                           && (IsWrapper(r.value[0]) || (InputNames(r.value[0]) == Names(columns)
                                                         && Accepts(ExpectedPositions(InputType(r.value[0])), columns)))
    ensures var t := Construct(f, columns, params, kw);
            BuildOne(f, columns, params, kw).Failure?
            <==> t.Failure? || (!IsWrapper(t.value) && !Accepts(ExpectedPositions(InputType(t.value)), columns))
  {
  }

  // ---------------------------------------------------------------------------
  // _build_transformers

  function ParamsStep(f: Factory, columns: Combination, kw: Keywords): seq<Param> -> Result<seq<Transformer>>
  {
    params => BuildOne(f, columns, params, kw)
  }

  /** What the innermost loop yields for one column combination. */
  function ForCombination(f: Factory, columns: Combination, paramCombinations: seq<seq<Param>>, kw: Keywords): Result<seq<Transformer>>
  {
    FlatMapResults(paramCombinations, ParamsStep(f, columns, kw))
  }

  function CombinationStep(f: Factory, paramCombinations: seq<seq<Param>>, kw: Keywords): Combination -> Result<seq<Transformer>>
  {
    columns => ForCombination(f, columns, paramCombinations, kw)
  }

  /** What the middle loop yields for one factory. */
  function ForFactory(level: OptimizationLevel, f: Factory, combinations: seq<Combination>,
                      paramCombinations: seq<seq<Param>>, kw: Keywords): Result<seq<Transformer>>
  {
    FlatMapResults(Optimized(level, f, combinations), CombinationStep(f, paramCombinations, kw))
  }

  function FactoryStep(level: OptimizationLevel, combinations: seq<Combination>, paramCombinations: seq<seq<Param>>, kw: Keywords)
    : Factory -> Result<seq<Transformer>>
  {
    f => ForFactory(level, f, combinations, paramCombinations, kw)
  }

  /**
   * What `_build_transformers` returns: for each factory, for each column combination the
   * optimizer keeps out of the cartesian product of the input column lists, for each
   * combination of the keyword parameter lists, the validated transformer; or the first
   * error raised along the way.
   */
  function Built(level: OptimizationLevel, factories: seq<Factory>, inputColumns: seq<seq<ColumnSpec>>,
                 kwParams: seq<seq<Param>>, kw: Keywords): Result<seq<Transformer>>
  {
    FlatMapResults(factories, FactoryStep(level, Product(inputColumns), Product(kwParams), kw))
  }

  /** The innermost loop of `_build_transformers`: one transformer per parameter combination. */
  method BuildForCombination(factory: Factory, columns: Combination, paramCombinations: seq<seq<Param>>, kw: Keywords)
    returns (r: Result<seq<Transformer>>)
    ensures r == ForCombination(factory, columns, paramCombinations, kw)
  {
    var transformers: seq<Transformer> := [];
    ghost var paramsStep := ParamsStep(factory, columns, kw);
    for k := 0 to |paramCombinations|
      invariant FlatMapResults(paramCombinations[..k], paramsStep) == Success(transformers)
    {
      var params := paramCombinations[k];
      var built := BuildOne(factory, columns, params, kw);
      FlatMapResultsStep(paramCombinations, k, paramsStep, transformers);
      if built.Failure? {
        return built;
      }
      transformers := transformers + built.value;
    }
    assert paramCombinations[..|paramCombinations|] == paramCombinations;
    return Success(transformers);
  }

  /** The middle loop: the combinations the optimizer keeps for one factory. */
  method BuildForFactory(level: OptimizationLevel, factory: Factory, combinations: seq<Combination>,
                         paramCombinations: seq<seq<Param>>, kw: Keywords)
    returns (r: Result<seq<Transformer>>)
    ensures r == ForFactory(level, factory, combinations, paramCombinations, kw)
  {
    var optimized := OptimizeInputColumns(level, factory, combinations);
    r := BuildForCombinations(factory, optimized, paramCombinations, kw);
  }

  /** The middle loop's body over the kept combinations, appending what each one yields. */
  method BuildForCombinations(factory: Factory, optimized: seq<Combination>, paramCombinations: seq<seq<Param>>, kw: Keywords)
    returns (r: Result<seq<Transformer>>)
    ensures r == FlatMapResults(optimized, CombinationStep(factory, paramCombinations, kw))
  {
    var transformers: seq<Transformer> := [];
    ghost var combinationStep := CombinationStep(factory, paramCombinations, kw);
    for j := 0 to |optimized|
      invariant FlatMapResults(optimized[..j], combinationStep) == Success(transformers)
    {
      var columns := optimized[j];
      var built := BuildForCombination(factory, columns, paramCombinations, kw);
      FlatMapResultsStep(optimized, j, combinationStep, transformers);
      if built.Failure? {
        return built;
      }
      transformers := transformers + built.value;
    }
    assert optimized[..|optimized|] == optimized;
    return Success(transformers);
  }

  /** The outer loop: factory by factory, appending what each one yields. */
  method BuildForFactories(level: OptimizationLevel, factories: seq<Factory>, combinations: seq<Combination>,
                           paramCombinations: seq<seq<Param>>, kw: Keywords)
    returns (r: Result<seq<Transformer>>)
    ensures r == FlatMapResults(factories, FactoryStep(level, combinations, paramCombinations, kw))
  {
    var transformers: seq<Transformer> := [];
    ghost var factoryStep := FactoryStep(level, combinations, paramCombinations, kw);
    for i := 0 to |factories|
      invariant FlatMapResults(factories[..i], factoryStep) == Success(transformers)
    {
      var factory := factories[i];
      var built := BuildForFactory(level, factory, combinations, paramCombinations, kw);
      FlatMapResultsStep(factories, i, factoryStep, transformers);
      if built.Failure? {
        return built;
      }
      transformers := transformers + built.value;
    }
    assert factories[..|factories|] == factories;
    return Success(transformers);
  }

  /**
   * `_build_transformers`: the cartesian products of the column lists and of the keyword
   * parameter lists, then three nested loops appending to one list (the loops above).
   */
  method BuildTransformers(level: OptimizationLevel, factories: seq<Factory>, inputColumns: seq<seq<ColumnSpec>>,
                           kwParams: seq<seq<Param>>, kw: Keywords)
    returns (r: Result<seq<Transformer>>)
    ensures r == Built(level, factories, inputColumns, kwParams, kw)
  {
    var combinations := Product(inputColumns);
    var paramCombinations := Product(kwParams);
    r := BuildForFactories(level, factories, combinations, paramCombinations, kw);
  }

  // ---------------------------------------------------------------------------
  // What `_build_transformers` promises

  /** Per factory, the kept combinations times the parameter combinations, summed. */
  function BuiltCount(level: OptimizationLevel, factories: seq<Factory>, combinations: seq<Combination>, paramCount: nat): int
    decreases |factories|
  {
    if |factories| == 0 then 0
    else BuiltCount(level, DropLast(factories), combinations, paramCount)
         + |Optimized(level, Last(factories), combinations)| * paramCount
  }

  lemma ForCombinationLength(f: Factory, columns: Combination, paramCombinations: seq<seq<Param>>, kw: Keywords)
    ensures var r := ForCombination(f, columns, paramCombinations, kw);
            r.Success? ==> |r.value| == |paramCombinations|
  {
    var step := ParamsStep(f, columns, kw);
    forall i | 0 <= i < |paramCombinations| && step(paramCombinations[i]).Success?
      ensures |step(paramCombinations[i]).value| == 1
    {
      BuildOneAccepted(f, columns, paramCombinations[i], kw);
    }
    FlatMapResultsUniformLength(paramCombinations, step, 1);
  }

  lemma ForFactoryLength(level: OptimizationLevel, f: Factory, combinations: seq<Combination>,
                         paramCombinations: seq<seq<Param>>, kw: Keywords)
    ensures var r := ForFactory(level, f, combinations, paramCombinations, kw);
            r.Success? ==> |r.value| == |Optimized(level, f, combinations)| * |paramCombinations|
  {
    var step := CombinationStep(f, paramCombinations, kw);
    var optimized := Optimized(level, f, combinations);
    forall i | 0 <= i < |optimized| && step(optimized[i]).Success?
      ensures |step(optimized[i]).value| == |paramCombinations|
    {
      ForCombinationLength(f, optimized[i], paramCombinations, kw);
    }
    FlatMapResultsUniformLength(optimized, step, |paramCombinations|);
  }

  lemma {:induction false} ForFactoriesLength(level: OptimizationLevel, factories: seq<Factory>, combinations: seq<Combination>,
                                              paramCombinations: seq<seq<Param>>, kw: Keywords)
    ensures var r := FlatMapResults(factories, FactoryStep(level, combinations, paramCombinations, kw));
            r.Success? ==> |r.value| == BuiltCount(level, factories, combinations, |paramCombinations|)
    decreases |factories|
  {
    if |factories| > 0 {
      ForFactoriesLength(level, DropLast(factories), combinations, paramCombinations, kw);
      ForFactoryLength(level, Last(factories), combinations, paramCombinations, kw);
    }
  }

  /**
   * The number of transformers built: for each factory, the column combinations the
   * optimizer keeps times the product of the keyword parameter list lengths.
   */
  lemma BuiltLength(level: OptimizationLevel, factories: seq<Factory>, inputColumns: seq<seq<ColumnSpec>>,
                    kwParams: seq<seq<Param>>, kw: Keywords)
    ensures var r := Built(level, factories, inputColumns, kwParams, kw);
            r.Success? ==> |r.value| == BuiltCount(level, factories, Product(inputColumns), ProductOfLengths(kwParams))
  {
    ForFactoriesLength(level, factories, Product(inputColumns), Product(kwParams), kw);
  }

  /** `product()` of no lists is one empty combination, which every optimization level keeps. */
  lemma OptimizedNoColumns(level: OptimizationLevel, f: Factory)
    ensures Product<ColumnSpec>([]) == [[]]
    ensures Optimized(level, f, [[]]) == [[]]
  {
    var none: Combination := [];
    assert NoRepeats(none) by {
      assert Elements(none) == {};
    }
    FilterAppend([], none, NoRepeats);
    assert [] + [none] == [none];
    assert SkippedSelf([none]) == [none];
    KeepFirstByAppend([], none, SortByName, {});
  }

  /** With no column lists (Count), one transformer is built per factory and parameter combination. */
  lemma NoColumnsBuiltOnce(level: OptimizationLevel, factories: seq<Factory>, kwParams: seq<seq<Param>>, kw: Keywords)
    ensures var r := Built(level, factories, [], kwParams, kw);
            r.Success? ==> |r.value| == |factories| * ProductOfLengths(kwParams)
  {
    BuiltLength(level, factories, [], kwParams, kw);
    NoColumnsCount(level, factories, ProductOfLengths(kwParams));
  }

  lemma NoColumnsCount(level: OptimizationLevel, factories: seq<Factory>, paramCount: nat)
    ensures BuiltCount(level, factories, [[]], paramCount) == |factories| * paramCount
  {
    forall g: Factory
      ensures |Optimized(level, g, [[]])| == 1
    {
      OptimizedNoColumns(level, g);
    }
    OneKeptCount(level, factories, [[]], paramCount);
  }

  /** When every class keeps exactly one combination, each contributes one per parameter combination. */
  lemma {:induction false} OneKeptCount(level: OptimizationLevel, factories: seq<Factory>, combinations: seq<Combination>, paramCount: nat)
    requires forall g: Factory :: |Optimized(level, g, combinations)| == 1
    ensures BuiltCount(level, factories, combinations, paramCount) == |factories| * paramCount
    decreases |factories|
  {
    if |factories| > 0 {
      OneKeptCount(level, DropLast(factories), combinations, paramCount);
      var kept := Optimized(level, Last(factories), combinations);
      assert |kept| * paramCount == paramCount by {
        assert |kept| == 1;
      }
      assert BuiltCount(level, factories, combinations, paramCount)
             == BuiltCount(level, DropLast(factories), combinations, paramCount) + |kept| * paramCount;
      MultiplyStep(|factories|, paramCount);
    }
  }

  lemma MultiplyStep(n: int, m: int)
    ensures n * m == (n - 1) * m + m
  {
  }

  /** The factory, column combination and parameter combination of the iteration that built `t`. */
  lemma BuiltFrom(level: OptimizationLevel, factories: seq<Factory>, inputColumns: seq<seq<ColumnSpec>>,
                  kwParams: seq<seq<Param>>, kw: Keywords, t: Transformer)
    returns (f: Factory, c: Combination, params: seq<Param>)
    requires Built(level, factories, inputColumns, kwParams, kw).Success?
    requires t in Built(level, factories, inputColumns, kwParams, kw).value
    ensures f in factories && c in Product(inputColumns) && params in Product(kwParams)
    ensures BuildOne(f, c, params, kw).Success? && t in BuildOne(f, c, params, kw).value
  {
    var combinations, paramCombinations := Product(inputColumns), Product(kwParams);
    f := FactoryThatBuilt(level, factories, combinations, paramCombinations, kw, t);
    c := CombinationThatBuilt(level, f, combinations, paramCombinations, kw, t);
    params := ParamsThatBuilt(f, c, paramCombinations, kw, t);
  }

  lemma FactoryThatBuilt(level: OptimizationLevel, factories: seq<Factory>, combinations: seq<Combination>,
                         paramCombinations: seq<seq<Param>>, kw: Keywords, t: Transformer)
    returns (f: Factory)
    requires FlatMapResults(factories, FactoryStep(level, combinations, paramCombinations, kw)).Success?
    requires t in FlatMapResults(factories, FactoryStep(level, combinations, paramCombinations, kw)).value
    ensures f in factories
    ensures ForFactory(level, f, combinations, paramCombinations, kw).Success?
            && t in ForFactory(level, f, combinations, paramCombinations, kw).value
  {
    var step := FactoryStep(level, combinations, paramCombinations, kw);
    FlatMapResultsMembers(factories, step, t);
    var i :| 0 <= i < |factories| && step(factories[i]).Success? && t in step(factories[i]).value;
    f := factories[i];
  }

  lemma CombinationThatBuilt(level: OptimizationLevel, f: Factory, combinations: seq<Combination>,
                             paramCombinations: seq<seq<Param>>, kw: Keywords, t: Transformer)
    returns (c: Combination)
    requires ForFactory(level, f, combinations, paramCombinations, kw).Success?
    requires t in ForFactory(level, f, combinations, paramCombinations, kw).value
    ensures c in combinations
    ensures ForCombination(f, c, paramCombinations, kw).Success? && t in ForCombination(f, c, paramCombinations, kw).value
  {
    var optimized := Optimized(level, f, combinations);
    var step := CombinationStep(f, paramCombinations, kw);
    FlatMapResultsMembers(optimized, step, t);
    var j :| 0 <= j < |optimized| && step(optimized[j]).Success? && t in step(optimized[j]).value;
    c := optimized[j];
    OptimizedIsSubsequence(level, f, combinations);
    SubsequenceMembers(optimized, combinations);
  }

  lemma ParamsThatBuilt(f: Factory, c: Combination, paramCombinations: seq<seq<Param>>, kw: Keywords, t: Transformer)
    returns (params: seq<Param>)
    requires ForCombination(f, c, paramCombinations, kw).Success? && t in ForCombination(f, c, paramCombinations, kw).value
    ensures params in paramCombinations
    ensures BuildOne(f, c, params, kw).Success? && t in BuildOne(f, c, params, kw).value
  {
    var step := ParamsStep(f, c, kw);
    FlatMapResultsMembers(paramCombinations, step, t);
    var k :| 0 <= k < |paramCombinations| && step(paramCombinations[k]).Success? && t in step(paramCombinations[k]).value;
    params := paramCombinations[k];
  }

  /**
   * Every transformer built is an instance of one of the factories; apart from wrappers,
   * it reads the columns of one combination of the input lists, which its class accepts.
   */
  lemma BuiltAccepted(level: OptimizationLevel, factories: seq<Factory>, inputColumns: seq<seq<ColumnSpec>>,
                      kwParams: seq<seq<Param>>, kw: Keywords, t: Transformer)
    requires Built(level, factories, inputColumns, kwParams, kw).Success?
    requires t in Built(level, factories, inputColumns, kwParams, kw).value
    ensures FactoryOf(t) in factories
    ensures IsWrapper(t) || exists c :: c in Product(inputColumns) && InputNames(t) == Names(c)
                                        && Accepts(ExpectedPositions(InputType(t)), c)
    ensures IsWrapper(t) ==> |kwParams| > 0 && InnerParam(t.inner) in kwParams[0]
  {
    var f, c, params := BuiltFrom(level, factories, inputColumns, kwParams, kw, t);
    BuildOneAccepted(f, c, params, kw);
    assert t == BuildOne(f, c, params, kw).value[0];
    if IsWrapper(t) {
      ProductMembers(kwParams, params);
    }
  }


  // ---------------------------------------------------------------------------
  // _get_rolling_transformers and _get_over_transformers

  /** One factory without input columns runs the innermost loop once, on the empty combination. */
  lemma BuiltWithoutColumns(level: OptimizationLevel, f: Factory, kwParams: seq<seq<Param>>, kw: Keywords)
    ensures Built(level, [f], [], kwParams, kw) == ForCombination(f, [], Product(kwParams), kw)
  {
    var pcs := Product(kwParams);
    OptimizedNoColumns(level, f);
    FlatMapResultsSingle(f, FactoryStep(level, [[]], pcs, kw));
    assert ForFactory(level, f, [[]], pcs, kw) == FlatMapResults([[]], CombinationStep(f, pcs, kw));
    FlatMapResultsSingle([], CombinationStep(f, pcs, kw));
  }

  /** Every combination of two lists is a pair of one element of each. */
  lemma PairMembers<T>(a: seq<T>, b: seq<T>, k: nat)
    requires k < |Product([a, b])|
    ensures exists i, j :: 0 <= i < |a| && 0 <= j < |b| && Product([a, b])[k] == [a[i], b[j]]
  {
    var c := Product([a, b])[k];
    ProductMembers([a, b], c);
    var i :| 0 <= i < |a| && a[i] == c[0];
    var j :| 0 <= j < |b| && b[j] == c[1];
    assert c == [a[i], b[j]];
  }

  /** A step that yields one value for every pair yields one value per combination, in order. */
  lemma PairsSteps<X, T>(a: seq<X>, b: seq<X>, step: seq<X> -> Result<seq<T>>)
    requires forall i, j :: 0 <= i < |a| && 0 <= j < |b| ==> step([a[i], b[j]]).Success? && |step([a[i], b[j]]).value| == 1
    ensures var pcs := Product([a, b]);
            var r := FlatMapResults(pcs, step);
            r.Success? && |r.value| == |pcs|
            && forall k :: 0 <= k < |pcs| ==> step(pcs[k]).Success? && |step(pcs[k]).value| == 1 && r.value[k] == step(pcs[k]).value[0]
  {
    var pcs := Product([a, b]);
    forall k | 0 <= k < |pcs| ensures step(pcs[k]).Success? && |step(pcs[k]).value| == 1 {
      PairMembers(a, b, k);
    }
    FlatMapResultsSingletons(pcs, step);
  }

  lemma PairsSucceed<X, T>(a: seq<X>, b: seq<X>, step: seq<X> -> Result<seq<T>>)
    requires forall i, j :: 0 <= i < |a| && 0 <= j < |b| ==> step([a[i], b[j]]).Success? && |step([a[i], b[j]]).value| == 1
    ensures var r := FlatMapResults(Product([a, b]), step);
            r.Success? && |r.value| == |a| * |b|
  {
    PairsSteps(a, b, step);
    ProductPairLength(a, b);
  }

  /** The value for pair (i, j) sits at `i * |b| + j`. */
  lemma PairsSingletonAt<X, T>(a: seq<X>, b: seq<X>, step: seq<X> -> Result<seq<T>>, i: nat, j: nat)
    requires forall i, j :: 0 <= i < |a| && 0 <= j < |b| ==> step([a[i], b[j]]).Success? && |step([a[i], b[j]]).value| == 1
    requires i < |a| && j < |b|
    ensures var r := FlatMapResults(Product([a, b]), step);
            r.Success? && i * |b| + j < |r.value| && r.value[i * |b| + j] == step([a[i], b[j]]).value[0]
  {
    PairsSteps(a, b, step);
    ProductPairAt(a, b, i, j);
  }

  /**
   * Running a step that yields one value per pair over every pair of two lists gives the
   * value for pair (i, j) at `i * |b| + j`.
   */
  lemma PairsSingletons<X, T>(a: seq<X>, b: seq<X>, step: seq<X> -> Result<seq<T>>)
    requires forall i, j :: 0 <= i < |a| && 0 <= j < |b| ==> step([a[i], b[j]]).Success? && |step([a[i], b[j]]).value| == 1
    ensures var r := FlatMapResults(Product([a, b]), step);
            r.Success? && |r.value| == |a| * |b|
            && forall i, j :: 0 <= i < |a| && 0 <= j < |b|
                 ==> 0 <= PairIndex(i, j, |b|) < |r.value| && r.value[PairIndex(i, j, |b|)] == step([a[i], b[j]]).value[0]
  {
    PairsSucceed(a, b, step);
    var r := FlatMapResults(Product([a, b]), step);
    forall i, j | 0 <= i < |a| && 0 <= j < |b|
      ensures 0 <= PairIndex(i, j, |b|) < |r.value| && r.value[PairIndex(i, j, |b|)] == step([a[i], b[j]]).value[0]
    {
      PairsSingletonAt(a, b, step, i, j);
    }
  }

  /**
   * Building one wrapper factory with no column list over the inner transformers and the
   * options: the wrapper of inner i with option j sits at `i * |options| + j`.
   */
  lemma WrappedPairs(level: OptimizationLevel, f: Factory, inners: seq<Param>, options: seq<Param>, kw: Keywords)
    requires forall i, j :: 0 <= i < |inners| && 0 <= j < |options| ==> BuildOne(f, [], [inners[i], options[j]], kw).Success?
    ensures var r := Built(level, [f], [], [inners, options], kw);
            r.Success? && |r.value| == |inners| * |options|
            && forall i, j :: 0 <= i < |inners| && 0 <= j < |options|
                 ==> 0 <= PairIndex(i, j, |options|) < |r.value|
                     && r.value[PairIndex(i, j, |options|)] == BuildOne(f, [], [inners[i], options[j]], kw).value[0]
  {
    BuiltWithoutColumns(level, f, [inners, options], kw);
    var step := ParamsStep(f, [], kw);
    forall i, j | 0 <= i < |inners| && 0 <= j < |options|
      ensures step([inners[i], options[j]]).Success? && |step([inners[i], options[j]]).value| == 1
    {
      BuildOneAccepted(f, [], [inners[i], options[j]], kw);
    }
    PairsSingletons(inners, options, step);
  }

  /** A wrapper class built with no column list over the inner transformers and the valid options. */
  function Wrapped(level: OptimizationLevel, f: Factory, ts: seq<Transformer>, options: seq<Param>, kw: Keywords): Result<seq<Transformer>>
  {
    Built(level, [f], [], [InnerParams(ts), options], kw)
  }

  /** The valid windows as keyword parameter values. */
  function WindowParams(valid: seq<Option<TimeWindow>>): (r: seq<Param>)
    requires forall i :: 0 <= i < |valid| ==> valid[i].Some?
    ensures |r| == |valid| && forall j :: 0 <= j < |valid| ==> r[j] == WindowParam(valid[j].value)
  {
    seq(|valid|, j requires 0 <= j < |valid| => WindowParam(valid[j].value))
  }

  function InnerParams(ts: seq<Transformer>): seq<Param>
  {
    MapSeq((t: Transformer) => InnerParam(t), ts)
  }

  function OverColumnsParams(valid: seq<seq<ColumnRef>>): seq<Param>
  {
    MapSeq((o: seq<ColumnRef>) => OverColumnsParam(o), valid)
  }

  /** Python's truth value of a list of grouping columns: true when it is not empty. */
  predicate OverTruthy(columns: seq<ColumnRef>)
  {
    |columns| > 0
  }

  /**
   * The kept inputs followed by every input wrapped in every valid option; no wrapping at
   * all without valid options.
   */
  function WithWrapped(level: OptimizationLevel, f: Factory, unwrapped: seq<Transformer>, ts: seq<Transformer>,
                       options: seq<Param>, kw: Keywords): Result<seq<Transformer>>
  {
    if |options| == 0 then Success(unwrapped)
    else
      var wrapped :- Wrapped(level, f, ts, options, kw);
      Success(unwrapped + wrapped)
  }

  /**
   * `_get_rolling_transformers`: the input itself without an index column or without
   * windows; otherwise the input when some window is empty or None, followed by every
   * input wrapped in every valid window.
   */
  function RollingTransformers(level: OptimizationLevel, ts: seq<Transformer>, index: Option<ColumnSpec>,
                               windows: seq<Option<TimeWindow>>): Result<seq<Transformer>>
  {
    if index.None? || |windows| == 0 then Success(ts)
    else
      var options := GetValidParamOptions(windows, WindowTruthy);
      WithWrapped(level, RollingFactory, if options.1 then [] else ts, ts, WindowParams(options.0),
                  Keywords(A.NONE, None, index))
  }

  /**
   * `_get_over_transformers`: the input itself without grouping options; otherwise the
   * input when some option is empty, followed by every input wrapped in every non-empty
   * grouping.
   */
  function OverTransformers(level: OptimizationLevel, ts: seq<Transformer>, overs: seq<seq<ColumnRef>>): Result<seq<Transformer>>
  {
    if |overs| == 0 then Success(ts)
    else
      var options := GetValidParamOptions(overs, OverTruthy);
      WithWrapped(level, OverFactory, if options.1 then [] else ts, ts, OverColumnsParams(options.0), NoKeywords)
  }

  /** The shared tail of both wrapper steps: append the wrapped inputs when there are options. */
  method AppendWrapped(level: OptimizationLevel, f: Factory, unwrapped: seq<Transformer>, ts: seq<Transformer>,
                       options: seq<Param>, kw: Keywords)
    returns (r: Result<seq<Transformer>>)
    ensures r == WithWrapped(level, f, unwrapped, ts, options, kw)
  {
    var allTransformers := unwrapped;
    if |options| > 0 {
      var wrapped := BuildTransformers(level, [f], [], [InnerParams(ts), options], kw);
      if wrapped.Failure? {
        return Failure(wrapped.error);
      }
      allTransformers := allTransformers + wrapped.value;
    }
    return Success(allTransformers);
  }

  method GetRollingTransformers(level: OptimizationLevel, ts: seq<Transformer>, index: Option<ColumnSpec>,
                                windows: seq<Option<TimeWindow>>)
    returns (r: Result<seq<Transformer>>)
    ensures r == RollingTransformers(level, ts, index, windows)
  {
    if index.None? || |windows| == 0 {
      return Success(ts);
    }
    var allTransformers: seq<Transformer> := [];
    var options := GetValidParamOptions(windows, WindowTruthy);
    var valid, allValid := options.0, options.1;
    if !allValid {
      allTransformers := allTransformers + ts;
    }
    assert allTransformers == if allValid then [] else ts;
    r := AppendWrapped(level, RollingFactory, allTransformers, ts, WindowParams(valid), Keywords(A.NONE, None, index));
  }

  method GetOverTransformers(level: OptimizationLevel, ts: seq<Transformer>, overs: seq<seq<ColumnRef>>)
    returns (r: Result<seq<Transformer>>)
    ensures r == OverTransformers(level, ts, overs)
  {
    if |overs| == 0 {
      return Success(ts);
    }
    var allTransformers: seq<Transformer> := [];
    var options := GetValidParamOptions(overs, OverTruthy);
    var valid, allValid := options.0, options.1;
    if !allValid {
      allTransformers := allTransformers + ts;
    }
    assert allTransformers == if allValid then [] else ts;
    r := AppendWrapped(level, OverFactory, allTransformers, ts, OverColumnsParams(valid), NoKeywords);
  }

  /** One rolling wrapper built from an inner transformer and a window over a DATETIME index. */
  lemma RollingBuildOne(t: Transformer, index: ColumnSpec, w: TimeWindow)
    requires index.columnType == Datetime
    ensures BuildOne(RollingFactory, [], [InnerParam(t), WindowParam(w)], Keywords(A.NONE, None, Some(index)))
            == Success([Rolling(t, index, w)])
  {
  }

  /** One grouping wrapper built from an inner transformer and a list of grouping columns. */
  lemma OverBuildOne(t: Transformer, overColumns: seq<ColumnRef>)
    ensures BuildOne(OverFactory, [], [InnerParam(t), OverColumnsParam(overColumns)], NoKeywords)
            == Success([Over(t, GetNamesFromColumnSpecs(overColumns))])
  {
  }

  /** Every input rolled over every valid window, inputs outermost. */
  lemma RollingWrapped(level: OptimizationLevel, ts: seq<Transformer>, index: ColumnSpec, valid: seq<Option<TimeWindow>>)
    requires index.columnType == Datetime
    requires forall j :: 0 <= j < |valid| ==> valid[j].Some?
    ensures var r := Wrapped(level, RollingFactory, ts, WindowParams(valid), Keywords(A.NONE, None, Some(index)));
            r.Success? && |r.value| == |ts| * |valid|
            && forall i, j :: 0 <= i < |ts| && 0 <= j < |valid|
                 ==> 0 <= PairIndex(i, j, |valid|) < |r.value|
                     && r.value[PairIndex(i, j, |valid|)] == Rolling(ts[i], index, valid[j].value)
  {
    var kw := Keywords(A.NONE, None, Some(index));
    var inners, params := InnerParams(ts), WindowParams(valid);
    forall i, j | 0 <= i < |inners| && 0 <= j < |params|
      ensures BuildOne(RollingFactory, [], [inners[i], params[j]], kw) == Success([Rolling(ts[i], index, valid[j].value)])
    {
      RollingBuildOne(ts[i], index, valid[j].value);
    }
    WrappedPairs(level, RollingFactory, inners, params, kw);
  }

  /**
   * With a DATETIME index and some windows, the result is the unwrapped input (kept only
   * when some window is empty or None) followed by, for each input, for each valid window
   * in order, the input rolled over that window.
   */
  lemma RollingShape(level: OptimizationLevel, ts: seq<Transformer>, index: ColumnSpec, windows: seq<Option<TimeWindow>>)
    requires index.columnType == Datetime && |windows| > 0
    ensures var r := RollingTransformers(level, ts, Some(index), windows);
            var options := GetValidParamOptions(windows, WindowTruthy);
            r.Success? && RolledLayout(r.value, if options.1 then [] else ts, ts, index, options.0)
  {
    var options := GetValidParamOptions(windows, WindowTruthy);
    var valid := options.0;
    if |valid| == 0 {
      RollingNoValidWindow(level, ts, index, windows);
      assert RolledLayout(ts, ts, ts, index, valid);
    } else {
      var unwrapped := if options.1 then [] else ts;
      RollingWrapped(level, ts, index, valid);
      var wrapped := Wrapped(level, RollingFactory, ts, WindowParams(valid), Keywords(A.NONE, None, Some(index))).value;
      RollingAppends(level, ts, index, windows);
      RolledAfter(unwrapped, wrapped, ts, index, valid);
    }
  }

  /** Without a valid window the input comes back unchanged. */
  lemma RollingNoValidWindow(level: OptimizationLevel, ts: seq<Transformer>, index: ColumnSpec, windows: seq<Option<TimeWindow>>)
    requires |windows| > 0 && |GetValidParamOptions(windows, WindowTruthy).0| == 0
    ensures RollingTransformers(level, ts, Some(index), windows) == Success(ts)
    ensures !GetValidParamOptions(windows, WindowTruthy).1
  {
    var options := GetValidParamOptions(windows, WindowTruthy);
    assert !options.1;
    assert |WindowParams(options.0)| == 0;
  }

  /**
   * `r` is the kept prefix followed by, for each input, for each valid window in order,
   * the input rolled over that window.
   */
  predicate RolledLayout(r: seq<Transformer>, unwrapped: seq<Transformer>, ts: seq<Transformer>, index: ColumnSpec,
                         valid: seq<Option<TimeWindow>>)
    requires forall j :: 0 <= j < |valid| ==> valid[j].Some?
  {
    |r| == |unwrapped| + |ts| * |valid| && r[..|unwrapped|] == unwrapped
    && forall i, j :: 0 <= i < |ts| && 0 <= j < |valid|
         ==> 0 <= |unwrapped| + PairIndex(i, j, |valid|) < |r|
             && r[|unwrapped| + PairIndex(i, j, |valid|)] == Rolling(ts[i], index, valid[j].value)
  }

  /** Rolled inputs keep their positions behind a kept prefix. */
  lemma RolledAfter(unwrapped: seq<Transformer>, wrapped: seq<Transformer>, ts: seq<Transformer>, index: ColumnSpec,
                    valid: seq<Option<TimeWindow>>)
    requires forall j :: 0 <= j < |valid| ==> valid[j].Some?
    requires |wrapped| == |ts| * |valid|
    requires forall i, j :: 0 <= i < |ts| && 0 <= j < |valid|
               ==> 0 <= PairIndex(i, j, |valid|) < |wrapped|
                   && wrapped[PairIndex(i, j, |valid|)] == Rolling(ts[i], index, valid[j].value)
    ensures RolledLayout(unwrapped + wrapped, unwrapped, ts, index, valid)
  {
    var rolled := (t, w: Option<TimeWindow>) => if w.Some? then Rolling(t, index, w.value) else t;
    AppendedPairs(unwrapped, wrapped, ts, valid, rolled);
  }

  lemma RollingAppends(level: OptimizationLevel, ts: seq<Transformer>, index: ColumnSpec, windows: seq<Option<TimeWindow>>)
    requires |windows| > 0
    requires var valid := GetValidParamOptions(windows, WindowTruthy).0;
             |valid| > 0 && Wrapped(level, RollingFactory, ts, WindowParams(valid), Keywords(A.NONE, None, Some(index))).Success?
    ensures var options := GetValidParamOptions(windows, WindowTruthy);
            RollingTransformers(level, ts, Some(index), windows)
            == Success((if options.1 then [] else ts)
                       + Wrapped(level, RollingFactory, ts, WindowParams(options.0), Keywords(A.NONE, None, Some(index))).value)
  {
  }

  /** Every input evaluated over every non-empty grouping, inputs outermost. */
  lemma OverWrapped(level: OptimizationLevel, ts: seq<Transformer>, valid: seq<seq<ColumnRef>>)
    ensures var r := Wrapped(level, OverFactory, ts, OverColumnsParams(valid), NoKeywords);
            r.Success? && |r.value| == |ts| * |valid|
            && forall i, j :: 0 <= i < |ts| && 0 <= j < |valid|
                 ==> 0 <= PairIndex(i, j, |valid|) < |r.value|
                     && r.value[PairIndex(i, j, |valid|)] == Over(ts[i], GetNamesFromColumnSpecs(valid[j]))
  {
    var inners, params := InnerParams(ts), OverColumnsParams(valid);
    forall i, j | 0 <= i < |inners| && 0 <= j < |params|
      ensures BuildOne(OverFactory, [], [inners[i], params[j]], NoKeywords) == Success([Over(ts[i], GetNamesFromColumnSpecs(valid[j]))])
    {
      OverBuildOne(ts[i], valid[j]);
    }
    WrappedPairs(level, OverFactory, inners, params, NoKeywords);
  }

  /**
   * With some grouping options, the result is the unwrapped input (kept only when some
   * option is empty) followed by, for each input, for each non-empty grouping in order,
   * the input evaluated over that grouping.
   */
  lemma OverShape(level: OptimizationLevel, ts: seq<Transformer>, overs: seq<seq<ColumnRef>>)
    requires |overs| > 0
    ensures var r := OverTransformers(level, ts, overs);
            var options := GetValidParamOptions(overs, OverTruthy);
            r.Success? && GroupedLayout(r.value, if options.1 then [] else ts, ts, options.0)
  {
    var options := GetValidParamOptions(overs, OverTruthy);
    var valid := options.0;
    if |valid| == 0 {
      OverNoValidGrouping(level, ts, overs);
      assert GroupedLayout(ts, ts, ts, valid);
    } else {
      var unwrapped := if options.1 then [] else ts;
      OverWrapped(level, ts, valid);
      var wrapped := Wrapped(level, OverFactory, ts, OverColumnsParams(valid), NoKeywords).value;
      OverAppends(level, ts, overs);
      GroupedAfter(unwrapped, wrapped, ts, valid);
    }
  }

  lemma OverAppends(level: OptimizationLevel, ts: seq<Transformer>, overs: seq<seq<ColumnRef>>)
    requires |overs| > 0
    requires var valid := GetValidParamOptions(overs, OverTruthy).0;
             |valid| > 0 && Wrapped(level, OverFactory, ts, OverColumnsParams(valid), NoKeywords).Success?
    ensures var options := GetValidParamOptions(overs, OverTruthy);
            OverTransformers(level, ts, overs)
            == Success((if options.1 then [] else ts) + Wrapped(level, OverFactory, ts, OverColumnsParams(options.0), NoKeywords).value)
  {
  }

  /** Without a non-empty grouping the input comes back unchanged. */
  lemma OverNoValidGrouping(level: OptimizationLevel, ts: seq<Transformer>, overs: seq<seq<ColumnRef>>)
    requires |overs| > 0 && |GetValidParamOptions(overs, OverTruthy).0| == 0
    ensures OverTransformers(level, ts, overs) == Success(ts)
    ensures !GetValidParamOptions(overs, OverTruthy).1
  {
    var options := GetValidParamOptions(overs, OverTruthy);
    assert !options.1;
    assert |OverColumnsParams(options.0)| == 0;
  }

  /**
   * `r` is the kept prefix followed by, for each input, for each non-empty grouping in
   * order, the input evaluated over that grouping.
   */
  predicate GroupedLayout(r: seq<Transformer>, unwrapped: seq<Transformer>, ts: seq<Transformer>, valid: seq<seq<ColumnRef>>)
  {
    |r| == |unwrapped| + |ts| * |valid| && r[..|unwrapped|] == unwrapped
    && forall i, j :: 0 <= i < |ts| && 0 <= j < |valid|
         ==> 0 <= |unwrapped| + PairIndex(i, j, |valid|) < |r|
             && r[|unwrapped| + PairIndex(i, j, |valid|)] == Over(ts[i], GetNamesFromColumnSpecs(valid[j]))
  }

  /** Grouped inputs keep their positions behind a kept prefix. */
  lemma GroupedAfter(unwrapped: seq<Transformer>, wrapped: seq<Transformer>, ts: seq<Transformer>, valid: seq<seq<ColumnRef>>)
    requires |wrapped| == |ts| * |valid|
    requires forall i, j :: 0 <= i < |ts| && 0 <= j < |valid|
               ==> 0 <= PairIndex(i, j, |valid|) < |wrapped|
                   && wrapped[PairIndex(i, j, |valid|)] == Over(ts[i], GetNamesFromColumnSpecs(valid[j]))
    ensures GroupedLayout(unwrapped + wrapped, unwrapped, ts, valid)
  {
    var grouped := (t, columns) => Over(t, GetNamesFromColumnSpecs(columns));
    AppendedPairs(unwrapped, wrapped, ts, valid, grouped);
  }

  /** A transformer built by a wrapper factory over `ts` wraps one of `ts`. */
  lemma WrappedInner(level: OptimizationLevel, f: Factory, ts: seq<Transformer>, options: seq<Param>, kw: Keywords, t: Transformer)
    requires f == OverFactory || f == RollingFactory
    requires Wrapped(level, f, ts, options, kw).Success? && t in Wrapped(level, f, ts, options, kw).value
    ensures FactoryOf(t) == f && t.inner in ts
  {
    BuiltAccepted(level, [f], [], [InnerParams(ts), options], kw, t);
    var inners := InnerParams(ts);
    var i :| 0 <= i < |inners| && inners[i] == InnerParam(t.inner);
  }

  /** After the rolling step, each transformer is an input or a rolling window over one. */
  lemma RollingMembers(level: OptimizationLevel, ts: seq<Transformer>, index: Option<ColumnSpec>,
                       windows: seq<Option<TimeWindow>>, t: Transformer)
    requires RollingTransformers(level, ts, index, windows).Success?
    requires t in RollingTransformers(level, ts, index, windows).value
    ensures t in ts || (t.Rolling? && t.inner in ts)
  {
    if index.Some? && |windows| > 0 {
      var options := GetValidParamOptions(windows, WindowTruthy);
      var unwrapped := if options.1 then [] else ts;
      if |options.0| > 0 {
        var kw := Keywords(A.NONE, None, index);
        var wrapped := Wrapped(level, RollingFactory, ts, WindowParams(options.0), kw);
        assert RollingTransformers(level, ts, index, windows) == Success(unwrapped + wrapped.value);
        if t !in unwrapped {
          WrappedInner(level, RollingFactory, ts, WindowParams(options.0), kw, t);
        }
      }
    }
  }

  /** After the grouping step, each transformer is an input or an input evaluated over a grouping. */
  lemma OverMembers(level: OptimizationLevel, ts: seq<Transformer>, overs: seq<seq<ColumnRef>>, t: Transformer)
    requires OverTransformers(level, ts, overs).Success?
    requires t in OverTransformers(level, ts, overs).value
    ensures t in ts || (t.Over? && t.inner in ts)
  {
    if |overs| > 0 {
      var options := GetValidParamOptions(overs, OverTruthy);
      var unwrapped := if options.1 then [] else ts;
      if |options.0| > 0 {
        var wrapped := Wrapped(level, OverFactory, ts, OverColumnsParams(options.0), NoKeywords);
        assert OverTransformers(level, ts, overs) == Success(unwrapped + wrapped.value);
        if t !in unwrapped {
          WrappedInner(level, OverFactory, ts, OverColumnsParams(options.0), NoKeywords, t);
        }
      }
    }
  }

  // ---------------------------------------------------------------------------
  // _build_aggregated_transformers

  /** The arguments of one `with_<aggregation>` call, as handed to `_build_aggregated_transformers`. */
  datatype AggregationArgs = AggregationArgs(
    subset: Option<Selection>,
    factories: seq<Factory>,
    overs: seq<seq<ColumnRef>>,
    windows: seq<Option<TimeWindow>>,
    indexName: Option<string>,
    kwParams: seq<seq<Param>>,
    cumulative: A.CumulativeOptions,
    filter: Option<Condition>)

  /** Python's truth value of an optional column name: present and not empty. */
  predicate NameTruthy(name: Option<string>)
  {
    name.Some? && name.value != []
  }

  /** `get_column_by_name(index_column_name) if index_column_name else None`. */
  function IndexColumn(ds: Dataset, indexName: Option<string>): (r: Result<Option<ColumnSpec>>)
    ensures !NameTruthy(indexName) ==> r == Success(None)
    ensures NameTruthy(indexName)
            ==> (r.Failure? <==> forall i :: 0 <= i < |ds.schema.columns| ==> ds.schema.columns[i].name != indexName.value)
    ensures r.Success? && r.value.Some? ==> r.value.value in ds.schema.columns && r.value.value.name == indexName.value
    ensures r.Failure? ==> NameTruthy(indexName) && r.error == UnknownColumn(indexName.value)
  {
    if !NameTruthy(indexName) then Success(None)
    else
      var c :- Datasets.GetColumnByName(ds, indexName.value);
      Success(Some(c))
  }

  /** The input column lists: the one selection resolved, or none at all without a subset. */
  function AggregationInputs(ds: Dataset, subset: Option<Selection>): (r: Result<seq<seq<ColumnSpec>>>)
    ensures subset.None? ==> r == Success([])
    ensures subset.Some? ==> (r.Success? <==> Datasets.GetColumnsFromSelection(ds, subset.value).Success?)
    ensures subset.Some? && r.Success? ==> r.value == [Datasets.GetColumnsFromSelection(ds, subset.value).value]
  {
    if subset.Some? then GetCombinationsFromSelections(ds, [subset.value]) else Success([])
  }

  /** The fixed keyword arguments of the aggregating classes: cumulative option and filter. */
  function AggregationKeywords(args: AggregationArgs): Keywords
  {
    Keywords(args.cumulative, args.filter, None)
  }

  /**
   * `_build_aggregated_transformers`: look up the index column, validate it against the
   * windows, resolve the subset, build the aggregations, then wrap them in rolling windows
   * and then in groupings.
   */
  function AggregatedTransformers(ds: Dataset, level: OptimizationLevel, args: AggregationArgs): Result<seq<Transformer>>
  {
    var index :- IndexColumn(ds, args.indexName);
    var validated :- ValidateTimeWindowIndexColumn(args.windows, index);
    var inputColumns :- AggregationInputs(ds, args.subset);
    var aggregated :- Built(level, args.factories, inputColumns, args.kwParams, AggregationKeywords(args));
    var rolling :- RollingTransformers(level, aggregated, index, args.windows);
    OverTransformers(level, rolling, args.overs)
  }

  method BuildAggregatedTransformers(ds: Dataset, level: OptimizationLevel, args: AggregationArgs)
    returns (r: Result<seq<Transformer>>)
    ensures r == AggregatedTransformers(ds, level, args)
  {
    var index: Option<ColumnSpec> := None;
    if args.indexName.Some? && args.indexName.value != [] {
      var found := Datasets.GetColumnByName(ds, args.indexName.value);
      if found.Failure? {
        return Failure(found.error);
      }
      index := Some(found.value);
    }
    var validated := ValidateTimeWindowIndexColumn(args.windows, index);
    if validated.Failure? {
      return Failure(validated.error);
    }
    var inputColumns: seq<seq<ColumnSpec>> := [];
    if args.subset.Some? {
      var combinations := GetCombinationsFromSelections(ds, [args.subset.value]);
      if combinations.Failure? {
        return Failure(combinations.error);
      }
      inputColumns := combinations.value;
    }
    var aggregated := BuildTransformers(level, args.factories, inputColumns, args.kwParams, AggregationKeywords(args));
    if aggregated.Failure? {
      return Failure(aggregated.error);
    }
    var rolling := GetRollingTransformers(level, aggregated.value, index, args.windows);
    if rolling.Failure? {
      return Failure(rolling.error);
    }
    r := GetOverTransformers(level, rolling.value, args.overs);
  }

  /**
   * The index column is looked up and validated before anything else: an unknown name,
   * an index that is not DATETIME, or a first window without an index is the error raised,
   * whatever the subset and the factories are.
   */
  lemma AggregatedChecksIndexFirst(ds: Dataset, level: OptimizationLevel, args: AggregationArgs)
    ensures var index := IndexColumn(ds, args.indexName);
            index.Failure? ==> AggregatedTransformers(ds, level, args) == Failure(UnknownColumn(args.indexName.value))
    ensures var index := IndexColumn(ds, args.indexName);
            index.Success? && index.value.Some? && index.value.value.columnType != Datetime
            ==> AggregatedTransformers(ds, level, args) == Failure(IndexNotDatetime(args.indexName.value))
    ensures IndexColumn(ds, args.indexName) == Success(None) && |args.windows| > 0 && args.windows[0].Some?
            ==> AggregatedTransformers(ds, level, args) == Failure(WindowWithoutIndex)
  {
  }

  /** Without windows and groupings the aggregations are returned as built. */
  lemma AggregatedWithoutWrappers(ds: Dataset, level: OptimizationLevel, args: AggregationArgs)
    requires |args.windows| == 0 && |args.overs| == 0
    requires IndexColumn(ds, args.indexName) == Success(None)
    ensures var inputs := AggregationInputs(ds, args.subset);
            inputs.Success?
            ==> AggregatedTransformers(ds, level, args) == Built(level, args.factories, inputs.value, args.kwParams, AggregationKeywords(args))
  {
  }

  /**
   * Each transformer returned is a built aggregation, possibly within a rolling window,
   * possibly evaluated over a grouping, with the grouping outermost.
   */
  lemma AggregatedMembers(ds: Dataset, level: OptimizationLevel, args: AggregationArgs, t: Transformer)
    requires AggregatedTransformers(ds, level, args).Success?
    requires t in AggregatedTransformers(ds, level, args).value
    ensures var inputs := AggregationInputs(ds, args.subset);
            inputs.Success?
            && var built := Built(level, args.factories, inputs.value, args.kwParams, AggregationKeywords(args));
               built.Success?
               && (t in built.value || (t.Rolling? && t.inner in built.value)
                   || (t.Over? && (t.inner in built.value || (t.inner.Rolling? && t.inner.inner in built.value))))
  {
    var index := IndexColumn(ds, args.indexName).value;
    var inputs := AggregationInputs(ds, args.subset).value;
    var built := Built(level, args.factories, inputs, args.kwParams, AggregationKeywords(args)).value;
    var rolling := RollingTransformers(level, built, index, args.windows).value;
    OverMembers(level, rolling, args.overs, t);
    if t in rolling {
      RollingMembers(level, built, index, args.windows, t);
    } else {
      RollingMembers(level, built, index, args.windows, t.inner);
    }
  }

  /** `count` takes no column and no parameter: one instance, with the build's keywords. */
  lemma CountBuilt(level: OptimizationLevel, kw: Keywords)
    ensures Built(level, [AggregatingFactory(A.CountKind)], [], [], kw) == Success([Agg(A.Count(kw.cumulative, kw.filter))])
  {
    var f := AggregatingFactory(A.CountKind);
    BuiltWithoutColumns(level, f, [], kw);
    assert Product<Param>([]) == [[]];
    FlatMapResultsSingle([], ParamsStep(f, [], kw));
    CountBuildOne(kw);
  }

  lemma CountBuildOne(kw: Keywords)
    ensures BuildOne(AggregatingFactory(A.CountKind), [], [], kw) == Success([Agg(A.Count(kw.cumulative, kw.filter))])
  {
    var count := Agg(A.Count(kw.cumulative, kw.filter));
    CountConstructed(kw);
    CountValidated(count);
  }

  lemma CountConstructed(kw: Keywords)
    ensures Construct(AggregatingFactory(A.CountKind), [], [], kw) == Success(Agg(A.Count(kw.cumulative, kw.filter)))
  {
    assert ConstructAggregating(A.CountKind, [], [], kw) == Success(A.Count(kw.cumulative, kw.filter));
  }

  lemma CountValidated(count: Transformer)
    requires count.Agg? && count.a.Count?
    ensures ValidateTransformer(DefaultValidator, count, []) == Success(true)
  {
    assert ExpectedPositions(InputType(count)) == [];
  }

  /** Without an index or windows, and with the index check passed, the aggregations go straight to the grouping step. */
  lemma AggregatedWithoutWindows(ds: Dataset, level: OptimizationLevel, args: AggregationArgs, built: seq<Transformer>)
    requires |args.windows| == 0 && IndexColumn(ds, args.indexName) == Success(None)
    requires AggregationInputs(ds, args.subset).Success?
    requires Built(level, args.factories, AggregationInputs(ds, args.subset).value, args.kwParams, AggregationKeywords(args)) == Success(built)
    ensures AggregatedTransformers(ds, level, args) == OverTransformers(level, built, args.overs)
  {
  }

  /** Grouping one transformer by nothing and by one column keeps it and adds it over that column. */
  lemma OverOneGroupExample(level: OptimizationLevel, t: Transformer, g: ColumnRef)
    ensures OverTransformers(level, [t], [[], [g]]) == Success([t, Over(t, [RefName(g)])])
  {
    OneGroupOptions(g);
    OverWrapped(level, [t], [[g]]);
    var wrapped := Wrapped(level, OverFactory, [t], OverColumnsParams([[g]]), NoKeywords).value;
    assert OverTransformers(level, [t], [[], [g]]) == Success([t] + wrapped);
    OneGrouped(wrapped, t, g);
  }

  lemma OneGrouped(wrapped: seq<Transformer>, t: Transformer, g: ColumnRef)
    requires |wrapped| == |[t]| * |[[g]]|
    requires forall i, j :: 0 <= i < |[t]| && 0 <= j < |[[g]]|
               ==> 0 <= PairIndex(i, j, |[[g]]|) < |wrapped|
                   && wrapped[PairIndex(i, j, |[[g]]|)] == Over([t][i], GetNamesFromColumnSpecs([[g]][j]))
    ensures [t] + wrapped == [t, Over(t, [RefName(g)])]
  {
    assert PairIndex(0, 0, |[[g]]|) == 0;
    assert wrapped[0] == Over(t, GetNamesFromColumnSpecs([g]));
    assert GetNamesFromColumnSpecs([g]) == [RefName(g)];
    assert wrapped == [Over(t, [RefName(g)])];
  }

  lemma OneGroupOptions(g: ColumnRef)
    ensures GetValidParamOptions([[], [g]], OverTruthy) == ([[g]], false)
  {
    var overs: seq<seq<ColumnRef>> := [[], [g]];
    assert Filter(overs, OverTruthy) == [[g]] by {
      assert DropLast(overs) == [[]] && DropLast<seq<ColumnRef>>([[]]) == [];
    }
    assert !OverTruthy(overs[0]);
  }

  /**
   * `with_count(over_columns_combinations=[[], ['G']])`: the empty grouping keeps the plain
   * count, and the count over G follows it.
   */
  lemma CountOverExample(ds: Dataset, level: OptimizationLevel)
    ensures var args := AggregationArgs(None, [AggregatingFactory(A.CountKind)], [[], [Utils.ByName("G")]], [], None, [], A.NONE, None);
            var count := Agg(A.Count(A.NONE, None));
            AggregatedTransformers(ds, level, args) == Success([count, Over(count, ["G"])])
  {
    var args := AggregationArgs(None, [AggregatingFactory(A.CountKind)], [[], [Utils.ByName("G")]], [], None, [], A.NONE, None);
    var count := Agg(A.Count(A.NONE, None));
    CountBuilt(level, AggregationKeywords(args));
    AggregatedWithoutWindows(ds, level, args, [count]);
    OverOneGroupExample(level, count, Utils.ByName("G"));
  }

  /** Two windows that are both valid: only the rolling versions, in window order. */
  lemma RollingTwoWindowsExample(level: OptimizationLevel, t: Transformer, index: ColumnSpec, w1: TimeWindow, w2: TimeWindow)
    requires index.columnType == Datetime && WindowTruthy(Some(w1)) && WindowTruthy(Some(w2))
    ensures RollingTransformers(level, [t], Some(index), [Some(w1), Some(w2)]) == Success([Rolling(t, index, w1), Rolling(t, index, w2)])
  {
    var windows := [Some(w1), Some(w2)];
    TwoWindowsOptions(w1, w2);
    RollingWrapped(level, [t], index, windows);
    RollingAppends(level, [t], index, windows);
    TwoRolled(Wrapped(level, RollingFactory, [t], WindowParams(windows), Keywords(A.NONE, None, Some(index))).value, t, index, w1, w2);
  }

  lemma TwoRolled(wrapped: seq<Transformer>, t: Transformer, index: ColumnSpec, w1: TimeWindow, w2: TimeWindow)
    requires |wrapped| == |[t]| * |[Some(w1), Some(w2)]|
    requires forall i, j :: 0 <= i < |[t]| && 0 <= j < |[Some(w1), Some(w2)]|
               ==> 0 <= PairIndex(i, j, |[Some(w1), Some(w2)]|) < |wrapped|
                   && wrapped[PairIndex(i, j, |[Some(w1), Some(w2)]|)] == Rolling([t][i], index, [Some(w1), Some(w2)][j].value)
    ensures [] + wrapped == [Rolling(t, index, w1), Rolling(t, index, w2)]
  {
    var windows := [Some(w1), Some(w2)];
    assert PairIndex(0, 0, |windows|) == 0 && PairIndex(0, 1, |windows|) == 1;
    assert wrapped[0] == Rolling(t, index, w1) && wrapped[1] == Rolling(t, index, w2);
    assert wrapped == [Rolling(t, index, w1), Rolling(t, index, w2)];
  }

  lemma TwoWindowsOptions(w1: TimeWindow, w2: TimeWindow)
    requires WindowTruthy(Some(w1)) && WindowTruthy(Some(w2))
    ensures GetValidParamOptions([Some(w1), Some(w2)], WindowTruthy) == ([Some(w1), Some(w2)], true)
  {
  }

  /**
   * `with_count(time_windows=['2d', timedelta(days=2, hours=1)], index_column_name='ts')`:
   * every window is valid, so only the rolling counts are returned, in window order.
   */
  lemma RollingCountExample(ds: Dataset, level: OptimizationLevel, index: ColumnSpec)
    requires Datasets.GetColumnByName(ds, "ts") == Success(index) && index.columnType == Datetime
    ensures var windows := [Some(WindowText("2d")), Some(WindowDelta(2 * 86400 + 3600))];
            var args := AggregationArgs(None, [AggregatingFactory(A.CountKind)], [], windows, Some("ts"), [], A.NONE, None);
            var count := Agg(A.Count(A.NONE, None));
            AggregatedTransformers(ds, level, args) == Success([Rolling(count, index, WindowText("2d")), Rolling(count, index, WindowDelta(2 * 86400 + 3600))])
  {
    var w1, w2 := WindowText("2d"), WindowDelta(2 * 86400 + 3600);
    var args := AggregationArgs(None, [AggregatingFactory(A.CountKind)], [], [Some(w1), Some(w2)], Some("ts"), [], A.NONE, None);
    var count := Agg(A.Count(A.NONE, None));
    assert IndexColumn(ds, Some("ts")) == Success(Some(index));
    CountBuilt(level, AggregationKeywords(args));
    RollingTwoWindowsExample(level, count, index, w1, w2);
    assert OverTransformers(level, [Rolling(count, index, w1), Rolling(count, index, w2)], []) == Success([Rolling(count, index, w1), Rolling(count, index, w2)]);
  }
}
