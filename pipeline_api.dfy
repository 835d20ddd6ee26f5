// The public face of the pipeline: the `with_<operation>` front-ends that turn a request
// into transformers, the pipeline value that stacks them in layers, the auxiliary-column
// list its derived pipelines share, and the plan that `collect_plan` queues on the dataset.

module PipelineApi {
  import opened Wrappers
  import opened Sequences
  import opened ColumnSpecification
  import opened Utils
  import opened Schemas
  import opened Datasets
  import opened Transformers
  import opened Optimizers
  import opened Validators
  import opened Pipelines
  import N = NumericTransformers
  import C = ComparisonTransformers
  import D = DatetimeTransformers
  import A = AggregatingTransformers

  // ---------------------------------------------------------------------------
  // The front-ends

  /** The grouping, windowing and filtering arguments of an aggregating front-end. */
  datatype Windowing = Windowing(
    overs: seq<seq<ColumnRef>>,
    windows: seq<Option<TimeWindow>>,
    indexName: Option<string>,
    filter: Option<Condition>)

  /** One `with_<operation>` call, with the arguments it takes (the `auxiliary` flag aside). */
  datatype Operation =
    | WithSeasonal(seasonalSubset: Selection, seasonalOperations: seq<D.SeasonalOperation>)
    | WithPolynomial(polynomialSubset: Selection, degrees: seq<int>)
    | WithLog(logSubset: Selection, bases: seq<N.LogBase>)
    | WithGoniometric(goniometricSubset: Selection, functions: seq<N.Goniometric>)
    | WithScaling(scalingSubset: Selection, scalings: seq<N.Scaling>)
    | WithArithmetic(arithmeticLeft: Selection, arithmeticRight: Selection, arithmeticOperations: seq<N.ArithmeticOperation>)
    | WithComparison(comparisonLeft: Selection, comparisonRight: Selection, comparisons: seq<C.Comparisons>)
    | WithCount(countWindowing: Windowing, countCumulative: A.CumulativeOptions)
    | WithLagged(laggedSubset: Selection, lags: seq<int>, laggedOvers: seq<seq<ColumnRef>>)
    | WithFirstValue(firstValueSubset: Selection, firstValueWindowing: Windowing)
    | WithMode(modeSubset: Selection, modeWindowing: Windowing, modeCumulative: A.CumulativeOptions)
    | WithNumUnique(numUniqueSubset: Selection, numUniqueWindowing: Windowing, numUniqueCumulative: A.CumulativeOptions)
    | WithArithmeticAggregation(aggregationSubset: Selection, aggregations: seq<A.ArithmeticAggregations>,
                                aggregationWindowing: Windowing, aggregationCumulative: A.CumulativeOptions)

  predicate IsAggregation(op: Operation)
  {
    op.WithCount? || op.WithLagged? || op.WithFirstValue? || op.WithMode? || op.WithNumUnique? || op.WithArithmeticAggregation?
  }

  /** `[op.value for op in order_preserving_unique(operations)]`: the classes the enumeration members name. */
  function Classes<E(==)>(operations: seq<E>, classOf: E -> Factory): seq<Factory>
  {
    MapSeq(classOf, Unique(operations))
  }

  function SeasonalClass(op: D.SeasonalOperation): Factory { SeasonalFactory(D.SeasonalKindOf(op)) }
  function GoniometricClass(g: N.Goniometric): Factory { NumericFactory(N.GoniometricKind(g)) }
  function ScalingClass(s: N.Scaling): Factory { NumericFactory(N.ScalingKind(s)) }
  function ArithmeticClass(op: N.ArithmeticOperation): Factory { NumericFactory(N.ArithmeticKind(op)) }
  function ComparisonClass(c: C.Comparisons): Factory { ComparisonFactory(C.ComparisonKindOf(c)) }
  function AggregationClass(a: A.ArithmeticAggregations): Factory { AggregatingFactory(A.ArithmeticAggregationKind(a)) }

  function DegreeParams(degrees: seq<int>): seq<Param> { MapSeq((d: int) => DegreeParam(d), degrees) }
  function BaseParams(bases: seq<N.LogBase>): seq<Param> { MapSeq((b: N.LogBase) => BaseParam(b), bases) }
  function LagParams(lags: seq<int>): seq<Param> { MapSeq((l: int) => LagParam(l), lags) }

  /** The classes a front-end hands to the build. */
  function OperationFactories(op: Operation): seq<Factory>
  {
    match op
    case WithSeasonal(_, ops) => Classes(ops, SeasonalClass)
    case WithPolynomial(_, _) => [NumericFactory(N.PolynomialKind)]
    case WithLog(_, _) => [NumericFactory(N.LogKind)]
    case WithGoniometric(_, functions) => Classes(functions, GoniometricClass)
    case WithScaling(_, scalings) => Classes(scalings, ScalingClass)
    case WithArithmetic(_, _, ops) => Classes(ops, ArithmeticClass)
    case WithComparison(_, _, comparisons) => Classes(comparisons, ComparisonClass)
    case WithCount(_, _) => [AggregatingFactory(A.CountKind)]
    case WithLagged(_, _, _) => [AggregatingFactory(A.LaggedKind)]
    case WithFirstValue(_, _) => [AggregatingFactory(A.FirstValueKind)]
    case WithMode(_, _, _) => [AggregatingFactory(A.ModeKind)]
    case WithNumUnique(_, _, _) => [AggregatingFactory(A.NumUniqueKind)]
    case WithArithmeticAggregation(_, aggregations, _, _) => Classes(aggregations, AggregationClass)
  }

  /** The selections a non-aggregating front-end resolves, one per input position. */
  function Selections(op: Operation): seq<Selection>
    requires !IsAggregation(op)
  {
    match op
    case WithSeasonal(subset, _) => [subset]
    case WithPolynomial(subset, _) => [subset]
    case WithLog(subset, _) => [subset]
    case WithGoniometric(subset, _) => [subset]
    case WithScaling(subset, _) => [subset]
    case WithArithmetic(left, right, _) => [left, right]
    case WithComparison(left, right, _) => [left, right]
  }

  /** The keyword parameter lists (`kw_params`) a non-aggregating front-end passes. */
  function OperationParams(op: Operation): seq<seq<Param>>
    requires !IsAggregation(op)
  {
    match op
    case WithPolynomial(_, degrees) => [DegreeParams(degrees)]
    case WithLog(_, bases) => [BaseParams(bases)]
    case _ => []
  }

  function WindowedArgs(subset: Option<Selection>, factories: seq<Factory>, w: Windowing, cumulative: A.CumulativeOptions)
    : AggregationArgs
  {
    AggregationArgs(subset, factories, w.overs, w.windows, w.indexName, [], cumulative, w.filter)
  }

  /**
   * The arguments an aggregating front-end passes to `_build_aggregated_transformers`.
   * `with_count` has no subset; `with_lagged` has no windows, no index and no filter, and
   * passes the lags as a keyword parameter list; `with_first_value` passes no cumulative
   * option, which its class does not take.
   */
  function OperationArgs(op: Operation): AggregationArgs
    requires IsAggregation(op)
  {
    match op
    case WithCount(w, cumulative) => WindowedArgs(None, OperationFactories(op), w, cumulative)
    case WithLagged(subset, lags, overs) =>
      AggregationArgs(Some(subset), OperationFactories(op), overs, [], None, [LagParams(lags)], A.NONE, None)
    case WithFirstValue(subset, w) => WindowedArgs(Some(subset), OperationFactories(op), w, A.NONE)
    case WithMode(subset, w, cumulative) => WindowedArgs(Some(subset), OperationFactories(op), w, cumulative)
    case WithNumUnique(subset, w, cumulative) => WindowedArgs(Some(subset), OperationFactories(op), w, cumulative)
    case WithArithmeticAggregation(subset, _, w, cumulative) => WindowedArgs(Some(subset), OperationFactories(op), w, cumulative)
  }

  /** Resolve the selections, then build every class on the combinations of their columns. */
  function BuiltFromSelections(ds: Dataset, level: OptimizationLevel, selections: seq<Selection>,
                               factories: seq<Factory>, kwParams: seq<seq<Param>>): Result<seq<Transformer>>
  {
    var inputColumns :- Datasets.GetCombinationsFromSelections(ds, selections);
    Built(level, factories, inputColumns, kwParams, NoKeywords)
  }

  /** The transformers a front-end call builds on the pipeline's dataset, or the error it raises. */
  function OperationTransformers(ds: Dataset, level: OptimizationLevel, op: Operation): Result<seq<Transformer>>
  {
    if IsAggregation(op) then AggregatedTransformers(ds, level, OperationArgs(op))
    else BuiltFromSelections(ds, level, Selections(op), OperationFactories(op), OperationParams(op))
  }

  method UniqueClasses<E(==)>(operations: seq<E>, classOf: E -> Factory) returns (factories: seq<Factory>)
    ensures factories == Classes(operations, classOf)
  {
    var unique := OrderPreservingUnique(operations);
    factories := MapSeq(classOf, unique);
  }

  method BuildFromSelections(ds: Dataset, level: OptimizationLevel, selections: seq<Selection>,
                             factories: seq<Factory>, kwParams: seq<seq<Param>>)
    returns (r: Result<seq<Transformer>>)
    ensures r == BuiltFromSelections(ds, level, selections, factories, kwParams)
  {
    var inputColumns := Datasets.GetCombinationsFromSelections(ds, selections);
    if inputColumns.Failure? {
      return Failure(inputColumns.error);
    }
    r := BuildTransformers(level, factories, inputColumns.value, kwParams, NoKeywords);
  }

  /** The body of each `with_<operation>` up to the point where the result joins the current layer. */
  method BuildOperation(ds: Dataset, level: OptimizationLevel, op: Operation) returns (r: Result<seq<Transformer>>)
    ensures r == OperationTransformers(ds, level, op)
  {
    var factories: seq<Factory>;
    match op {
      case WithSeasonal(_, ops) => factories := UniqueClasses(ops, SeasonalClass);
      case WithGoniometric(_, functions) => factories := UniqueClasses(functions, GoniometricClass);
      case WithScaling(_, scalings) => factories := UniqueClasses(scalings, ScalingClass);
      case WithArithmetic(_, _, ops) => factories := UniqueClasses(ops, ArithmeticClass);
      case WithComparison(_, _, comparisons) => factories := UniqueClasses(comparisons, ComparisonClass);
      case WithArithmeticAggregation(_, aggregations, _, _) => factories := UniqueClasses(aggregations, AggregationClass);
      case _ => factories := OperationFactories(op);
    }
    if IsAggregation(op) {
      r := BuildAggregatedTransformers(ds, level, OperationArgs(op));
    } else {
      r := BuildFromSelections(ds, level, Selections(op), factories, OperationParams(op));
    }
  }

  // ---------------------------------------------------------------------------
  // What the front-ends promise

  /**
   * Deduplicating the enumeration members first means every requested class is built once:
   * the class list has no repeats, holds the class of every requested member and nothing else.
   */
  lemma ClassesOnce<E>(operations: seq<E>, classOf: E -> Factory)
    requires forall a, b :: classOf(a) == classOf(b) ==> a == b
    ensures Distinct(Classes(operations, classOf))
    ensures forall i :: 0 <= i < |operations| ==> classOf(operations[i]) in Classes(operations, classOf)
    ensures forall f :: f in Classes(operations, classOf) ==> exists i :: 0 <= i < |operations| && f == classOf(operations[i])
  {
    var u := Unique(operations);
    var r := Classes(operations, classOf);
    UniqueProperties(operations);
    SubsequenceMembers(u, operations);
    forall i | 0 <= i < |operations|
      ensures classOf(operations[i]) in r
    {
      var k :| 0 <= k < |u| && u[k] == operations[i];
      assert r[k] == classOf(operations[i]);
    }
    forall f | f in r
      ensures exists i :: 0 <= i < |operations| && f == classOf(operations[i])
    {
      var k :| 0 <= k < |r| && r[k] == f;
      assert u[k] in operations;
      var i :| 0 <= i < |operations| && operations[i] == u[k];
      assert f == classOf(operations[i]);
    }
  }

  /** Every enumeration the front-ends accept names its classes one-to-one, so each front-end builds a class at most once. */
  lemma OperationFactoriesDistinct(op: Operation)
    ensures Distinct(OperationFactories(op))
    ensures op.WithArithmetic?
            ==> forall i :: 0 <= i < |op.arithmeticOperations| ==> ArithmeticClass(op.arithmeticOperations[i]) in OperationFactories(op)
  {
    match op {
      case WithSeasonal(_, ops) =>
        forall a, b ensures SeasonalClass(a) == SeasonalClass(b) ==> a == b { D.SeasonalRegistry(a, b, D.HourOfDayKind); }
        ClassesOnce(ops, SeasonalClass);
      case WithGoniometric(_, functions) =>
        forall a, b ensures GoniometricClass(a) == GoniometricClass(b) ==> a == b {
          N.RegistriesOneToOne(a, b, N.STANDARD, N.STANDARD, N.ADD, N.ADD);
        }
        ClassesOnce(functions, GoniometricClass);
      case WithScaling(_, scalings) =>
        forall a, b ensures ScalingClass(a) == ScalingClass(b) ==> a == b {
          N.RegistriesOneToOne(N.SIN, N.SIN, a, b, N.ADD, N.ADD);
        }
        ClassesOnce(scalings, ScalingClass);
      case WithArithmetic(_, _, ops) =>
        forall a, b ensures ArithmeticClass(a) == ArithmeticClass(b) ==> a == b {
          N.RegistriesOneToOne(N.SIN, N.SIN, N.STANDARD, N.STANDARD, a, b);
        }
        ClassesOnce(ops, ArithmeticClass);
      case WithComparison(_, _, comparisons) =>
        forall a, b ensures ComparisonClass(a) == ComparisonClass(b) ==> a == b { C.ComparisonsRegistry(a, b, C.EqualKind); }
        ClassesOnce(comparisons, ComparisonClass);
      case WithArithmeticAggregation(_, aggregations, _, _) =>
        forall a, b ensures AggregationClass(a) == AggregationClass(b) ==> a == b {
          A.ArithmeticAggregationsRegistry(a, b, A.CountKind);
        }
        ClassesOnce(aggregations, AggregationClass);
      case _ =>
    }
  }

  /**
   * What a plain (non-aggregating) front-end builds: instances of the requested classes
   * only, each reading one combination of the resolved selections' columns that its class
   * accepts.
   */
  lemma OperationMembers(ds: Dataset, level: OptimizationLevel, op: Operation, t: Transformer)
    requires !IsAggregation(op)
    requires OperationTransformers(ds, level, op).Success? && t in OperationTransformers(ds, level, op).value
    ensures Datasets.GetCombinationsFromSelections(ds, Selections(op)).Success?
    ensures FactoryOf(t) in OperationFactories(op) && !IsWrapper(t)
    ensures exists c :: c in Product(Datasets.GetCombinationsFromSelections(ds, Selections(op)).value)
                        && InputNames(t) == Names(c) && Accepts(ExpectedPositions(InputType(t)), c)
  {
    var inputColumns := Datasets.GetCombinationsFromSelections(ds, Selections(op)).value;
    BuiltAccepted(level, OperationFactories(op), inputColumns, OperationParams(op), NoKeywords, t);
  }

  /** A selection that cannot be resolved is the error the front-end raises, before any class is built. */
  lemma OperationSelectionFails(ds: Dataset, level: OptimizationLevel, op: Operation, i: nat)
    requires !IsAggregation(op) && i < |Selections(op)|
    requires Datasets.GetColumnsFromSelection(ds, Selections(op)[i]).Failure?
    requires forall j :: 0 <= j < i ==> Datasets.GetColumnsFromSelection(ds, Selections(op)[j]).Success?
    ensures OperationTransformers(ds, level, op) == Failure(Datasets.GetColumnsFromSelection(ds, Selections(op)[i]).error)
  {
    var sels := Selections(op);
    var r := Datasets.GetCombinationsFromSelections(ds, sels);
    var k :| 0 <= k < |sels| && Datasets.GetColumnsFromSelection(ds, sels[k]) == Failure(r.error)
             && forall j :: 0 <= j < k ==> Datasets.GetColumnsFromSelection(ds, sels[j]).Success?;
    assert k == i;
  }

  // ---------------------------------------------------------------------------
  // The pipeline value

  /**
   * The list of auxiliary column specifications. It is one mutable list handed from a
   * pipeline to the pipelines derived from it, so extending it through one of them is
   * seen by all the others that share it.
   */
  class AuxiliaryColumns {
    var columns: seq<ColumnSpec>

    constructor()
      ensures columns == []
    {
      columns := [];
    }

    /** `list.extend`: the new specifications after the old ones, in order. */
    method Extend(specs: seq<ColumnSpec>)
      modifies this
      ensures columns == old(columns) + specs
    {
      columns := columns + specs;
    }
  }

  /** The layers of transformers; there is always a current (last) layer. */
  type Layers = layers: seq<seq<Transformer>> | |layers| > 0 witness [[]]

  /**
   * A pipeline: the dataset whose schema holds the columns of every completed layer, the
   * layers, the optimizer's level and the (possibly shared) auxiliary-column list.
   */
  datatype Pipeline = Pipeline(dataset: Dataset, layers: Layers, level: OptimizationLevel, auxiliary: AuxiliaryColumns)

  /** `_current_layer`: the last layer. */
  function CurrentLayer(p: Pipeline): seq<Transformer>
  {
    Last(p.layers)
  }

  /** `_get_schema_from_transformers`: the output specifications of the transformers, in order. */
  function SchemaFromTransformers(transformers: seq<Transformer>): Schema
  {
    Schema(MapSeq(OutputSpec, transformers))
  }

  /**
   * `Pipeline.__init__`: no layers (or an empty list of them) becomes one empty layer; an
   * auxiliary list that is missing or empty is replaced by a fresh empty one, a non-empty
   * one is shared as it is.
   */
  method NewPipeline(dataset: Dataset, transformers: seq<seq<Transformer>>, level: OptimizationLevel,
                     auxiliary: Option<AuxiliaryColumns>)
    returns (p: Pipeline)
    ensures p.dataset == dataset && p.level == level
    ensures p.layers == if |transformers| == 0 then [[]] else transformers
    ensures auxiliary.Some? && |auxiliary.value.columns| > 0 ==> p.auxiliary == auxiliary.value
    ensures auxiliary.None? || |auxiliary.value.columns| == 0 ==> fresh(p.auxiliary) && p.auxiliary.columns == []
  {
    var layers: Layers := if |transformers| == 0 then [[]] else transformers;
    var auxiliaryColumns: AuxiliaryColumns;
    if auxiliary.Some? && |auxiliary.value.columns| > 0 {
      auxiliaryColumns := auxiliary.value;
    } else {
      auxiliaryColumns := new AuxiliaryColumns();
    }
    p := Pipeline(dataset, layers, level, auxiliaryColumns);
  }

  /** The transformers of a batch that join the current layer: those whose output the dataset's schema lacks. */
  function Kept(p: Pipeline, additions: seq<Transformer>): seq<Transformer>
  {
    DeduplicatedAgainstLayers(p.dataset.schema.columns, additions)
  }

  /** The layers after a batch is added: the completed layers as they were, the kept transformers after the current ones. */
  function AddedLayers(p: Pipeline, additions: seq<Transformer>): (r: Layers)
  {
    DropLast(p.layers) + [CurrentLayer(p) + Kept(p, additions)]
  }

  /**
   * `_with_added_to_current_layer`: the batch is deduplicated against the dataset's schema
   * and appended to the current layer of a new pipeline over the same dataset. With
   * `auxiliary`, the kept transformers' outputs are appended to the shared auxiliary list
   * in place before the new pipeline is made from it.
   */
  method WithAddedToCurrentLayer(p: Pipeline, transformers: seq<Transformer>, auxiliary: bool)
    returns (q: Pipeline)
    modifies p.auxiliary
    ensures q.dataset == p.dataset && q.level == p.level
    ensures q.layers == AddedLayers(p, transformers)
    ensures p.auxiliary.columns == old(p.auxiliary.columns) + (if auxiliary then MapSeq(OutputSpec, Kept(p, transformers)) else [])
    ensures |p.auxiliary.columns| > 0 ==> q.auxiliary == p.auxiliary
    ensures |p.auxiliary.columns| == 0 ==> fresh(q.auxiliary) && q.auxiliary.columns == []
  {
    var additions := DeduplicateTransformersAgainstLayers(p.dataset.schema.columns, transformers);
    var auxiliaryColumns := p.auxiliary;
    if auxiliary {
      auxiliaryColumns.Extend(MapSeq(OutputSpec, additions));
    }
    q := NewPipeline(p.dataset, DropLast(p.layers) + [CurrentLayer(p) + additions], p.level, Some(auxiliaryColumns));
  }

  /**
   * `with_new_layer`: the current layer's outputs are appended to the dataset's schema and
   * an empty layer is opened; the auxiliary list is passed on.
   */
  method WithNewLayer(p: Pipeline) returns (q: Pipeline)
    ensures q.dataset == WithSchema(p.dataset, SchemaFromTransformers(CurrentLayer(p)))
    ensures q.layers == p.layers + [[]] && CurrentLayer(q) == [] && q.level == p.level
    ensures |p.auxiliary.columns| > 0 ==> q.auxiliary == p.auxiliary
    ensures |p.auxiliary.columns| == 0 ==> fresh(q.auxiliary) && q.auxiliary.columns == []
  {
    var newLayerSchema := SchemaFromTransformers(CurrentLayer(p));
    q := NewPipeline(WithSchema(p.dataset, newLayerSchema), p.layers + [[]], p.level, Some(p.auxiliary));
  }

  /**
   * A `with_<operation>` call: build the transformers on the pipeline's dataset and add them
   * to the current layer; an error raised while building leaves everything as it was.
   */
  method Apply(p: Pipeline, op: Operation, auxiliary: bool) returns (r: Result<Pipeline>)
    modifies p.auxiliary
    ensures OperationTransformers(p.dataset, p.level, op).Failure?
            ==> r == Failure(OperationTransformers(p.dataset, p.level, op).error) && p.auxiliary.columns == old(p.auxiliary.columns)
    ensures OperationTransformers(p.dataset, p.level, op).Success?
            ==> var built := OperationTransformers(p.dataset, p.level, op).value;
                r.Success? && r.value.dataset == p.dataset && r.value.level == p.level
                && r.value.layers == AddedLayers(p, built)
                && p.auxiliary.columns == old(p.auxiliary.columns) + (if auxiliary then MapSeq(OutputSpec, Kept(p, built)) else [])
                && (|p.auxiliary.columns| > 0 ==> r.value.auxiliary == p.auxiliary)
                && (|p.auxiliary.columns| == 0 ==> fresh(r.value.auxiliary) && r.value.auxiliary.columns == [])
  {
    var built := BuildOperation(p.dataset, p.level, op);
    if built.Failure? {
      return Failure(built.error);
    }
    var q := WithAddedToCurrentLayer(p, built.value, auxiliary);
    r := Success(q);
  }

  /** What `transform()` contributes to the plan: each transformer's expression, named after its output. */
  function LayerExpressions(layer: seq<Transformer>): seq<string>
  {
    MapSeq(Name, layer)
  }

  /**
   * `collect_plan`, up to the final drop: the current layer's outputs join the schema, and
   * one `with_columns` batch per layer, in layer order, is queued on the frame.
   */
  method CollectPlan(p: Pipeline) returns (ds: Dataset)
    ensures ds.schema == WithSchema(p.dataset, SchemaFromTransformers(CurrentLayer(p))).schema
    ensures ds.plan == p.dataset.plan + MapSeq(LayerExpressions, p.layers)
  {
    var currentLayerSchema := SchemaFromTransformers(CurrentLayer(p));
    ds := WithSchema(p.dataset, currentLayerSchema);
    for i := 0 to |p.layers|
      invariant ds.schema == WithSchema(p.dataset, currentLayerSchema).schema
      invariant ds.plan == p.dataset.plan + MapSeq(LayerExpressions, p.layers[..i])
    {
      var exprs := LayerExpressions(p.layers[i]);
      assert p.layers[..i + 1] == p.layers[..i] + [p.layers[i]];
      MapSeqAppend(LayerExpressions, p.layers[..i], p.layers[i]);
      ds := WithColumns(ds, exprs);
    }
    assert p.layers[..|p.layers|] == p.layers;
  }

  // ---------------------------------------------------------------------------
  // Layers and schema

  /** The output specifications of the transformers of the given layers, layer after layer. */
  function Outputs(layers: seq<seq<Transformer>>): seq<ColumnSpec>
    decreases |layers|
  {
    if |layers| == 0 then [] else Outputs(DropLast(layers)) + MapSeq(OutputSpec, Last(layers))
  }

  /**
   * A pipeline derived from a dataset `base` by the methods above: the frame is the base
   * frame and the schema holds the base columns followed by the outputs of every completed
   * layer.
   */
  predicate DerivedFrom(p: Pipeline, base: Dataset)
  {
    p.dataset.plan == base.plan && p.dataset.schema.columns == base.schema.columns + Outputs(DropLast(p.layers))
  }

  /** A new pipeline without layers starts from its dataset. */
  lemma NewPipelineDerived(p: Pipeline)
    requires p.layers == [[]]
    ensures DerivedFrom(p, p.dataset)
  {
    assert DropLast(p.layers) == [];
  }

  /** Adding to the current layer keeps the dataset and the completed layers, so the invariant holds. */
  lemma AddedKeepsDerived(p: Pipeline, q: Pipeline, additions: seq<Transformer>, base: Dataset)
    requires DerivedFrom(p, base)
    requires q.dataset == p.dataset && q.layers == AddedLayers(p, additions)
    ensures DerivedFrom(q, base)
    ensures CurrentLayer(q) == CurrentLayer(p) + Kept(p, additions)
  {
    assert DropLast(q.layers) == DropLast(p.layers);
  }

  /** Appending a layer's outputs to a schema of completed layers gives the schema with that layer completed. */
  lemma {:induction false} OutputsAppend(columns: seq<ColumnSpec>, completed: seq<seq<Transformer>>, layer: seq<Transformer>)
    ensures columns + Outputs(completed) + MapSeq(OutputSpec, layer) == columns + Outputs(completed + [layer])
  {
    assert DropLast(completed + [layer]) == completed;
  }

  /** A new layer moves the current layer's outputs into the schema, so the invariant holds. */
  lemma {:induction false} NewLayerKeepsDerived(p: Pipeline, q: Pipeline, base: Dataset)
    requires DerivedFrom(p, base)
    requires q.dataset == WithSchema(p.dataset, SchemaFromTransformers(CurrentLayer(p))) && q.layers == p.layers + [[]]
    ensures DerivedFrom(q, base)
  {
    var completed := DropLast(p.layers);
    assert DropLast(q.layers) == completed + [CurrentLayer(p)];
    OutputsAppend(base.schema.columns, completed, CurrentLayer(p));
  }

  /** The plan collected from a derived pipeline has the base columns followed by the outputs of every layer. */
  lemma {:induction false} CollectedSchema(p: Pipeline, base: Dataset, ds: Dataset)
    requires DerivedFrom(p, base)
    requires ds.schema == WithSchema(p.dataset, SchemaFromTransformers(CurrentLayer(p))).schema
    ensures ds.schema.columns == base.schema.columns + Outputs(p.layers)
  {
    var completed := DropLast(p.layers);
    assert p.layers == completed + [CurrentLayer(p)];
    OutputsAppend(base.schema.columns, completed, CurrentLayer(p));
  }

  /**
   * Repeating a batch after a new layer adds nothing: once the layer that took the batch is
   * completed, every output the batch builds is in the schema.
   */
  lemma NewLayerRepeatAddsNothing(p: Pipeline, added: Pipeline, q: Pipeline, additions: seq<Transformer>)
    requires added.dataset == p.dataset && added.layers == AddedLayers(p, additions)
    requires q.dataset == WithSchema(added.dataset, SchemaFromTransformers(CurrentLayer(added)))
    ensures Kept(q, additions) == []
  {
    var kept := Kept(p, additions);
    var layer := CurrentLayer(p) + kept;
    assert CurrentLayer(added) == layer;
    var present := q.dataset.schema.columns;
    assert present == p.dataset.schema.columns + MapSeq(OutputSpec, layer);
    forall i | 0 <= i < |additions|
      ensures OutputSpec(additions[i]) in present
    {
      if OutputSpec(additions[i]) !in p.dataset.schema.columns {
        var k :| 0 <= k < |kept| && MapSeq(OutputSpec, kept)[k] == OutputSpec(additions[i]);
        assert MapSeq(OutputSpec, layer)[|CurrentLayer(p)| + k] == OutputSpec(additions[i]);
      }
    }
    PresentBatchAddsNothing(present, additions);
  }

  /**
   * Within one layer a repeated batch is added again: deduplication looks only at the
   * schema, which adding to the current layer does not change.
   */
  lemma SameLayerKeepsRepeats(p: Pipeline, added: Pipeline, additions: seq<Transformer>)
    requires added.dataset == p.dataset && added.layers == AddedLayers(p, additions)
    ensures Kept(added, additions) == Kept(p, additions)
    ensures AddedLayers(added, additions) == DropLast(p.layers) + [CurrentLayer(p) + Kept(p, additions) + Kept(p, additions)]
  {
    assert DropLast(added.layers) == DropLast(p.layers);
  }
}
