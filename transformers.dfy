// Every transformer the pipeline can hold, behind one interface: the types it
// accepts, whether its class is commutative, its return type and its output name.
// The Over and Rolling wrappers hold another transformer and delegate to it.

module Transformers {
  import opened Wrappers
  import opened Strings
  import opened ColumnSpecification
  import opened Utils
  import opened TransformerBase
  import N = NumericTransformers
  import C = ComparisonTransformers
  import D = DatetimeTransformers
  import T = TextTransformers
  import A = AggregatingTransformers

  /** A rolling window: a polars duration string, or a `timedelta` given in whole seconds. */
  datatype TimeWindow = WindowText(text: string) | WindowDelta(seconds: int)

  datatype Transformer =
    | Num(n: N.NumericTransformer)
    | Cmp(c: C.ComparisonTransformer)
    | Season(s: D.SeasonalTransformer)
    | Txt(x: T.TextTransformer)
    | Agg(a: A.AggregatingTransformer)
    | Over(inner: Transformer, overColumns: seq<string>)
    | Rolling(inner: Transformer, indexColumn: ColumnSpec, window: TimeWindow)

  /** The transformer classes, as the pipeline passes them around before instantiating them. */
  datatype Factory =
    | NumericFactory(nk: N.NumericKind)
    | ComparisonFactory(ck: C.ComparisonKind)
    | SeasonalFactory(sk: D.SeasonalKind)
    | TextFactory(tk: T.TextKind)
    | AggregatingFactory(ak: A.AggregatingKind)
    | OverFactory
    | RollingFactory

  function FactoryOf(t: Transformer): Factory
  {
    match t
    case Num(n) => NumericFactory(N.KindOf(n))
    case Cmp(c) => ComparisonFactory(C.KindOf(c))
    case Season(s) => SeasonalFactory(D.KindOf(s))
    case Txt(x) => TextFactory(T.KindOf(x))
    case Agg(a) => AggregatingFactory(A.KindOf(a))
    case Over(_, _) => OverFactory
    case Rolling(_, _, _) => RollingFactory
  }

  /** `is_commutative`, a class method; both wrappers are commutative whatever they wrap. */
  predicate IsCommutative(f: Factory)
  {
    match f
    case NumericFactory(k) => N.IsCommutative(k)
    case ComparisonFactory(k) => C.IsCommutative(k)
    case SeasonalFactory(k) => D.IsCommutative(k)
    case TextFactory(k) => T.IsCommutative(k)
    case AggregatingFactory(k) => A.IsCommutative(k)
    case OverFactory => true
    case RollingFactory => true
  }

  predicate IsWrapper(t: Transformer)
  {
    t.Over? || t.Rolling?
  }

  function InputType(t: Transformer): ExpectedTypes
  {
    match t
    case Num(n) => N.InputType(n)
    case Cmp(c) => C.InputType(c)
    case Season(s) => D.InputType(s)
    case Txt(x) => T.InputType(x)
    case Agg(a) => A.InputType(a)
    case Over(inner, _) => InputType(inner)
    case Rolling(inner, _, _) => InputType(inner)
  }

  function ReturnType(t: Transformer): ColumnType
  {
    match t
    case Num(n) => N.ReturnType(n)
    case Cmp(c) => C.ReturnType(c)
    case Season(s) => D.ReturnType(s)
    case Txt(x) => T.ReturnType(x)
    case Agg(a) => A.ReturnType(a)
    case Over(inner, _) => ReturnType(inner)
    case Rolling(inner, _, _) => ReturnType(inner)
  }

  /** What Over appends: `_over_` and the grouping columns joined with `_and_`. */
  function OverSuffix(overColumns: seq<string>): string
  {
    "_over_" + Join("_and_", overColumns)
  }

  /** A window as it appears in a name: a string verbatim, a duration through `format_timedelta`. */
  function WindowName(w: TimeWindow): string
  {
    match w
    case WindowText(s) => s
    case WindowDelta(seconds) => TimedeltaString(seconds, StandardUnits)
  }

  function RollingSuffix(w: TimeWindow): string
  {
    "_in_the_last_" + WindowName(w)
  }

  function Name(t: Transformer): string
  {
    match t
    case Num(n) => N.Name(n)
    case Cmp(c) => C.Name(c)
    case Season(s) => D.Name(s)
    case Txt(x) => T.Name(x)
    case Agg(a) => A.Name(a)
    case Over(inner, keys) => Name(inner) + OverSuffix(keys)
    case Rolling(inner, _, w) => Name(inner) + RollingSuffix(w)
  }

  /** `output_column_specification`: name, return type, role FEATURE. */
  function OutputSpec(t: Transformer): (r: ColumnSpec)
    ensures r.name == Name(t) && r.columnType == ReturnType(t) && r.role == Feature
  {
    OutputSpecification(Name(t), ReturnType(t))
  }

  /** The interface agrees with each family's own output specification. */
  lemma OutputSpecAgrees(t: Transformer)
    ensures t.Num? ==> OutputSpec(t) == N.OutputSpec(t.n)
    ensures t.Cmp? ==> OutputSpec(t) == C.OutputSpec(t.c)
    ensures t.Season? ==> OutputSpec(t) == D.OutputSpec(t.s)
    ensures t.Txt? ==> OutputSpec(t) == T.OutputSpec(t.x)
    ensures t.Agg? ==> OutputSpec(t) == A.OutputSpec(t.a)
  {
  }

  /** Python truthiness of a window option: None, `''` and a zero duration are all false. */
  predicate WindowTruthy(w: Option<TimeWindow>)
  {
    match w
    case None => false
    case Some(WindowText(s)) => s != ""
    case Some(WindowDelta(seconds)) => seconds != 0
  }
}
