// Seasonal transformers: one DATETIME column in, an ORDINAL calendar position out.

module DatetimeTransformers {
  import opened ColumnSpecification
  import opened TransformerBase

  datatype SeasonalTransformer =
    | HourOfDay(column: string)
    | DayOfWeek(column: string)
    | MonthOfYear(column: string)

  datatype SeasonalKind = HourOfDayKind | DayOfWeekKind | MonthOfYearKind

  function KindOf(t: SeasonalTransformer): SeasonalKind
  {
    match t
    case HourOfDay(_) => HourOfDayKind
    case DayOfWeek(_) => DayOfWeekKind
    case MonthOfYear(_) => MonthOfYearKind
  }

  predicate IsCommutative(k: SeasonalKind)
  {
    true
  }

  /** A plain type set, so a single position. */
  function InputType(t: SeasonalTransformer): ExpectedTypes
  {
    Single({Datetime})
  }

  function ReturnType(t: SeasonalTransformer): ColumnType
  {
    Ordinal
  }

  function Suffix(k: SeasonalKind): string
  {
    match k
    case HourOfDayKind => "_hour_of_day"
    case DayOfWeekKind => "_day_of_week"
    case MonthOfYearKind => "_month_of_year"
  }

  function Name(t: SeasonalTransformer): string
  {
    t.column + Suffix(KindOf(t))
  }

  function OutputSpec(t: SeasonalTransformer): (r: ColumnSpec)
    ensures r.name == Name(t) && r.columnType == Ordinal && r.role == Feature
  {
    OutputSpecification(Name(t), ReturnType(t))
  }

  /** Every seasonal kind reads one DATETIME column, yields ORDINAL and is commutative. */
  lemma SeasonalMetadata(t: SeasonalTransformer, c: ColumnSpec)
    ensures InputType(t) == Single({Datetime})
    ensures c.columnType in InputType(t).types <==> c.columnType == Datetime
    ensures ReturnType(t) == Ordinal && IsCommutative(KindOf(t))
  {
  }

  /** The three kinds name the same column differently. */
  lemma SeasonalNamesDistinct(c: string)
    ensures Name(HourOfDay(c)) == c + "_hour_of_day"
    ensures Name(DayOfWeek(c)) == c + "_day_of_week"
    ensures Name(MonthOfYear(c)) == c + "_month_of_year"
    ensures Name(HourOfDay(c)) != Name(DayOfWeek(c)) && Name(DayOfWeek(c)) != Name(MonthOfYear(c))
            && Name(HourOfDay(c)) != Name(MonthOfYear(c))
  {
    assert Name(HourOfDay(c))[|c| + 1] == 'h';
    assert Name(DayOfWeek(c))[|c| + 1] == 'd';
    assert Name(MonthOfYear(c))[|c| + 1] == 'm';
  }

  datatype SeasonalOperation = HOUR_OF_DAY | DAY_OF_WEEK | MONTH_OF_YEAR

  function SeasonalKindOf(op: SeasonalOperation): SeasonalKind
  {
    match op
    case HOUR_OF_DAY => HourOfDayKind
    case DAY_OF_WEEK => DayOfWeekKind
    case MONTH_OF_YEAR => MonthOfYearKind
  }

  /** The `SeasonalOperation` registry is a one-to-one correspondence with the three kinds. */
  lemma SeasonalRegistry(a: SeasonalOperation, b: SeasonalOperation, k: SeasonalKind)
    ensures SeasonalKindOf(a) == SeasonalKindOf(b) ==> a == b
    ensures exists op :: SeasonalKindOf(op) == k
  {
    match k
    case HourOfDayKind => assert SeasonalKindOf(HOUR_OF_DAY) == k;
    case DayOfWeekKind => assert SeasonalKindOf(DAY_OF_WEEK) == k;
    case MonthOfYearKind => assert SeasonalKindOf(MONTH_OF_YEAR) == k;
  }

  /** A seasonal output name is the column's name followed by `_` and the part it extracts. */
  lemma NameReadsColumn(t: SeasonalTransformer)
    ensures t.column + "_" <= Name(t) && |Name(t)| > |t.column| + 1
  {
  }
}
