// Comparison transformers: two columns of any type in, a BOOLEAN column out.

module ComparisonTransformers {
  import opened Strings
  import opened ColumnSpecification
  import opened TransformerBase

  datatype ComparisonTransformer =
    | Equal(left: string, right: string)
    | GreaterThan(left: string, right: string)
    | GreaterOrEqual(left: string, right: string)

  datatype ComparisonKind = EqualKind | GreaterThanKind | GreaterOrEqualKind

  function KindOf(t: ComparisonTransformer): ComparisonKind
  {
    match t
    case Equal(_, _) => EqualKind
    case GreaterThan(_, _) => GreaterThanKind
    case GreaterOrEqual(_, _) => GreaterOrEqualKind
  }

  /** Only equality is symmetric in its operands. */
  predicate IsCommutative(k: ComparisonKind)
  {
    k == EqualKind
  }

  function InputType(t: ComparisonTransformer): ExpectedTypes
  {
    Positions([AnyType(), AnyType()])
  }

  function ReturnType(t: ComparisonTransformer): ColumnType
  {
    Boolean
  }

  function Operator(k: ComparisonKind): string
  {
    match k
    case EqualKind => "_equal_"
    case GreaterThanKind => "_greater_than_"
    case GreaterOrEqualKind => "_greater_or_equal_"
  }

  function Name(t: ComparisonTransformer): string
  {
    t.left + Operator(KindOf(t)) + t.right
  }

  function OutputSpec(t: ComparisonTransformer): (r: ColumnSpec)
    ensures r.name == Name(t) && r.columnType == Boolean && r.role == Feature
  {
    OutputSpecification(Name(t), ReturnType(t))
  }

  /** Every comparison accepts any column type at both positions and yields BOOLEAN. */
  lemma ComparisonAcceptsAnyTypes(t: ComparisonTransformer, c1: ColumnSpec, c2: ColumnSpec)
    ensures InputType(t).Positions? && |InputType(t).positions| == 2
    ensures c1.columnType in InputType(t).positions[0] && c2.columnType in InputType(t).positions[1]
    ensures ReturnType(t) == Boolean
  {
  }

  lemma ComparisonNames(l: string, r: string)
    ensures Name(Equal(l, r)) == l + "_equal_" + r
    ensures Name(GreaterThan(l, r)) == l + "_greater_than_" + r
    ensures Name(GreaterOrEqual(l, r)) == l + "_greater_or_equal_" + r
  {
  }

  /** Swapping the operands swaps them in the name, which then differs for equally long operands. */
  lemma SwappedComparisonNamesDiffer(t: ComparisonTransformer)
    requires |t.left| == |t.right| && t.left != t.right
    ensures Name(t.(left := t.right, right := t.left)) == t.right + Operator(KindOf(t)) + t.left
    ensures Name(t.(left := t.right, right := t.left)) != Name(t)
  {
    SwappedOperandsDiffer(t.left, Operator(KindOf(t)), t.right);
  }

  datatype Comparisons = EQUAL | GREATER_THAN | GREATER_OR_EQUAL

  function ComparisonKindOf(c: Comparisons): ComparisonKind
  {
    match c
    case EQUAL => EqualKind
    case GREATER_THAN => GreaterThanKind
    case GREATER_OR_EQUAL => GreaterOrEqualKind
  }

  /** The `Comparisons` registry is a one-to-one correspondence with the three kinds. */
  lemma ComparisonsRegistry(c1: Comparisons, c2: Comparisons, k: ComparisonKind)
    ensures ComparisonKindOf(c1) == ComparisonKindOf(c2) ==> c1 == c2
    ensures exists c :: ComparisonKindOf(c) == k
  {
    match k
    case EqualKind => assert ComparisonKindOf(EQUAL) == k;
    case GreaterThanKind => assert ComparisonKindOf(GREATER_THAN) == k;
    case GreaterOrEqualKind => assert ComparisonKindOf(GREATER_OR_EQUAL) == k;
  }

  /** A comparison's output name starts with the left column and ends with the right one. */
  lemma NameReadsColumns(t: ComparisonTransformer)
    ensures t.left + "_" <= Name(t) && |Name(t)| > |t.left| + |t.right| && Name(t)[|Name(t)| - |t.right|..] == t.right
  {
  }
}
