// Numeric transformers: single-column maps (power, logarithm, sine, cosine, the two
// scalers) and binary arithmetic. Only what they declare to the pipeline is modelled:
// accepted input types, commutativity, return type and output name.

module NumericTransformers {
  import opened Strings
  import opened ColumnSpecification
  import opened TransformerBase

  /**
   * A logarithm's base. The source compares the base with `math.e` and otherwise prints
   * the float; a base other than e is carried here by its printed text.
   */
  datatype LogBase = NaturalE | Base(printed: string)

  datatype NumericTransformer =
    | Polynomial(column: string, degree: int)
    | Log(column: string, base: LogBase)
    | Sin(column: string)
    | Cos(column: string)
    | StandardScaler(column: string)
    | MinMaxScaler(column: string)
    | Add(left: string, right: string)
    | Subtract(left: string, right: string)
    | Multiply(left: string, right: string)
    | Divide(left: string, right: string)

  /** The transformer classes, which is what the pipeline passes around as factories. */
  datatype NumericKind =
    | PolynomialKind | LogKind | SinKind | CosKind | StandardScalerKind | MinMaxScalerKind
    | AddKind | SubtractKind | MultiplyKind | DivideKind

  function KindOf(t: NumericTransformer): NumericKind
  {
    match t
    case Polynomial(_, _) => PolynomialKind
    case Log(_, _) => LogKind
    case Sin(_) => SinKind
    case Cos(_) => CosKind
    case StandardScaler(_) => StandardScalerKind
    case MinMaxScaler(_) => MinMaxScalerKind
    case Add(_, _) => AddKind
    case Subtract(_, _) => SubtractKind
    case Multiply(_, _) => MultiplyKind
    case Divide(_, _) => DivideKind
  }

  predicate IsArithmetic(k: NumericKind)
  {
    k == AddKind || k == SubtractKind || k == MultiplyKind || k == DivideKind
  }

  /** `is_commutative`, a class method: true for the single-column kinds, Add and Multiply. */
  predicate IsCommutative(k: NumericKind)
  {
    k != SubtractKind && k != DivideKind
  }

  function InputType(t: NumericTransformer): ExpectedTypes
  {
    if IsArithmetic(KindOf(t)) then Positions([{Numeric, Boolean}, {Numeric, Boolean}])
    else Single({Numeric})
  }

  function ReturnType(t: NumericTransformer): ColumnType
  {
    Numeric
  }

  function LogSuffix(base: LogBase): string
  {
    match base
    case NaturalE => "_ln"
    case Base(printed) => "_log" + printed
  }

  /** The output name: a suffix on the input column, or `left_op_right`. */
  function Name(t: NumericTransformer): string
  {
    match t
    case Polynomial(c, d) => c + ("_pow_" + IntToString(d))
    case Log(c, b) => c + LogSuffix(b)
    case Sin(c) => c + "_sin"
    case Cos(c) => c + "_cos"
    case StandardScaler(c) => c + "_standard_scaled"
    case MinMaxScaler(c) => c + "_minmax_scaled"
    case Add(l, r) => l + "_add_" + r
    case Subtract(l, r) => l + "_subtract_" + r
    case Multiply(l, r) => l + "_multiply_" + r
    case Divide(l, r) => l + "_divide_" + r
  }

  /** The output column: its name, NUMERIC, role FEATURE. */
  function OutputSpec(t: NumericTransformer): (r: ColumnSpec)
    ensures r.columnType == Numeric && r.role == Feature
    ensures r.name == Name(t)
  {
    OutputSpecification(Name(t), ReturnType(t))
  }

  /** The single-column kinds accept NUMERIC only, return NUMERIC and are commutative. */
  lemma SingleColumnKinds(t: NumericTransformer)
    requires !IsArithmetic(KindOf(t))
    ensures InputType(t) == Single({Numeric})
    ensures ReturnType(t) == Numeric && IsCommutative(KindOf(t))
  {
  }

  /** The arithmetic kinds take two NUMERIC-or-BOOLEAN positions and return NUMERIC. */
  lemma ArithmeticKinds(t: NumericTransformer)
    requires IsArithmetic(KindOf(t))
    ensures InputType(t) == Positions([{Numeric, Boolean}, {Numeric, Boolean}])
    ensures ReturnType(t) == Numeric
    ensures IsCommutative(KindOf(t)) <==> KindOf(t) == AddKind || KindOf(t) == MultiplyKind
  {
  }

  /** Different degrees of the same column give different names. */
  lemma PolynomialNamesDistinct(c: string, d1: int, d2: int)
    requires d1 != d2
    ensures Name(Polynomial(c, d1)) != Name(Polynomial(c, d2))
  {
    if IntToString(d1) == IntToString(d2) {
      IntToStringInjective(d1, d2);
    }
    var s1, s2 := "_pow_" + IntToString(d1), "_pow_" + IntToString(d2);
    assert s1 != s2 by {
      assert s1[5..] == IntToString(d1) && s2[5..] == IntToString(d2);
    }
    assert (c + s1)[|c|..] == s1 && (c + s2)[|c|..] == s2;
  }

  /** A power of a power nests its suffixes: the second transformer reads the first one's output. */
  lemma PolynomialNests()
    ensures Name(Polynomial(Name(Polynomial("x", 2)), 2)) == "x_pow_2_pow_2"
  {
    assert IntToString(2) == "2";
  }

  lemma LogNames(c: string, printed: string)
    ensures Name(Log(c, NaturalE)) == c + "_ln"
    ensures Name(Log(c, Base(printed))) == c + "_log" + printed
  {
  }

  /** Swapping the operands of an arithmetic transformer swaps them in the name too. */
  lemma SwappedArithmeticNamesDiffer(l: string, r: string)
    requires |l| == |r| && l != r
    ensures Name(Subtract(l, r)) != Name(Subtract(r, l))
    ensures Name(Divide(l, r)) != Name(Divide(r, l))
    ensures Name(Add(l, r)) != Name(Add(r, l))
    ensures Name(Multiply(l, r)) != Name(Multiply(r, l))
  {
    SwappedOperandsDiffer(l, "_subtract_", r);
    SwappedOperandsDiffer(l, "_divide_", r);
    SwappedOperandsDiffer(l, "_add_", r);
    SwappedOperandsDiffer(l, "_multiply_", r);
  }

  /**
   * The naming is not injective: operands of different lengths that themselves contain
   * the operator text collide, and then the two outputs are the same column.
   */
  lemma ArithmeticNameCollision()
    ensures Add("x", "x_add_x") != Add("x_add_x", "x")
    ensures OutputSpec(Add("x", "x_add_x")) == OutputSpec(Add("x_add_x", "x"))
  {
    assert Name(Add("x", "x_add_x")) == "x_add_x_add_x";
    assert Name(Add("x_add_x", "x")) == "x_add_x_add_x";
  }

  // The enumerations that name the classes in the public API.

  datatype Goniometric = SIN | COS
  datatype Scaling = STANDARD | MIN_MAX
  datatype ArithmeticOperation = ADD | SUBTRACT | MULTIPLY | DIVIDE

  function GoniometricKind(g: Goniometric): NumericKind
  {
    match g
    case SIN => SinKind
    case COS => CosKind
  }

  function ScalingKind(s: Scaling): NumericKind
  {
    match s
    case STANDARD => StandardScalerKind
    case MIN_MAX => MinMaxScalerKind
  }

  function ArithmeticKind(op: ArithmeticOperation): NumericKind
  {
    match op
    case ADD => AddKind
    case SUBTRACT => SubtractKind
    case MULTIPLY => MultiplyKind
    case DIVIDE => DivideKind
  }

  /** Each registry maps its tags one-to-one onto its kinds. */
  lemma RegistriesOneToOne(g1: Goniometric, g2: Goniometric, s1: Scaling, s2: Scaling,
                           a1: ArithmeticOperation, a2: ArithmeticOperation)
    ensures GoniometricKind(g1) == GoniometricKind(g2) ==> g1 == g2
    ensures ScalingKind(s1) == ScalingKind(s2) ==> s1 == s2
    ensures ArithmeticKind(a1) == ArithmeticKind(a2) ==> a1 == a2
    ensures IsArithmetic(ArithmeticKind(a1)) && !IsArithmetic(GoniometricKind(g1)) && !IsArithmetic(ScalingKind(s1))
  {
  }

  /** The arithmetic registry covers every arithmetic kind. */
  lemma ArithmeticRegistryOnto(k: NumericKind)
    requires IsArithmetic(k)
    ensures exists op :: ArithmeticKind(op) == k
  {
    if k == AddKind { assert ArithmeticKind(ADD) == k; }
    else if k == SubtractKind { assert ArithmeticKind(SUBTRACT) == k; }
    else if k == MultiplyKind { assert ArithmeticKind(MULTIPLY) == k; }
    else { assert ArithmeticKind(DIVIDE) == k; }
  }

  /**
   * A single-column output name extends the column's name; an arithmetic one starts with
   * the left operand and ends with the right one.
   */
  lemma NameReadsColumns(t: NumericTransformer)
    ensures !(t.Add? || t.Subtract? || t.Multiply? || t.Divide?) ==> t.column + "_" <= Name(t)
    ensures t.Add? || t.Subtract? || t.Multiply? || t.Divide?
            ==> t.left + "_" <= Name(t) && Name(t)[|Name(t)| - |t.right|..] == t.right
  {
  }
}
