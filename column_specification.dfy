// Column types, roles, specifications and the selector algebra built from them
// with `&`, `|` and `~`.

module ColumnSpecification {
  import opened Wrappers
  import opened Strings

  datatype ColumnType = Numeric | Boolean | Nominal | Ordinal | Text | Datetime

  datatype ColumnRole = Label | Identifier | TimeInfo | Feature

  /** `ColumnType.ANY()`: every column type. */
  function AnyType(): (r: set<ColumnType>)
    ensures forall t: ColumnType :: t in r
  {
    var r := {Numeric, Boolean, Nominal, Ordinal, Text, Datetime};
    assert forall t: ColumnType :: t in r by {
      forall t: ColumnType ensures t in r { TypeListed(t); }
    }
    r
  }

  /** `ColumnRole.ANY()`: every column role. */
  function AnyRole(): (r: set<ColumnRole>)
    ensures forall role: ColumnRole :: role in r
  {
    var r := {Label, Identifier, TimeInfo, Feature};
    assert forall role: ColumnRole :: role in r by {
      forall role: ColumnRole ensures role in r { RoleListed(role); }
    }
    r
  }

  lemma TypeListed(t: ColumnType)
    ensures t in {Numeric, Boolean, Nominal, Ordinal, Text, Datetime}
  {
    match t
    case Numeric =>
    case Boolean =>
    case Nominal =>
    case Ordinal =>
    case Text =>
    case Datetime =>
  }

  lemma RoleListed(role: ColumnRole)
    ensures role in {Label, Identifier, TimeInfo, Feature}
  {
    match role
    case Label =>
    case Identifier =>
    case TimeInfo =>
    case Feature =>
  }

  /** A column's name, semantic type and role; two specifications are equal when all three are. */
  datatype ColumnSpec = ColumnSpec(name: string, columnType: ColumnType, role: ColumnRole)

  // The named constructors of ColumnSpecification; the role defaults to FEATURE.
  function NumericSpec(name: string, role: ColumnRole := Feature): ColumnSpec { ColumnSpec(name, Numeric, role) }
  function BooleanSpec(name: string, role: ColumnRole := Feature): ColumnSpec { ColumnSpec(name, Boolean, role) }
  function NominalSpec(name: string, role: ColumnRole := Feature): ColumnSpec { ColumnSpec(name, Nominal, role) }
  function OrdinalSpec(name: string, role: ColumnRole := Feature): ColumnSpec { ColumnSpec(name, Ordinal, role) }
  function TextSpec(name: string, role: ColumnRole := Feature): ColumnSpec { ColumnSpec(name, Text, role) }
  function DatetimeSpec(name: string, role: ColumnRole := Feature): ColumnSpec { ColumnSpec(name, Datetime, role) }

  /**
   * Each named constructor fixes its own type and keeps the name and the role, FEATURE
   * unless another is given; specifications are equal exactly when all three fields are.
   */
  lemma NamedConstructors(name: string, role: ColumnRole)
    ensures NumericSpec(name, role) == ColumnSpec(name, Numeric, role)
    ensures BooleanSpec(name, role) == ColumnSpec(name, Boolean, role)
    ensures NominalSpec(name, role) == ColumnSpec(name, Nominal, role)
    ensures OrdinalSpec(name, role) == ColumnSpec(name, Ordinal, role)
    ensures TextSpec(name, role) == ColumnSpec(name, Text, role)
    ensures DatetimeSpec(name, role) == ColumnSpec(name, Datetime, role)
    ensures NumericSpec(name).role == Feature && BooleanSpec(name).role == Feature && NominalSpec(name).role == Feature
    ensures OrdinalSpec(name).role == Feature && TextSpec(name).role == Feature && DatetimeSpec(name).role == Feature
  {
  }

  /** Specifications compare by value: name, type and role all count. */
  lemma SpecEquality(a: ColumnSpec, b: ColumnSpec)
    ensures a == b <==> a.name == b.name && a.columnType == b.columnType && a.role == b.role
  {
  }

  /** `numeric('a', role=LABEL)` equals the specification spelled out, and differs from the FEATURE one. */
  lemma SpecCreationExample()
    ensures NumericSpec("a", Label) == ColumnSpec("a", Numeric, Label)
    ensures NumericSpec("a") == ColumnSpec("a", Numeric, Feature)
    ensures NumericSpec("a", Label) != NumericSpec("a")
  {
  }

  /**
   * Python's `re.compile(pattern, flags).search(name)` succeeding; regular expressions
   * are not modelled, so selector matching takes the search as a parameter.
   */
  type RegexSearch = (string, int, string) -> bool

  datatype Selector =
    | And(left: Selector, right: Selector)
    | Or(left: Selector, right: Selector)
    | Not(inner: Selector)
    | NameContains(value: string)
    | NameStartsWith(value: string)
    | NameEndsWith(value: string)
    | NameRegex(pattern: string, flags: int)
    | TypeIn(types: set<ColumnType>)       // ColumnTypeSelector
    | RoleIn(roles: set<ColumnRole>)       // ColumnRoleSelector

  /** `selector.matches(column)`. */
  predicate Matches(s: Selector, c: ColumnSpec, search: RegexSearch)
  {
    match s
    case And(l, r) => Matches(l, c, search) && Matches(r, c, search)
    case Or(l, r) => Matches(l, c, search) || Matches(r, c, search)
    case Not(inner) => !Matches(inner, c, search)
    case NameContains(v) => Contains(c.name, v)
    case NameStartsWith(v) => IsPrefix(v, c.name)
    case NameEndsWith(v) => IsSuffix(v, c.name)
    case NameRegex(p, f) => search(p, f, c.name)
    case TypeIn(ts) => c.columnType in ts
    case RoleIn(rs) => c.role in rs
  }

  /** `ColumnTypeSelector.any()` selects every column. */
  function AnyTypeSelector(): (r: Selector)
    ensures forall c: ColumnSpec, search: RegexSearch :: Matches(r, c, search)
  {
    TypeIn(AnyType())
  }

  /** `ColumnRoleSelector.any()` selects every column. */
  function AnyRoleSelector(): (r: Selector)
    ensures forall c: ColumnSpec, search: RegexSearch :: Matches(r, c, search)
  {
    RoleIn(AnyRole())
  }

  /** `ColumnTypeSelector.exclude(...)`: the types left once the given ones are removed. */
  function ExcludeTypes(excluded: set<ColumnType>): (r: set<ColumnType>)
    ensures forall t: ColumnType :: t in r <==> t !in excluded
  {
    AnyType() - excluded
  }

  /** The right-hand side of `&` or `|`: a type, a role or a selector. */
  datatype Operand = TypeOperand(t: ColumnType) | RoleOperand(role: ColumnRole) | SelectorOperand(s: Selector)

  /** What an operand stands for as a condition on a column. */
  predicate OperandHolds(o: Operand, c: ColumnSpec, search: RegexSearch)
  {
    match o
    case TypeOperand(t) => c.columnType == t
    case RoleOperand(role) => c.role == role
    case SelectorOperand(s) => Matches(s, c, search)
  }

  /** `as_selector()` on a type or role, the selector itself otherwise. */
  function AsSelector(o: Operand): (r: Selector)
    ensures forall c: ColumnSpec, search: RegexSearch :: Matches(r, c, search) <==> OperandHolds(o, c, search)
  {
    match o
    case TypeOperand(t) => TypeIn({t})
    case RoleOperand(role) => RoleIn({role})
    case SelectorOperand(s) => s
  }

  /** `ColumnType.__and__`: a type with a role or selector; a type with a type is a TypeError. */
  function TypeAnd(t: ColumnType, o: Operand): (r: Result<Selector>)
    ensures r.Failure? <==> o.TypeOperand?
    ensures r.Failure? ==> r.error == CannotCombine
    ensures r.Success? ==> forall c: ColumnSpec, search: RegexSearch ::
              Matches(r.value, c, search) <==> c.columnType == t && OperandHolds(o, c, search)
  {
    if o.TypeOperand? then Failure(CannotCombine) else Success(And(TypeIn({t}), AsSelector(o)))
  }

  /** `ColumnType.__or__`: two types give one flat type selector, anything else a disjunction. */
  function TypeOr(t: ColumnType, o: Operand): (r: Selector)
    ensures o.TypeOperand? ==> r == TypeIn({t, o.t})
    ensures forall c: ColumnSpec, search: RegexSearch ::
              Matches(r, c, search) <==> c.columnType == t || OperandHolds(o, c, search)
  {
    match o
    case TypeOperand(u) => TypeIn({t, u})
    case _ => Or(TypeIn({t}), AsSelector(o))
  }

  /** `~column_type`. */
  function TypeNot(t: ColumnType): (r: Selector)
    ensures forall c: ColumnSpec, search: RegexSearch :: Matches(r, c, search) <==> c.columnType != t
  {
    Not(TypeIn({t}))
  }

  /** `ColumnRole.__and__`: a role with a type or selector; a role with a role is a TypeError. */
  function RoleAnd(role: ColumnRole, o: Operand): (r: Result<Selector>)
    ensures r.Failure? <==> o.RoleOperand?
    ensures r.Failure? ==> r.error == CannotCombine
    ensures r.Success? ==> forall c: ColumnSpec, search: RegexSearch ::
              Matches(r.value, c, search) <==> c.role == role && OperandHolds(o, c, search)
  {
    if o.RoleOperand? then Failure(CannotCombine) else Success(And(RoleIn({role}), AsSelector(o)))
  }

  /** `ColumnRole.__or__`: two roles give one flat role selector, anything else a disjunction. */
  function RoleOr(role: ColumnRole, o: Operand): (r: Selector)
    ensures o.RoleOperand? ==> r == RoleIn({role, o.role})
    ensures forall c: ColumnSpec, search: RegexSearch ::
              Matches(r, c, search) <==> c.role == role || OperandHolds(o, c, search)
  {
    match o
    case RoleOperand(other) => RoleIn({role, other})
    case _ => Or(RoleIn({role}), AsSelector(o))
  }

  /** `~column_role`. */
  function RoleNot(role: ColumnRole): (r: Selector)
    ensures forall c: ColumnSpec, search: RegexSearch :: Matches(r, c, search) <==> c.role != role
  {
    Not(RoleIn({role}))
  }

  /** `ColumnSelector.__and__`: a structural conjunction, types and roles converted first. */
  function SelectorAnd(s: Selector, o: Operand): (r: Selector)
    ensures r == And(s, AsSelector(o))
    ensures forall c: ColumnSpec, search: RegexSearch ::
              Matches(r, c, search) <==> Matches(s, c, search) && OperandHolds(o, c, search)
  {
    And(s, AsSelector(o))
  }

  /** `ColumnSelector.__or__`: a structural disjunction, types and roles converted first. */
  function SelectorOr(s: Selector, o: Operand): (r: Selector)
    ensures r == Or(s, AsSelector(o))
    ensures forall c: ColumnSpec, search: RegexSearch ::
              Matches(r, c, search) <==> Matches(s, c, search) || OperandHolds(o, c, search)
  {
    Or(s, AsSelector(o))
  }

  /** `~selector`. */
  function SelectorNot(s: Selector): (r: Selector)
    ensures forall c: ColumnSpec, search: RegexSearch :: Matches(r, c, search) <==> !Matches(s, c, search)
  {
    Not(s)
  }

  /** The selector `(NUMERIC | BOOLEAN) & ~LABEL` picks the non-label numeric and boolean columns. */
  lemma NumericOrBooleanFeatures(c: ColumnSpec, search: RegexSearch)
    ensures Matches(SelectorAnd(TypeOr(Numeric, TypeOperand(Boolean)), SelectorOperand(RoleNot(Label))), c, search)
            <==> (c.columnType == Numeric || c.columnType == Boolean) && c.role != Label
  {
  }
}
