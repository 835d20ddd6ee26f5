// What every transformer exposes to the pipeline: the column types it accepts,
// and the specification of the column it produces.

module TransformerBase {
  import opened ColumnSpecification

  /**
   * What `input_type` returns: either one type set (a transformer over a single
   * column) or a tuple with one type set per input position.
   */
  datatype ExpectedTypes = Single(types: set<ColumnType>) | Positions(positions: seq<set<ColumnType>>)

  /**
   * `output_column_specification`: the output name with the return type; the role is
   * the constructor's default, FEATURE.
   */
  function OutputSpecification(name: string, returnType: ColumnType): (r: ColumnSpec)
    ensures r.name == name && r.columnType == returnType && r.role == Feature
  {
    ColumnSpec(name, returnType, Feature)
  }

  /** Two outputs can only be the same column when their names and return types agree. */
  lemma OutputSpecificationInjective(n1: string, t1: ColumnType, n2: string, t2: ColumnType)
    ensures OutputSpecification(n1, t1) == OutputSpecification(n2, t2) <==> n1 == n2 && t1 == t2
  {
  }
}
