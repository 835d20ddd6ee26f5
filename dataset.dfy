// A dataset: a lazy frame together with its schema. The frame itself is the
// dataframe engine's business; it is abstracted here as the list of expression
// batches that `with_columns` has queued on it (each batch given by the output
// names of its expressions), which is all the symbolic layer ever does to it.

module Datasets {
  import opened Wrappers
  import opened ColumnSpecification
  import opened Sequences
  import opened Schemas

  datatype Dataset = Dataset(plan: seq<seq<string>>, schema: Schema)

  /** `num_columns`: the number of columns of the schema. */
  function NumColumns(ds: Dataset): (n: nat)
    ensures n == |ds.schema.columns|
    ensures n == |ColumnNames(ds.schema)|
  {
    Schemas.NumColumns(ds.schema)
  }

  /** `get_columns_from_selection`: resolved against the schema. */
  function GetColumnsFromSelection(ds: Dataset, sel: Selection): (r: Result<seq<ColumnSpec>>)
    ensures r.Success? ==> forall i :: 0 <= i < |r.value| ==> r.value[i] in ds.schema.columns
    ensures sel.ByType? ==> r == Success(Schemas.GetColumnsOfType(ds.schema, sel.t))
    ensures sel.ByName? ==> (r.Success? <==> Schemas.GetColumnByName(ds.schema, sel.name).Success?)
    ensures sel.ByName? && r.Success? ==> r.value == [Schemas.GetColumnByName(ds.schema, sel.name).value]
    ensures sel.ByName? && r.Failure? ==> r.error == UnknownColumn(sel.name)
    ensures sel.BySequence? ==> r == FlattenUnique(ds.schema, ItemResults(ds.schema, sel.items))
    ensures sel.BySequence? && r.Success? ==> Distinct(r.value)
    ensures sel.ByRole? || sel.BySelector? ==> r == Failure(UnexpectedSelection)
  {
    if sel.BySequence? then
      SequenceSelection(ds.schema, sel.items);
      Schemas.GetColumnsFromSelection(ds.schema, sel)
    else
      Schemas.GetColumnsFromSelection(ds.schema, sel)
  }

  /**
   * `get_combinations_from_selections`: one resolved column list per selection, in
   * argument order; the first selection that cannot be resolved is the error raised.
   */
  function GetCombinationsFromSelections(ds: Dataset, selections: seq<Selection>): (r: Result<seq<seq<ColumnSpec>>>)
    ensures r.Success? <==> forall i :: 0 <= i < |selections| ==> GetColumnsFromSelection(ds, selections[i]).Success?
    ensures r.Success? ==> |r.value| == |selections|
                           && forall i :: 0 <= i < |selections| ==> Success(r.value[i]) == GetColumnsFromSelection(ds, selections[i])
    ensures r.Failure? ==> exists i :: 0 <= i < |selections| && GetColumnsFromSelection(ds, selections[i]) == Failure(r.error)
                                       && forall j :: 0 <= j < i ==> GetColumnsFromSelection(ds, selections[j]).Success?
  {
    var results := seq(|selections|, i requires 0 <= i < |selections| => GetColumnsFromSelection(ds, selections[i]));
    assert forall i :: 0 <= i < |selections| ==> results[i] == GetColumnsFromSelection(ds, selections[i]);
    CollectResults(results)
  }

  /** `get_columns_of_type`: the schema's columns of that type, in order. */
  function GetColumnsOfType(ds: Dataset, t: ColumnType): (r: seq<ColumnSpec>)
    ensures forall c :: c in r <==> c in ds.schema.columns && c.columnType == t
  {
    Schemas.ColumnsOfTypeMembers(ds.schema, t);
    Schemas.GetColumnsOfType(ds.schema, t)
  }

  /** `get_column_by_name`: the schema's lookup, with its error for a missing name. */
  function GetColumnByName(ds: Dataset, name: string): (r: Result<ColumnSpec>)
    ensures r.Failure? <==> forall i :: 0 <= i < |ds.schema.columns| ==> ds.schema.columns[i].name != name
    ensures r.Failure? ==> r.error == UnknownColumn(name)
    ensures r.Success? ==> r.value in ds.schema.columns && r.value.name == name
  {
    Schemas.GetColumnByName(ds.schema, name)
  }

  function GetLabelColumn(ds: Dataset): (r: Result<ColumnSpec>)
    ensures r.Failure? <==> forall i :: 0 <= i < |ds.schema.columns| ==> ds.schema.columns[i].role != Label
    ensures r.Success? ==> r.value in ds.schema.columns && r.value.role == Label
  {
    LabelColumn(ds.schema)
  }

  /** `with_columns`: new expressions are queued on the frame; the schema is left as it was. */
  function WithColumns(ds: Dataset, newColumns: seq<string>): (r: Dataset)
    ensures r.schema == ds.schema
    ensures r.plan == ds.plan + [newColumns]
  {
    Dataset(ds.plan + [newColumns], ds.schema)
  }

  /** `with_schema`: the same frame, with the new columns appended to the schema. */
  function WithSchema(ds: Dataset, newSchema: Schema): (r: Dataset)
    ensures r.schema.columns == ds.schema.columns + newSchema.columns
    ensures r.plan == ds.plan
  {
    Dataset(ds.plan, Add(ds.schema, newSchema))
  }

  /** Extending a schema never changes what the existing columns resolve to by name. */
  lemma WithSchemaKeepsLookups(ds: Dataset, newSchema: Schema, name: string)
    requires GetColumnByName(ds, name).Success?
    ensures GetColumnByName(WithSchema(ds, newSchema), name) == GetColumnByName(ds, name)
    ensures NumColumns(WithSchema(ds, newSchema)) == NumColumns(ds) + |newSchema.columns|
  {
    AddLookupPrefersLeft(ds.schema, newSchema, name);
  }

  /** Over the columns a, b, c of types NUMERIC, ORDINAL, NUMERIC, `[NUMERIC, ORDINAL]` selects a, c, b. */
  lemma SelectionSequenceExample(plan: seq<seq<string>>)
    ensures var a, b, c := NumericSpec("a"), OrdinalSpec("b"), NumericSpec("c");
            GetColumnsFromSelection(Dataset(plan, Schema([a, b, c])), BySequence([ByType(Numeric), ByType(Ordinal)]))
            == Success([a, c, b])
  {
    TypeSequenceExample(NumericSpec("a"), OrdinalSpec("b"), NumericSpec("c"));
  }
}
