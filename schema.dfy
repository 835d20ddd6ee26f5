// The schema: the list of column specifications a dataset carries, with lookups
// and the resolution of a column selection to concrete columns.

module Schemas {
  import opened Wrappers
  import opened Sequences
  import opened ColumnSpecification
  import opened Utils

  datatype Schema = Schema(columns: seq<ColumnSpec>)

  /** `schema + other`: the columns of both, this schema's first. */
  function Add(a: Schema, b: Schema): (r: Schema)
    ensures r.columns == a.columns + b.columns
  {
    Schema(a.columns + b.columns)
  }

  /** `column_names`: one name per column, in schema order. */
  function ColumnNames(s: Schema): (names: seq<string>)
    ensures |names| == |s.columns|
    ensures forall i :: 0 <= i < |s.columns| ==> names[i] == s.columns[i].name
  {
    GetNamesFromColumnSpecs(MapSeq((c: ColumnSpec) => BySpec(c), s.columns))
  }

  /** `num_columns`. */
  function NumColumns(s: Schema): (n: nat)
    ensures n == |ColumnNames(s)|
  {
    |s.columns|
  }

  /** The first column with the LABEL role, or the error `label_column` raises. */
  function FirstLabel(columns: seq<ColumnSpec>): (r: Result<ColumnSpec>)
    ensures r.Failure? <==> forall i :: 0 <= i < |columns| ==> columns[i].role != Label
    ensures r.Failure? ==> r.error == NoLabelColumn
    ensures r.Success? ==> exists i :: 0 <= i < |columns| && columns[i] == r.value && r.value.role == Label
                                       && forall j :: 0 <= j < i ==> columns[j].role != Label
    decreases |columns|
  {
    if |columns| == 0 then Failure(NoLabelColumn)
    else if columns[0].role == Label then Success(columns[0])
    else
      var rest := FirstLabel(columns[1..]);
      assert forall i :: 1 <= i < |columns| ==> columns[i] == columns[1..][i - 1];
      if rest.Success? then
        var i :| 0 <= i < |columns| - 1 && columns[1..][i] == rest.value && rest.value.role == Label
                 && forall j :: 0 <= j < i ==> columns[1..][j].role != Label;
        assert columns[i + 1] == rest.value;
        rest
      else rest
  }

  /** `label_column`. */
  function LabelColumn(s: Schema): Result<ColumnSpec>
  {
    FirstLabel(s.columns)
  }

  /** The first column called `name`, or the KeyError `get_column_by_name` raises. */
  function FirstNamed(columns: seq<ColumnSpec>, name: string): (r: Result<ColumnSpec>)
    ensures r.Failure? <==> forall i :: 0 <= i < |columns| ==> columns[i].name != name
    ensures r.Failure? ==> r.error == UnknownColumn(name)
    ensures r.Success? ==> exists i :: 0 <= i < |columns| && columns[i] == r.value && r.value.name == name
                                       && forall j :: 0 <= j < i ==> columns[j].name != name
    decreases |columns|
  {
    if |columns| == 0 then Failure(UnknownColumn(name))
    else if columns[0].name == name then Success(columns[0])
    else
      var rest := FirstNamed(columns[1..], name);
      assert forall i :: 1 <= i < |columns| ==> columns[i] == columns[1..][i - 1];
      if rest.Success? then
        var i :| 0 <= i < |columns| - 1 && columns[1..][i] == rest.value && rest.value.name == name
                 && forall j :: 0 <= j < i ==> columns[1..][j].name != name;
        assert columns[i + 1] == rest.value;
        rest
      else rest
  }

  /** `get_column_by_name`. */
  function GetColumnByName(s: Schema, name: string): Result<ColumnSpec>
  {
    FirstNamed(s.columns, name)
  }

  /** In a concatenated schema a name is looked up in the first part before the second. */
  lemma {:induction false} AddLookupPrefersLeft(a: Schema, b: Schema, name: string)
    ensures GetColumnByName(Add(a, b), name)
            == if GetColumnByName(a, name).Success? then GetColumnByName(a, name) else GetColumnByName(b, name)
    decreases |a.columns|
  {
    if |a.columns| > 0 && a.columns[0].name != name {
      AddLookupPrefersLeft(Schema(a.columns[1..]), b, name);
      assert (a.columns + b.columns)[1..] == a.columns[1..] + b.columns;
    } else if |a.columns| == 0 {
      assert a.columns + b.columns == b.columns;
    }
  }

  function HasType(t: ColumnType): ColumnSpec -> bool
  {
    (c: ColumnSpec) => c.columnType == t
  }

  /** `get_columns_of_type`: the columns of that type, in schema order. */
  function GetColumnsOfType(s: Schema, t: ColumnType): (r: seq<ColumnSpec>)
    ensures |r| <= |s.columns|
    ensures forall i :: 0 <= i < |r| ==> r[i].columnType == t
  {
    Filter(s.columns, HasType(t))
  }

  /** The columns returned are exactly the schema's columns of that type. */
  lemma ColumnsOfTypeMembers(s: Schema, t: ColumnType)
    ensures forall c :: c in GetColumnsOfType(s, t) <==> c in s.columns && c.columnType == t
  {
    FilterMembers(s.columns, HasType(t));
  }

  lemma ColumnsOfTypeInOrder(s: Schema, t: ColumnType)
    ensures IsSubsequence(GetColumnsOfType(s, t), s.columns)
  {
    FilterSubsequence(s.columns, HasType(t));
  }

  /**
   * What `get_columns_from_selection` receives. Types, names and (nested) sequences are
   * handled; a role or a selector falls through to the final `case _`.
   */
  datatype Selection =
    | ByType(t: ColumnType)
    | ByName(name: string)
    | BySequence(items: seq<Selection>)
    | ByRole(role: ColumnRole)
    | BySelector(selector: Selector)

  lemma FlattenWithin(parts: seq<seq<ColumnSpec>>, columns: seq<ColumnSpec>)
    requires forall i, k :: 0 <= i < |parts| && 0 <= k < |parts[i]| ==> parts[i][k] in columns
    ensures forall k :: 0 <= k < |Flatten(parts)| ==> Flatten(parts)[k] in columns
  {
    var flat := Flatten(parts);
    forall k | 0 <= k < |flat| ensures flat[k] in columns {
      assert flat[k] in flat;
      var i :| 0 <= i < |parts| && flat[k] in parts[i];
      var j :| 0 <= j < |parts[i]| && parts[i][j] == flat[k];
    }
  }

  /**
   * The `Sequence` case once each item is resolved: the first error, or the flattened
   * columns without repeats, in first-occurrence order.
   */
  function FlattenUnique(s: Schema, results: seq<Result<seq<ColumnSpec>>>): (r: Result<seq<ColumnSpec>>)
    requires forall i, k :: 0 <= i < |results| && results[i].Success? && 0 <= k < |results[i].value|
               ==> results[i].value[k] in s.columns
    ensures r.Success? <==> forall i :: 0 <= i < |results| ==> results[i].Success?
    ensures r.Success? ==> Distinct(r.value) && forall i :: 0 <= i < |r.value| ==> r.value[i] in s.columns
    ensures r.Success? ==> forall i, k :: 0 <= i < |results| && 0 <= k < |results[i].value|
                             ==> results[i].value[k] in r.value
    ensures r.Success? ==> forall c :: c in r.value
                             ==> exists i :: 0 <= i < |results| && results[i].Success? && c in results[i].value
    ensures r.Success? ==> r.value == Unique(Flatten(CollectResults(results).value))
    ensures r.Failure? ==> exists i :: 0 <= i < |results| && results[i] == Failure(r.error)
                                       && forall j :: 0 <= j < i ==> results[j].Success?
  {
    var parts := CollectResults(results);
    if parts.Failure? then Failure(parts.error)
    else
      CollectedUnique(s, results);
      Success(Unique(Flatten(parts.value)))
  }

  /** Flattening the parts and dropping repeats keeps exactly the parts' elements, each once. */
  lemma UniqueFlatten<T(!new)>(parts: seq<seq<T>>)
    ensures Distinct(Unique(Flatten(parts)))
    ensures forall x :: x in Unique(Flatten(parts)) <==> exists i :: 0 <= i < |parts| && x in parts[i]
  {
    var flat := Flatten(parts);
    UniqueProperties(flat);
    SubsequenceMembers(Unique(flat), flat);
    forall x | x in flat ensures x in Unique(flat) {
      var k :| 0 <= k < |flat| && flat[k] == x;
    }
  }

  /** The successful resolutions, flattened without repeats: the columns some item selected. */
  lemma CollectedUnique(s: Schema, results: seq<Result<seq<ColumnSpec>>>)
    requires forall i :: 0 <= i < |results| ==> results[i].Success?
    requires forall i, k :: 0 <= i < |results| && 0 <= k < |results[i].value| ==> results[i].value[k] in s.columns
    ensures var u := Unique(Flatten(CollectResults(results).value));
            Distinct(u)
            && (forall i :: 0 <= i < |u| ==> u[i] in s.columns)
            && (forall i, k :: 0 <= i < |results| && 0 <= k < |results[i].value| ==> results[i].value[k] in u)
            && (forall c :: c in u ==> exists i :: 0 <= i < |results| && results[i].Success? && c in results[i].value)
  {
    var parts := CollectResults(results).value;
    var u := Unique(Flatten(parts));
    UniqueFlatten(parts);
    forall i | 0 <= i < |u| ensures u[i] in s.columns {
      assert u[i] in u;
      var j :| 0 <= j < |parts| && u[i] in parts[j];
      var k :| 0 <= k < |results[j].value| && results[j].value[k] == u[i];
    }
    forall i, k | 0 <= i < |results| && 0 <= k < |results[i].value| ensures results[i].value[k] in u {
      assert results[i].value[k] in parts[i];
    }
    forall c | c in u ensures exists i :: 0 <= i < |results| && results[i].Success? && c in results[i].value {
      var j :| 0 <= j < |parts| && c in parts[j];
      assert c in results[j].value;
    }
  }

  /** `get_columns_from_selection`. */
  function GetColumnsFromSelection(s: Schema, sel: Selection): (r: Result<seq<ColumnSpec>>)
    ensures r.Success? ==> forall i :: 0 <= i < |r.value| ==> r.value[i] in s.columns
    ensures sel.BySequence? && r.Success? ==> Distinct(r.value)
    ensures sel.ByType? ==> r == Success(GetColumnsOfType(s, sel.t))
    ensures sel.ByName? ==> (r.Success? <==> GetColumnByName(s, sel.name).Success?)
    ensures sel.ByName? && r.Success? ==> r.value == [GetColumnByName(s, sel.name).value]
    ensures sel.ByName? && r.Failure? ==> r.error == UnknownColumn(sel.name)
    ensures sel.ByRole? || sel.BySelector? ==> r == Failure(UnexpectedSelection)
    decreases sel
  {
    match sel
    case ByType(t) =>
      ColumnsOfTypeMembers(s, t);
      Success(GetColumnsOfType(s, t))
    case ByName(name) =>
      var c := GetColumnByName(s, name);
      if c.Failure? then Failure(c.error)
      else
        assert c.value in s.columns;
        Success([c.value])
    case BySequence(items) =>
      var results := seq(|items|, i requires 0 <= i < |items| => GetColumnsFromSelection(s, items[i]));
      assert forall i :: 0 <= i < |results| ==> results[i] == GetColumnsFromSelection(s, items[i]);
      FlattenUnique(s, results)
    case ByRole(_) => Failure(UnexpectedSelection)
    case BySelector(_) => Failure(UnexpectedSelection)
  }

  /** The items of a sequence selection, each resolved on its own, in order. */
  function ItemResults(s: Schema, items: seq<Selection>): (r: seq<Result<seq<ColumnSpec>>>)
    ensures |r| == |items| && forall i :: 0 <= i < |items| ==> r[i] == GetColumnsFromSelection(s, items[i])
    ensures forall i, k :: 0 <= i < |r| && r[i].Success? && 0 <= k < |r[i].value| ==> r[i].value[k] in s.columns
  {
    seq(|items|, i requires 0 <= i < |items| => GetColumnsFromSelection(s, items[i]))
  }

  /**
   * A sequence selection resolves its items in order: the first item's error, or the columns
   * some item selects, each once, in the order they first occur in the flattened items.
   */
  lemma SequenceSelection(s: Schema, items: seq<Selection>)
    ensures GetColumnsFromSelection(s, BySequence(items)) == FlattenUnique(s, ItemResults(s, items))
    ensures var r := GetColumnsFromSelection(s, BySequence(items));
            r.Success? ==> forall c :: c in r.value
                             <==> exists i :: 0 <= i < |items| && GetColumnsFromSelection(s, items[i]).Success?
                                              && c in GetColumnsFromSelection(s, items[i]).value
  {
    var results := ItemResults(s, items);
    assert GetColumnsFromSelection(s, BySequence(items)) == FlattenUnique(s, results);
    FlattenUniqueMembers(s, results);
  }

  /** A successful flattening holds a column exactly when some item selected it. */
  lemma FlattenUniqueMembers(s: Schema, results: seq<Result<seq<ColumnSpec>>>)
    requires forall i, k :: 0 <= i < |results| && results[i].Success? && 0 <= k < |results[i].value|
               ==> results[i].value[k] in s.columns
    ensures var r := FlattenUnique(s, results);
            r.Success? ==> forall c :: c in r.value <==> exists i :: 0 <= i < |results| && results[i].Success? && c in results[i].value
  {
    var r := FlattenUnique(s, results);
    if r.Success? {
      forall c, i | 0 <= i < |results| && results[i].Success? && c in results[i].value ensures c in r.value {
        var k :| 0 <= k < |results[i].value| && results[i].value[k] == c;
      }
    }
  }

  lemma FlattenExample(a: ColumnSpec, b: ColumnSpec, c: ColumnSpec)
    ensures Flatten([[c], [a, c], [b]]) == [c, a, c, b]
  {
    var xss := [[c], [a, c], [b]];
    assert xss[1..][1..][1..] == [];
    assert Flatten(xss[1..][1..]) == [b];
    assert Flatten(xss[1..]) == [a, c, b];
  }

  lemma CollectExample(x: seq<ColumnSpec>, y: seq<ColumnSpec>, z: seq<ColumnSpec>)
    ensures CollectResults([Success(x), Success(y), Success(z)]) == Success([x, y, z])
  {
    var rs: seq<Result<seq<ColumnSpec>>> := [Success(x), Success(y), Success(z)];
    assert rs[1..] == [Success(y), Success(z)];
    assert rs[1..][1..] == [Success(z)];
    assert rs[1..][1..][1..] == [];
    var r := CollectResults(rs);
    assert r.Success? && |r.value| == 3;
    assert r.value == [x, y, z];
  }

  lemma UniqueExample(a: ColumnSpec, b: ColumnSpec, c: ColumnSpec)
    requires a != b && b != c && a != c
    ensures Unique([c, a, c, b]) == [c, a, b]
  {
    MapIdentity([c]);
    MapIdentity([c, a]);
    assert DropLast([c]) == [];
    assert KeepFirstBy([c], Identity, {}) == [c];
    assert DropLast([c, a]) == [c];
    assert KeepFirstBy([c, a], Identity, {}) == [c, a];
    assert DropLast([c, a, c]) == [c, a];
    assert KeepFirstBy([c, a, c], Identity, {}) == [c, a];
    assert DropLast([c, a, c, b]) == [c, a, c];
  }

  lemma ExampleColumnsOfType(a: ColumnSpec, b: ColumnSpec, c: ColumnSpec)
    requires a.columnType == Numeric && b.columnType == Boolean && c.columnType == Numeric
    ensures GetColumnsOfType(Schema([a, b, c]), Numeric) == [a, c]
  {
    var p := HasType(Numeric);
    assert DropLast([a, b, c]) == [a, b];
    assert DropLast([a, b]) == [a];
    assert DropLast([a]) == [];
    assert Filter([a], p) == [a];
    assert Filter([a, b], p) == [a];
    assert Filter([a, b, c], p) == [a] + [c];
  }

  lemma ExampleColumnByName(a: ColumnSpec, b: ColumnSpec, c: ColumnSpec)
    requires a.name == "A" && b.name == "B" && c.name == "C"
    ensures GetColumnByName(Schema([a, b, c]), "B") == Success(b)
    ensures GetColumnByName(Schema([a, b, c]), "C") == Success(c)
  {
    var cols := [a, b, c];
    assert a.name[0] != 'B' && a.name[0] != 'C' && b.name[0] != 'C' && c.name[0] != 'B';
    var r := FirstNamed(cols, "B");
    assert cols[1].name == "B";
    var i :| 0 <= i < 3 && cols[i] == r.value && r.value.name == "B"
             && forall j :: 0 <= j < i ==> cols[j].name != "B";
    assert i == 1;
    var r' := FirstNamed(cols, "C");
    assert cols[2].name == "C";
    var i' :| 0 <= i' < 3 && cols[i'] == r'.value && r'.value.name == "C"
              && forall j :: 0 <= j < i' ==> cols[j].name != "C";
    assert i' == 2;
  }

  /** Order and duplicates: names and a type that overlap resolve to each column once, first come first. */
  lemma SelectionExample()
    ensures var a := NumericSpec("A");
            var b := BooleanSpec("B");
            var c := NumericSpec("C");
            GetColumnsFromSelection(Schema([a, b, c]), BySequence([Selection.ByName("C"), ByType(Numeric), Selection.ByName("B")]))
            == Success([c, a, b])
  {
    var a := NumericSpec("A");
    var b := BooleanSpec("B");
    var c := NumericSpec("C");
    var s := Schema([a, b, c]);
    var items := [Selection.ByName("C"), ByType(Numeric), Selection.ByName("B")];
    ExampleColumnsOfType(a, b, c);
    ExampleColumnByName(a, b, c);
    var results := seq(|items|, i requires 0 <= i < |items| => GetColumnsFromSelection(s, items[i]));
    assert results == [Success([c]), Success([a, c]), Success([b])];
    CollectExample([c], [a, c], [b]);
    FlattenExample(a, b, c);
    UniqueExample(a, b, c);
  }

  lemma ExampleTypeSplit(a: ColumnSpec, b: ColumnSpec, c: ColumnSpec)
    requires a.columnType == Numeric && b.columnType == Ordinal && c.columnType == Numeric
    ensures GetColumnsOfType(Schema([a, b, c]), Numeric) == [a, c]
    ensures GetColumnsOfType(Schema([a, b, c]), Ordinal) == [b]
  {
    var p, q := HasType(Numeric), HasType(Ordinal);
    assert DropLast([a, b, c]) == [a, b];
    assert DropLast([a, b]) == [a];
    assert DropLast([a]) == [];
    assert Filter([a, b], p) == [a];
    assert Filter([a, b, c], p) == [a] + [c];
    assert Filter([a, b], q) == [b];
    assert Filter([a, b, c], q) == [b];
  }

  /**
   * Two type selections in a sequence: the columns of the first type in schema order,
   * then those of the second.
   */
  lemma TypeSequenceExample(a: ColumnSpec, b: ColumnSpec, c: ColumnSpec)
    requires a.columnType == Numeric && b.columnType == Ordinal && c.columnType == Numeric && a != c
    ensures GetColumnsFromSelection(Schema([a, b, c]), BySequence([ByType(Numeric), ByType(Ordinal)])) == Success([a, c, b])
  {
    var s := Schema([a, b, c]);
    var items := [ByType(Numeric), ByType(Ordinal)];
    ExampleTypeSplit(a, b, c);
    SequenceSelection(s, items);
    var results := ItemResults(s, items);
    assert results == [Success([a, c]), Success([b])];
    assert CollectResults(results).value == [[a, c], [b]];
    FlattenTwo([a, c], [b]);
    assert [a, c] + [b] == [a, c, b];
    UniqueOfThree(a, c, b);
  }

  lemma FlattenTwo<T(!new)>(x: seq<T>, y: seq<T>)
    ensures Flatten([x, y]) == x + y
  {
    var xss := [x, y];
    assert xss[1..] == [y];
    assert xss[1..][1..] == [];
    assert Flatten([y]) == y + [];
  }

  lemma UniqueOfThree<T>(x: T, y: T, z: T)
    requires x != y && y != z && x != z
    ensures Unique([x, y, z]) == [x, y, z]
  {
    MapIdentity([x, y, z]);
    KeepFirstByIdentity([x, y, z], Identity, {});
  }

  /** A name that no column carries makes the whole selection fail. */
  lemma UnknownNameFails(s: Schema, name: string, rest: seq<Selection>)
    requires forall i :: 0 <= i < |s.columns| ==> s.columns[i].name != name
    ensures GetColumnsFromSelection(s, BySequence([Selection.ByName(name)] + rest)).Failure?
  {
    var items := [Selection.ByName(name)] + rest;
    var results := seq(|items|, i requires 0 <= i < |items| => GetColumnsFromSelection(s, items[i]));
    assert results[0].Failure?;
  }
}
