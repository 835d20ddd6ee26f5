// Feature selection: the checks a selection report's inputs must pass, how many features a
// request asks for, and the ranking the chosen features are read from. The statistics
// themselves are computed by the dataframe engine and enter here as given real numbers.

module FeatureSelection {
  import opened Wrappers
  import opened Sequences
  import opened Strings
  import opened ColumnSpecification
  import opened Schemas
  import opened Datasets

  datatype SelectionMethod = CORRELATION | T_TEST

  /** `SUPPORTED_COLUMN_TYPES`: the same three feature types for both methods. */
  function SupportedColumnTypes(m: SelectionMethod): set<ColumnType>
  {
    {Numeric, Boolean, Ordinal}
  }

  /** `SUPPORTED_LABEL_COLUMN_TYPES`: the t-test splits the rows by a boolean label. */
  function SupportedLabelColumnTypes(m: SelectionMethod): set<ColumnType>
  {
    match m
    case CORRELATION => {Numeric, Boolean}
    case T_TEST => {Boolean}
  }

  // ---------------------------------------------------------------------------
  // _get_num_to_select

  /**
   * Exactly one of `top_k` and `frac` must be given; `top_k` is at least one and taken as
   * it is, `frac` lies in [0, 1] and selects `int(frac * num_cols)` features.
   */
  function NumToSelect(topK: Option<int>, frac: Option<real>, numColumns: nat): (r: Result<nat>)
    ensures r.Success? <==> topK.Some? != frac.Some? && (topK.Some? ==> topK.value >= 1)
                            && (frac.Some? ==> 0.0 <= frac.value <= 1.0)
    ensures topK.Some? == frac.Some? ==> r == Failure(ExactlyOneOfKOrFrac)
    ensures topK.Some? && frac.None? && topK.value < 1 ==> r == Failure(TopKBelowOne)
    ensures frac.Some? && topK.None? && !(0.0 <= frac.value <= 1.0) ==> r == Failure(FracOutOfRange)
    ensures r.Success? && topK.Some? ==> r.value == topK.value
    ensures r.Success? && frac.Some?
            ==> r.value <= numColumns && r.value as real <= frac.value * numColumns as real < r.value as real + 1.0
  {
    if topK.Some? == frac.Some? then Failure(ExactlyOneOfKOrFrac)
    else if topK.Some? then
      if topK.value < 1 then Failure(TopKBelowOne) else Success(topK.value)
    else if !(0.0 <= frac.value <= 1.0) then Failure(FracOutOfRange)
    else
      var scaled := frac.value * numColumns as real;
      assert 0.0 <= scaled <= numColumns as real by {
        assert frac.value * numColumns as real <= 1.0 * numColumns as real;
      }
      Success(scaled.Floor)
  }

  // ---------------------------------------------------------------------------
  // _check_valid_types

  /** The position of the first column whose type is not supported, if there is one. */
  function FirstUnsupported(columns: seq<ColumnSpec>, supported: set<ColumnType>): (r: Option<nat>)
    ensures r.None? <==> forall i :: 0 <= i < |columns| ==> columns[i].columnType in supported
    ensures r.Some? ==> r.value < |columns| && columns[r.value].columnType !in supported
                        && forall j :: 0 <= j < r.value ==> columns[j].columnType in supported
    decreases |columns|
  {
    if |columns| == 0 then None
    else if columns[0].columnType !in supported then Some(0)
    else
      match FirstUnsupported(columns[1..], supported)
      case None => None
      case Some(i) => Some(i + 1)
  }

  /**
   * The label's type is checked first, then the features' in order; the first column of an
   * unsupported type is the error raised.
   */
  function TypeCheck(features: seq<ColumnSpec>, labelColumn: ColumnSpec, m: SelectionMethod): (r: Result<()>)
    ensures r.Success? <==> labelColumn.columnType in SupportedLabelColumnTypes(m)
                            && forall i :: 0 <= i < |features| ==> features[i].columnType in SupportedColumnTypes(m)
    ensures labelColumn.columnType !in SupportedLabelColumnTypes(m) ==> r == Failure(UnsupportedLabelType(labelColumn.name))
    ensures r.Failure? && labelColumn.columnType in SupportedLabelColumnTypes(m)
            ==> exists i :: 0 <= i < |features| && r.error == UnsupportedFeatureType(features[i].name)
                            && features[i].columnType !in SupportedColumnTypes(m)
                            && forall j :: 0 <= j < i ==> features[j].columnType in SupportedColumnTypes(m)
  {
    if labelColumn.columnType !in SupportedLabelColumnTypes(m) then Failure(UnsupportedLabelType(labelColumn.name))
    else
      match FirstUnsupported(features, SupportedColumnTypes(m))
      case None => Success(())
      case Some(i) => Failure(UnsupportedFeatureType(features[i].name))
  }

  /** `_check_valid_types`: the label check, then a loop over the features that raises at the first bad one. */
  method CheckValidTypes(features: seq<ColumnSpec>, labelColumn: ColumnSpec, m: SelectionMethod) returns (r: Result<()>)
    ensures r == TypeCheck(features, labelColumn, m)
  {
    var supportedLabelTypes := SupportedLabelColumnTypes(m);
    if labelColumn.columnType !in supportedLabelTypes {
      return Failure(UnsupportedLabelType(labelColumn.name));
    }
    var supportedTypes := SupportedColumnTypes(m);
    for i := 0 to |features|
      invariant forall j :: 0 <= j < i ==> features[j].columnType in supportedTypes
    {
      if features[i].columnType !in supportedTypes {
        return Failure(UnsupportedFeatureType(features[i].name));
      }
    }
    r := Success(());
  }

  /**
   * What `get_report` hands to the statistic: the label column's name and the names of the
   * selected features, once the label is found, the selection resolved and the types checked.
   */
  function ReportInputs(ds: Dataset, featureSubset: Selection, m: SelectionMethod): Result<(string, seq<string>)>
  {
    var labelColumn :- GetLabelColumn(ds);
    var features :- Datasets.GetColumnsFromSelection(ds, featureSubset);
    var checked :- TypeCheck(features, labelColumn, m);
    Success((labelColumn.name, MapSeq((c: ColumnSpec) => c.name, features)))
  }

  /**
   * A report is computed only on a label column and on selected features whose types the
   * method supports; a missing label is raised before the selection is resolved.
   */
  lemma ReportInputsChecked(ds: Dataset, featureSubset: Selection, m: SelectionMethod)
    ensures var r := ReportInputs(ds, featureSubset, m);
            r.Success?
            <==> GetLabelColumn(ds).Success? && Datasets.GetColumnsFromSelection(ds, featureSubset).Success?
                 && TypeCheck(Datasets.GetColumnsFromSelection(ds, featureSubset).value, GetLabelColumn(ds).value, m).Success?
    ensures GetLabelColumn(ds).Failure? ==> ReportInputs(ds, featureSubset, m) == Failure(GetLabelColumn(ds).error)
    ensures var r := ReportInputs(ds, featureSubset, m);
            r.Success? ==> var labelColumn := GetLabelColumn(ds).value;
                           var features := Datasets.GetColumnsFromSelection(ds, featureSubset).value;
                           r.value.0 == labelColumn.name && labelColumn.role == Label && labelColumn.columnType in SupportedLabelColumnTypes(m)
                           && |r.value.1| == |features|
                           && (forall i :: 0 <= i < |features|
                                 ==> r.value.1[i] == features[i].name && features[i] in ds.schema.columns
                                     && features[i].columnType in SupportedColumnTypes(m))
  {
  }

  // ---------------------------------------------------------------------------
  // select_features

  /** One feature of a report: its name and its statistic. */
  datatype Ranking = Ranking(name: string, stat: real)

  /** `a` is ranked before `b`: a higher statistic, or the same statistic and a smaller name. */
  predicate Outranks(a: Ranking, b: Ranking)
  {
    a.stat > b.stat || (a.stat == b.stat && LexLess(a.name, b.name))
  }

  lemma OutranksStrictTotal(a: Ranking, b: Ranking, c: Ranking)
    ensures !Outranks(a, a)
    ensures Outranks(a, b) && Outranks(b, c) ==> Outranks(a, c)
    ensures a == b || Outranks(a, b) || Outranks(b, a)
    ensures !(Outranks(a, b) && Outranks(b, a))
  {
    LexLessIrreflexive(a.name);
    LexLessTotal(a.name, b.name);
    if Outranks(a, b) && Outranks(b, c) && a.stat == b.stat && b.stat == c.stat {
      LexLessTransitive(a.name, b.name, c.name);
    }
  }

  /** Descending statistic, ascending name. */
  predicate InRankOrder(s: seq<Ranking>)
  {
    forall i, j :: 0 <= i < j < |s| ==> !Outranks(s[j], s[i])
  }

  function InsertRanking(x: Ranking, sorted: seq<Ranking>): (r: seq<Ranking>)
    requires InRankOrder(sorted)
    ensures InRankOrder(r)
    ensures multiset(r) == multiset(sorted) + multiset{x}
    decreases |sorted|
  {
    if |sorted| == 0 then [x]
    else if Outranks(x, sorted[0]) then
      assert forall j :: 0 <= j < |sorted| ==> !Outranks(sorted[j], x) by {
        forall j | 0 <= j < |sorted| ensures !Outranks(sorted[j], x) {
          OutranksStrictTotal(sorted[j], x, sorted[0]);
          OutranksStrictTotal(sorted[j], sorted[0], x);
        }
      }
      [x] + sorted
    else
      var rest := InsertRanking(x, sorted[1..]);
      assert sorted == [sorted[0]] + sorted[1..];
      assert forall j :: 0 <= j < |rest| ==> !Outranks(rest[j], sorted[0]) by {
        forall j | 0 <= j < |rest| ensures !Outranks(rest[j], sorted[0]) {
          assert rest[j] in multiset(rest);
          if rest[j] != x {
            assert rest[j] in multiset(sorted[1..]);
            var k :| 0 <= k < |sorted[1..]| && sorted[1..][k] == rest[j];
            assert sorted[k + 1] == rest[j];
          } else {
            OutranksStrictTotal(x, sorted[0], x);
          }
        }
      }
      [sorted[0]] + rest
  }

  /** The reports's features in rank order. */
  function RankSort(entries: seq<Ranking>): (r: seq<Ranking>)
    ensures InRankOrder(r)
    ensures multiset(r) == multiset(entries)
    decreases |entries|
  {
    if |entries| == 0 then []
    else
      assert entries == DropLast(entries) + [Last(entries)];
      InsertRanking(Last(entries), RankSort(DropLast(entries)))
  }

  /** Two rank orders of the same features start with the same feature: the best one. */
  lemma RankOrderSameHead(a: seq<Ranking>, b: seq<Ranking>)
    requires InRankOrder(a) && InRankOrder(b) && multiset(a) == multiset(b) && |a| > 0
    ensures |b| > 0 && a[0] == b[0]
  {
    assert a[0] in multiset(b);
    var k :| 0 <= k < |b| && b[k] == a[0];
    assert b[0] in multiset(a);
    var m :| 0 <= m < |a| && a[m] == b[0];
    OutranksStrictTotal(a[0], b[0], a[0]);
  }

  /** Lists with the same elements and the same head have tails with the same elements. */
  lemma SameTails<T>(a: seq<T>, b: seq<T>)
    requires |a| > 0 && |b| > 0 && a[0] == b[0] && multiset(a) == multiset(b)
    ensures multiset(a[1..]) == multiset(b[1..])
  {
    assert a == [a[0]] + a[1..] && b == [b[0]] + b[1..];
    assert multiset(a[1..]) == multiset(a) - multiset{a[0]};
    assert multiset(b[1..]) == multiset(b) - multiset{b[0]};
  }

  /**
   * There is only one rank order of a collection of features: any sort by descending
   * statistic and ascending name, stable or not, yields the same list.
   */
  lemma {:induction false} RankOrderUnique(a: seq<Ranking>, b: seq<Ranking>)
    requires InRankOrder(a) && InRankOrder(b) && multiset(a) == multiset(b)
    ensures a == b
    decreases |a|
  {
    if |a| == 0 {
      assert |b| == |multiset(b)| == 0;
    } else {
      RankOrderSameHead(a, b);
      SameTails(a, b);
      RankOrderUnique(a[1..], b[1..]);
      assert a == [a[0]] + a[1..] && b == [b[0]] + b[1..];
    }
  }

  /** A selection report: the feature names and the statistic of each, as two columns of one frame. */
  datatype SelectionReport = SelectionReport(featureNames: seq<string>, statValues: seq<real>, selectionMethod: SelectionMethod)

  function Rankings(report: SelectionReport): (r: seq<Ranking>)
    requires |report.featureNames| == |report.statValues|
    ensures |r| == |report.featureNames|
  {
    seq(|report.featureNames|, i requires 0 <= i < |report.featureNames| => Ranking(report.featureNames[i], report.statValues[i]))
  }

  function Min(a: int, b: int): int
  {
    if a <= b then a else b
  }

  /**
   * `select_features`: the number asked for, then the names of the features in rank
   * order, cut to that number (`head` takes fewer when there are fewer).
   */
  function SelectFeatures(report: SelectionReport, topK: Option<int>, frac: Option<real>): (r: Result<seq<string>>)
    requires |report.featureNames| == |report.statValues|
    ensures r.Success? <==> NumToSelect(topK, frac, |report.featureNames|).Success?
    ensures r.Failure? ==> r.error == NumToSelect(topK, frac, |report.featureNames|).error
    ensures r.Success? ==> |r.value| == Min(NumToSelect(topK, frac, |report.featureNames|).value, |report.featureNames|)
  {
    var n :- NumToSelect(topK, frac, |report.featureNames|);
    var ranked := RankSort(Rankings(report));
    assert |ranked| == |multiset(ranked)| == |Rankings(report)|;
    var chosen := ranked[..Min(n, |ranked|)];
    Success(MapSeq((x: Ranking) => x.name, chosen))
  }

  /**
   * The chosen features are the best ranked: each is a feature of the report, they come in
   * rank order, and no feature left out outranks one that was chosen.
   */
  lemma SelectedAreBest(report: SelectionReport, topK: Option<int>, frac: Option<real>)
    requires |report.featureNames| == |report.statValues|
    requires SelectFeatures(report, topK, frac).Success?
    ensures var ranked := RankSort(Rankings(report));
            var n := |SelectFeatures(report, topK, frac).value|;
            multiset(ranked) == multiset(Rankings(report))
            && (forall i :: 0 <= i < n ==> SelectFeatures(report, topK, frac).value[i] == ranked[i].name)
            && (forall i, j :: 0 <= i < j < n ==> !Outranks(ranked[j], ranked[i]))
            && (forall i, j :: 0 <= i < n <= j < |ranked| ==> !Outranks(ranked[j], ranked[i]))
  {
  }

  /**
   * Stats 0, .5, .5 and 1 for a, b, c and d rank as d, b, c, a: the tie at .5 goes to the
   * smaller name.
   */
  lemma RankSortExample(report: SelectionReport)
    requires report.featureNames == ["a", "b", "c", "d"] && report.statValues == [0.0, 0.5, 0.5, 1.0]
    ensures RankSort(Rankings(report))
            == [Ranking("d", 1.0), Ranking("b", 0.5), Ranking("c", 0.5), Ranking("a", 0.0)]
  {
    var entries := Rankings(report);
    var expected := [Ranking("d", 1.0), Ranking("b", 0.5), Ranking("c", 0.5), Ranking("a", 0.0)];
    assert entries == [expected[3], expected[1], expected[2], expected[0]];
    assert LexLess("b", "c");
    assert InRankOrder(expected);
    assert multiset(expected) == multiset(entries);
    RankOrderUnique(RankSort(entries), expected);
  }

  /** Half of an even number of features is exactly half of them. */
  lemma HalfOfEven(k: nat)
    ensures NumToSelect(None, Some(0.5), 2 * k) == Success(k)
  {
    assert 0.5 * (2 * k) as real == k as real;
  }

  /** Asked for half of four features, the selection is the first two of the ranking. */
  lemma SelectHalfOfFour(report: SelectionReport)
    requires |report.featureNames| == |report.statValues| == 4
    ensures var r := SelectFeatures(report, None, Some(0.5));
            var ranked := RankSort(Rankings(report));
            r == Success([ranked[0].name, ranked[1].name])
  {
    HalfOfEven(2);
    SelectedAreBest(report, None, Some(0.5));
    var chosen := SelectFeatures(report, None, Some(0.5)).value;
    assert chosen == [chosen[0], chosen[1]];
  }

  /** On that report, half of the features is d then b. */
  lemma SelectHalfExample(report: SelectionReport)
    requires report.featureNames == ["a", "b", "c", "d"] && report.statValues == [0.0, 0.5, 0.5, 1.0]
    ensures SelectFeatures(report, None, Some(0.5)) == Success(["d", "b"])
  {
    SelectHalfOfFour(report);
    RankSortExample(report);
  }

  /** Asked for the top one of four features, the selection is the first of the ranking. */
  lemma SelectTopOfFour(report: SelectionReport)
    requires |report.featureNames| == |report.statValues| == 4
    ensures SelectFeatures(report, Some(1), None) == Success([RankSort(Rankings(report))[0].name])
  {
    SelectedAreBest(report, Some(1), None);
    var chosen := SelectFeatures(report, Some(1), None).value;
    assert chosen == [chosen[0]];
  }

  /** On that report, the top feature is d. */
  lemma SelectTopExample(report: SelectionReport)
    requires report.featureNames == ["a", "b", "c", "d"] && report.statValues == [0.0, 0.5, 0.5, 1.0]
    ensures SelectFeatures(report, Some(1), None) == Success(["d"])
  {
    SelectTopOfFour(report);
    RankSortExample(report);
  }
}
