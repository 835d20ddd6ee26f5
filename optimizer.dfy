// The optimizer: prunes the column combinations a transformer class would be built on,
// and drops transformers whose output column is already present.

module Optimizers {
  import opened Sequences
  import opened Strings
  import opened ColumnSpecification
  import opened Transformers

  /** `OptimizationLevel`, an integer enumeration; each level applies every pass below it. */
  datatype OptimizationLevel = NONE | SKIP_SELF | DEDUPLICATE_COMMUTATIVE

  function Ordinal(level: OptimizationLevel): (n: nat)
    ensures n <= 2
    ensures level == NONE <==> n == 0
    ensures level == DEDUPLICATE_COMMUTATIVE <==> n == 2
  {
    match level
    case NONE => 0
    case SKIP_SELF => 1
    case DEDUPLICATE_COMMUTATIVE => 2
  }

  /** One column per input position of a transformer. */
  type Combination = seq<ColumnSpec>

  // ---------------------------------------------------------------------------
  // deduplicate_transformers_against_layers

  function Elements<T>(xs: seq<T>): set<T>
  {
    set x | x in xs
  }

  /**
   * The transformers of a batch whose output column is neither present already nor the
   * output of an earlier transformer of the batch, in batch order.
   */
  function DeduplicatedAgainstLayers(present: seq<ColumnSpec>, additions: seq<Transformer>): (r: seq<Transformer>)
    ensures Distinct(MapSeq(OutputSpec, r))
    ensures forall i :: 0 <= i < |r| ==> OutputSpec(r[i]) !in present
    ensures forall i :: 0 <= i < |additions| ==> OutputSpec(additions[i]) in present || OutputSpec(additions[i]) in MapSeq(OutputSpec, r)
  {
    KeepFirstByComplete(additions, OutputSpec, Elements(present));
    KeepFirstBy(additions, OutputSpec, Elements(present))
  }

  /** The loop of `deduplicate_transformers_against_layers`, one transformer at a time. */
  method DeduplicateTransformersAgainstLayers(present: seq<ColumnSpec>, additions: seq<Transformer>)
    returns (deduplicated: seq<Transformer>)
    ensures deduplicated == DeduplicatedAgainstLayers(present, additions)
  {
    deduplicated := [];
    var alreadyPresent := Elements(present);
    for i := 0 to |additions|
      invariant deduplicated == KeepFirstBy(additions[..i], OutputSpec, Elements(present))
      invariant forall c :: c in alreadyPresent <==> c in present || c in MapSeq(OutputSpec, deduplicated)
    {
      var transformer := additions[i];
      var spec := OutputSpec(transformer);
      assert DropLast(additions[..i + 1]) == additions[..i];
      if spec !in alreadyPresent {
        MapSeqAppend(OutputSpec, deduplicated, transformer);
        deduplicated := deduplicated + [transformer];
        alreadyPresent := alreadyPresent + {spec};
      }
    }
    assert additions[..|additions|] == additions;
  }

  /** The kept transformers are a subsequence of the batch. */
  lemma DeduplicatedAgainstLayersSubsequence(present: seq<ColumnSpec>, additions: seq<Transformer>)
    ensures IsSubsequence(DeduplicatedAgainstLayers(present, additions), additions)
  {
    KeepFirstBySubsequence(additions, OutputSpec, Elements(present));
  }

  /** Nothing of a batch already present survives, so a batch repeated on a later layer adds nothing. */
  lemma PresentBatchAddsNothing(present: seq<ColumnSpec>, additions: seq<Transformer>)
    requires forall i :: 0 <= i < |additions| ==> OutputSpec(additions[i]) in present
    ensures DeduplicatedAgainstLayers(present, additions) == []
  {
    KeepFirstByAllSeen(additions, OutputSpec, Elements(present));
  }

  /** Adding the outputs kept from a batch to the present columns makes the same batch redundant. */
  lemma RepeatedBatchAddsNothing(present: seq<ColumnSpec>, additions: seq<Transformer>)
    ensures DeduplicatedAgainstLayers(present + MapSeq(OutputSpec, DeduplicatedAgainstLayers(present, additions)), additions) == []
  {
    PresentBatchAddsNothing(present + MapSeq(OutputSpec, DeduplicatedAgainstLayers(present, additions)), additions);
  }

  // ---------------------------------------------------------------------------
  // _skip_self

  /** Python's `len(set(c)) == len(c)`: no column occurs twice in the combination. */
  predicate NoRepeats(c: Combination)
  {
    |Elements(c)| == |c|
  }

  lemma {:induction false} ElementsAppend<T>(xs: seq<T>, x: T)
    ensures Elements(xs + [x]) == Elements(xs) + {x}
  {
  }

  /** The set of a sequence's elements is as large as the sequence exactly when nothing repeats. */
  lemma {:induction false} NoRepeatsIffDistinct<T>(xs: seq<T>)
    ensures |Elements(xs)| <= |xs|
    ensures |Elements(xs)| == |xs| <==> Distinct(xs)
    decreases |xs|
  {
    if |xs| > 0 {
      var d := DropLast(xs);
      NoRepeatsIffDistinct(d);
      assert xs == d + [Last(xs)];
      ElementsAppend(d, Last(xs));
      if Last(xs) in d {
        assert Elements(xs) == Elements(d);
        var k :| 0 <= k < |d| && d[k] == Last(xs);
        assert xs[k] == xs[|xs| - 1];
      } else {
        assert |Elements(xs)| == |Elements(d)| + 1;
        if Distinct(d) {
          forall i, j | 0 <= i < j < |xs| ensures xs[i] != xs[j] {
            if j < |xs| - 1 {
              assert xs[i] == d[i] && xs[j] == d[j];
            } else {
              assert xs[i] == d[i];
            }
          }
        } else {
          var i, j :| 0 <= i < j < |d| && d[i] == d[j];
          assert xs[i] == xs[j];
        }
      }
    }
  }

  /** The combinations whose columns are pairwise distinct, in order. */
  function SkippedSelf(combinations: seq<Combination>): (r: seq<Combination>)
    ensures |r| <= |combinations|
    ensures forall i :: 0 <= i < |r| ==> Distinct(r[i])
  {
    forall c: Combination { NoRepeatsIffDistinct(c); }
    Filter(combinations, NoRepeats)
  }

  /** The combinations kept are exactly those whose columns are pairwise distinct. */
  lemma SkippedSelfMembers(combinations: seq<Combination>)
    ensures forall c :: c in SkippedSelf(combinations) <==> c in combinations && Distinct(c)
  {
    forall c: Combination { NoRepeatsIffDistinct(c); }
    FilterMembers(combinations, NoRepeats);
  }

  lemma SkippedSelfSubsequence(combinations: seq<Combination>)
    ensures IsSubsequence(SkippedSelf(combinations), combinations)
  {
    FilterSubsequence(combinations, NoRepeats);
  }

  /** `_skip_self`: yields every combination with no repeated column. */
  method SkipSelf(combinations: seq<Combination>) returns (kept: seq<Combination>)
    ensures kept == SkippedSelf(combinations)
  {
    kept := [];
    for i := 0 to |combinations|
      invariant kept == Filter(combinations[..i], NoRepeats)
    {
      var combination := combinations[i];
      assert DropLast(combinations[..i + 1]) == combinations[..i];
      if |Elements(combination)| == |combination| {
        kept := kept + [combination];
      }
    }
    assert combinations[..|combinations|] == combinations;
  }

  // ---------------------------------------------------------------------------
  // _deduplicate_input_columns_for_transformer

  /** Columns ordered by name, Python's `sorted(..., key=name)`. */
  predicate SortedByName(c: Combination)
  {
    forall i, j :: 0 <= i < j < |c| ==> !LexLess(c[j].name, c[i].name)
  }

  /** Insert a column after every column whose name is not greater, so equal names keep their order. */
  function InsertByName(x: ColumnSpec, sorted: Combination): (r: Combination)
    requires SortedByName(sorted)
    ensures SortedByName(r)
    ensures multiset(r) == multiset(sorted) + multiset{x}
    decreases |sorted|
  {
    if |sorted| == 0 then [x]
    else if LexLess(x.name, sorted[0].name) then
      BelowSortedHead(x, sorted);
      ConsSorted(x, sorted);
      [x] + sorted
    else
      var rest := InsertByName(x, sorted[1..]);
      assert sorted == [sorted[0]] + sorted[1..];
      HeadBelowInserted(x, sorted, rest);
      ConsSorted(sorted[0], rest);
      [sorted[0]] + rest
  }

  /** A column no name in a sorted combination is less than may go in front of it. */
  lemma ConsSorted(x: ColumnSpec, sorted: Combination)
    requires SortedByName(sorted)
    requires forall j :: 0 <= j < |sorted| ==> !LexLess(sorted[j].name, x.name)
    ensures SortedByName([x] + sorted)
  {
    var r := [x] + sorted;
    forall i, j | 0 <= i < j < |r| ensures !LexLess(r[j].name, r[i].name) {
      assert r[j] == sorted[j - 1];
      if i > 0 {
        assert r[i] == sorted[i - 1];
      }
    }
  }

  /** A name less than the head of a sorted combination is not greater than any of its names. */
  lemma BelowSortedHead(x: ColumnSpec, sorted: Combination)
    requires SortedByName(sorted) && |sorted| > 0 && LexLess(x.name, sorted[0].name)
    ensures forall j :: 0 <= j < |sorted| ==> !LexLess(sorted[j].name, x.name)
  {
    forall j | 0 <= j < |sorted| ensures !LexLess(sorted[j].name, x.name) {
      LexLessTotal(sorted[j].name, sorted[0].name);
      LexLessTotal(x.name, sorted[0].name);
      if LexLess(sorted[j].name, x.name) {
        LexLessTransitive(sorted[j].name, x.name, sorted[0].name);
      }
    }
  }

  /** After inserting a name not less than the head into the tail, the head still comes first. */
  lemma HeadBelowInserted(x: ColumnSpec, sorted: Combination, rest: Combination)
    requires SortedByName(sorted) && |sorted| > 0 && !LexLess(x.name, sorted[0].name)
    requires multiset(rest) == multiset(sorted[1..]) + multiset{x}
    ensures forall j :: 0 <= j < |rest| ==> !LexLess(rest[j].name, sorted[0].name)
  {
    forall j | 0 <= j < |rest| ensures !LexLess(rest[j].name, sorted[0].name) {
      assert rest[j] in multiset(rest);
      if rest[j] != x {
        assert rest[j] in multiset(sorted[1..]);
        var k :| 0 <= k < |sorted[1..]| && sorted[1..][k] == rest[j];
        assert sorted[k + 1] == rest[j];
      } else {
        LexLessTotal(x.name, sorted[0].name);
      }
    }
  }

  /** The stable sort of a combination by column name: the canonical form of a commutative input. */
  function SortByName(c: Combination): (r: Combination)
    ensures SortedByName(r)
    ensures multiset(r) == multiset(c)
    decreases |c|
  {
    if |c| == 0 then []
    else
      assert c == DropLast(c) + [Last(c)];
      InsertByName(Last(c), SortByName(DropLast(c)))
  }

  /** The columns called `n`, as a filter. */
  function HasName(n: string): ColumnSpec -> bool
  {
    (x: ColumnSpec) => x.name == n
  }

  /**
   * `sorted` is stable: the columns that share a name keep their relative order, so sorting
   * only moves columns with different names past each other.
   */
  lemma {:induction false} SortByNameStable(c: Combination, n: string)
    ensures Filter(SortByName(c), HasName(n)) == Filter(c, HasName(n))
    decreases |c|
  {
    if |c| > 0 {
      SortByNameStable(DropLast(c), n);
      InsertByNameStable(Last(c), SortByName(DropLast(c)), n);
    }
  }

  /** Inserting a column puts it after every column of the same name. */
  lemma {:induction false} InsertByNameStable(x: ColumnSpec, sorted: Combination, n: string)
    requires SortedByName(sorted)
    ensures Filter(InsertByName(x, sorted), HasName(n))
         == Filter(sorted, HasName(n)) + (if x.name == n then [x] else [])
    decreases |sorted|
  {
    if |sorted| == 0 {
      assert InsertByName(x, sorted) == [] + [x];
      FilterAppend([], x, HasName(n));
    } else if LexLess(x.name, sorted[0].name) {
      NoneNamedBelowHead(x, sorted);
      InsertInFrontStable(x, sorted, n);
    } else {
      assert SortedByName(sorted[1..]);
      InsertByNameStable(x, sorted[1..], n);
      InsertBehindStable(x, sorted, InsertByName(x, sorted[1..]), n);
    }
  }

  lemma InsertInFrontStable(x: ColumnSpec, sorted: Combination, n: string)
    requires forall j :: 0 <= j < |sorted| ==> sorted[j].name != x.name
    ensures Filter([x] + sorted, HasName(n)) == Filter(sorted, HasName(n)) + (if x.name == n then [x] else [])
  {
    FilterCons(x, sorted, HasName(n));
    if x.name == n {
      FilterKeepsNone(sorted, HasName(n));
      assert Filter(sorted, HasName(n)) == [];
    }
  }

  lemma InsertBehindStable(x: ColumnSpec, sorted: Combination, rest: Combination, n: string)
    requires |sorted| > 0
    requires Filter(rest, HasName(n)) == Filter(sorted[1..], HasName(n)) + (if x.name == n then [x] else [])
    ensures Filter([sorted[0]] + rest, HasName(n)) == Filter(sorted, HasName(n)) + (if x.name == n then [x] else [])
  {
    FilterConsKeepsSuffix(sorted[0], sorted[1..], rest, HasName(n), if x.name == n then [x] else []);
    assert sorted == [sorted[0]] + sorted[1..];
  }

  /** No column of a sorted combination shares the name of a column that sorts before its head. */
  lemma NoneNamedBelowHead(x: ColumnSpec, sorted: Combination)
    requires SortedByName(sorted) && |sorted| > 0 && LexLess(x.name, sorted[0].name)
    ensures forall j :: 0 <= j < |sorted| ==> sorted[j].name != x.name
  {
    LexLessIrreflexive(x.name);
  }

  /** Two columns with different names have one canonical order, whichever way round they come. */
  lemma PairCanonicalForm(x: ColumnSpec, y: ColumnSpec)
    requires x.name != y.name
    ensures SortByName([x, y]) == SortByName([y, x])
    ensures SortByName([x, y]) == if LexLess(x.name, y.name) then [x, y] else [y, x]
  {
    LexLessTotal(x.name, y.name);
    SortTwo(x, y);
    SortTwo(y, x);
  }

  /** Sorting two columns inserts the second into the first alone. */
  lemma SortTwo(x: ColumnSpec, y: ColumnSpec)
    ensures SortByName([x, y]) == if LexLess(y.name, x.name) then [y, x] else [x, y]
  {
    assert DropLast([x, y]) == [x] && Last([x, y]) == y;
    assert DropLast([x]) == [] && SortByName([x]) == InsertByName(x, []);
    InsertAfterOne(y, x);
  }

  lemma InsertAfterOne(y: ColumnSpec, x: ColumnSpec)
    ensures InsertByName(y, [x]) == if LexLess(y.name, x.name) then [y, x] else [x, y]
  {
    assert [x][1..] == [];
  }

  /**
   * For a commutative class, the first combination of each canonical form, in order;
   * any other class gets the combinations unchanged.
   */
  function DeduplicatedCommutative(f: Factory, combinations: seq<Combination>): (r: seq<Combination>)
    ensures !IsCommutative(f) ==> r == combinations
    ensures IsCommutative(f) ==> Distinct(MapSeq(SortByName, r))
    ensures forall i :: 0 <= i < |combinations| ==> SortByName(combinations[i]) in MapSeq(SortByName, r)
  {
    if !IsCommutative(f) then combinations
    else
      KeepFirstByComplete(combinations, SortByName, {});
      KeepFirstBy(combinations, SortByName, {})
  }

  lemma DeduplicatedCommutativeSubsequence(f: Factory, combinations: seq<Combination>)
    ensures IsSubsequence(DeduplicatedCommutative(f, combinations), combinations)
  {
    if IsCommutative(f) {
      KeepFirstBySubsequence(combinations, SortByName, {});
    } else {
      SubsequenceReflexive(combinations);
    }
  }

  /** `_deduplicate_input_columns_for_transformer`: one pass with a set of canonical forms seen. */
  method DeduplicateInputColumnsForTransformer(f: Factory, combinations: seq<Combination>)
    returns (kept: seq<Combination>)
    ensures kept == DeduplicatedCommutative(f, combinations)
  {
    if !IsCommutative(f) {
      return combinations;
    }
    kept := [];
    var seenCombinations: set<Combination> := {};
    for i := 0 to |combinations|
      invariant kept == KeepFirstBy(combinations[..i], SortByName, {})
      invariant forall c :: c in seenCombinations <==> c in MapSeq(SortByName, kept)
    {
      var combination := combinations[i];
      var sortedCombination := SortByName(combination);
      assert DropLast(combinations[..i + 1]) == combinations[..i];
      if sortedCombination !in seenCombinations {
        MapSeqAppend(SortByName, kept, combination);
        seenCombinations := seenCombinations + {sortedCombination};
        kept := kept + [combination];
      }
    }
    assert combinations[..|combinations|] == combinations;
  }

  // ---------------------------------------------------------------------------
  // optimize_input_columns

  /** The combinations left after every pass the level enables. */
  function Optimized(level: OptimizationLevel, f: Factory, combinations: seq<Combination>): seq<Combination>
  {
    var skipped := if Ordinal(level) >= 1 then SkippedSelf(combinations) else combinations;
    if Ordinal(level) >= 2 then DeduplicatedCommutative(f, skipped) else skipped
  }

  /** `optimize_input_columns`: rebinds the combinations pass by pass. */
  method OptimizeInputColumns(level: OptimizationLevel, f: Factory, combinations: seq<Combination>)
    returns (optimized: seq<Combination>)
    ensures optimized == Optimized(level, f, combinations)
  {
    optimized := combinations;
    if Ordinal(level) >= 1 {
      optimized := SkipSelf(combinations);
    }
    if Ordinal(level) >= 2 {
      optimized := DeduplicateInputColumnsForTransformer(f, optimized);
    }
  }

  /** Every level keeps a subsequence of the input, and NONE keeps all of it. */
  lemma OptimizedIsSubsequence(level: OptimizationLevel, f: Factory, combinations: seq<Combination>)
    ensures IsSubsequence(Optimized(level, f, combinations), combinations)
    ensures level == NONE ==> Optimized(level, f, combinations) == combinations
  {
    var skipped := SkippedSelf(combinations);
    SkippedSelfSubsequence(combinations);
    if Ordinal(level) >= 2 {
      DeduplicatedCommutativeSubsequence(f, skipped);
      SubsequenceTransitive(DeduplicatedCommutative(f, skipped), skipped, combinations);
    } else if level == NONE {
      SubsequenceReflexive(combinations);
    }
  }

  /** From SKIP_SELF on, no kept combination uses a column twice. */
  lemma OptimizedSkipsSelf(level: OptimizationLevel, f: Factory, combinations: seq<Combination>)
    requires Ordinal(level) >= 1
    ensures forall i :: 0 <= i < |Optimized(level, f, combinations)| ==> Distinct(Optimized(level, f, combinations)[i])
  {
    if Ordinal(level) >= 2 {
      var skipped := SkippedSelf(combinations);
      DeduplicatedCommutativeSubsequence(f, skipped);
      SubsequenceKeeps(DeduplicatedCommutative(f, skipped), skipped, Distinct);
    }
  }

  /** A class that is not commutative gets the same combinations at the top level as at SKIP_SELF. */
  lemma NonCommutativeUnaffected(f: Factory, combinations: seq<Combination>)
    requires !IsCommutative(f)
    ensures Optimized(DEDUPLICATE_COMMUTATIVE, f, combinations) == Optimized(SKIP_SELF, f, combinations)
  {
  }

  // ---------------------------------------------------------------------------
  // The optimizer's test: every pair over two columns a, b

  lemma PairNoRepeats(x: ColumnSpec, y: ColumnSpec)
    ensures NoRepeats([x, y]) <==> x != y
  {
    NoRepeatsIffDistinct([x, y]);
    var c := [x, y];
    assert c[0] == x && c[1] == y;
  }

  lemma SkipSelfExample(a: ColumnSpec, b: ColumnSpec)
    requires a != b
    ensures SkippedSelf([[a, a], [a, b], [b, a], [b, b]]) == [[a, b], [b, a]]
  {
    var aa, ab, ba, bb := [a, a], [a, b], [b, a], [b, b];
    PairNoRepeats(a, a);
    PairNoRepeats(a, b);
    PairNoRepeats(b, a);
    PairNoRepeats(b, b);
    assert !NoRepeats(aa) && NoRepeats(ab) && NoRepeats(ba) && !NoRepeats(bb);
    FilterAppend([], aa, NoRepeats);
    assert [] + [aa] == [aa];
    assert Filter([aa], NoRepeats) == [];
    FilterAppend([aa], ab, NoRepeats);
    assert [aa] + [ab] == [aa, ab];
    assert Filter([aa, ab], NoRepeats) == [ab];
    FilterAppend([aa, ab], ba, NoRepeats);
    assert [aa, ab] + [ba] == [aa, ab, ba];
    assert Filter([aa, ab, ba], NoRepeats) == [ab, ba];
    FilterAppend([aa, ab, ba], bb, NoRepeats);
    assert [aa, ab, ba] + [bb] == [aa, ab, ba, bb];
    assert Filter([aa, ab, ba, bb], NoRepeats) == [ab, ba];
  }

  lemma CommutativeExample(f: Factory, a: ColumnSpec, b: ColumnSpec)
    requires IsCommutative(f) && a.name != b.name
    ensures DeduplicatedCommutative(f, [[a, b], [b, a]]) == [[a, b]]
  {
    PairCanonicalForm(a, b);
    KeepFirstOfSameKey([a, b], [b, a], SortByName);
  }

  /**
   * On the pairs over two columns of different names, SKIP_SELF drops the two self-pairs and
   * DEDUPLICATE_COMMUTATIVE also the swapped pair, for a commutative class only.
   */
  lemma OptimizerExample(f: Factory, a: ColumnSpec, b: ColumnSpec)
    requires a.name != b.name
    ensures Optimized(NONE, f, [[a, a], [a, b], [b, a], [b, b]]) == [[a, a], [a, b], [b, a], [b, b]]
    ensures Optimized(SKIP_SELF, f, [[a, a], [a, b], [b, a], [b, b]]) == [[a, b], [b, a]]
    ensures IsCommutative(f) ==> Optimized(DEDUPLICATE_COMMUTATIVE, f, [[a, a], [a, b], [b, a], [b, b]]) == [[a, b]]
    ensures !IsCommutative(f) ==> Optimized(DEDUPLICATE_COMMUTATIVE, f, [[a, a], [a, b], [b, a], [b, b]]) == [[a, b], [b, a]]
  {
    SkipSelfExample(a, b);
    LevelsAfterSkip(f, [[a, a], [a, b], [b, a], [b, b]], a, b);
  }

  /** Once SKIP_SELF leaves the two swapped pairs, the higher levels act on those alone. */
  lemma LevelsAfterSkip(f: Factory, combinations: seq<Combination>, a: ColumnSpec, b: ColumnSpec)
    requires a.name != b.name && SkippedSelf(combinations) == [[a, b], [b, a]]
    ensures Optimized(SKIP_SELF, f, combinations) == [[a, b], [b, a]]
    ensures IsCommutative(f) ==> Optimized(DEDUPLICATE_COMMUTATIVE, f, combinations) == [[a, b]]
    ensures !IsCommutative(f) ==> Optimized(DEDUPLICATE_COMMUTATIVE, f, combinations) == [[a, b], [b, a]]
  {
    if IsCommutative(f) {
      CommutativeExample(f, a, b);
    }
  }
}
