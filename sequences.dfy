// Generic sequence vocabulary shared by the model: order-preserving filtering,
// first-occurrence deduplication under a key, flattening and cartesian products.

module Sequences {

  function Last<T>(xs: seq<T>): T
    requires |xs| > 0
  {
    xs[|xs| - 1]
  }

  function DropLast<T>(xs: seq<T>): seq<T>
    requires |xs| > 0
  {
    xs[..|xs| - 1]
  }

  function Identity<T>(x: T): T
  {
    x
  }

  lemma MapIdentity<T>(xs: seq<T>)
    ensures MapSeq(Identity, xs) == xs
  {
  }

  predicate Distinct<T(==)>(xs: seq<T>)
  {
    forall i, j :: 0 <= i < j < |xs| ==> xs[i] != xs[j]
  }

  function MapSeq<T, U>(f: T -> U, xs: seq<T>): (r: seq<U>)
    ensures |r| == |xs|
    ensures forall i :: 0 <= i < |xs| ==> r[i] == f(xs[i])
  {
    seq(|xs|, i requires 0 <= i < |xs| => f(xs[i]))
  }

  lemma MapSeqAppend<T, U>(f: T -> U, xs: seq<T>, x: T)
    ensures MapSeq(f, xs + [x]) == MapSeq(f, xs) + [f(x)]
  {
  }

  // ---------------------------------------------------------------------------
  // Subsequences: `xs` can be obtained from `ys` by deleting elements.

  predicate IsSubsequence<T(==)>(xs: seq<T>, ys: seq<T>)
    decreases |ys|
  {
    if |xs| == 0 then true
    else if |ys| == 0 then false
    else if Last(xs) == Last(ys) then IsSubsequence(DropLast(xs), DropLast(ys))
    else IsSubsequence(xs, DropLast(ys))
  }

  lemma {:induction false} SubsequenceExtend<T>(xs: seq<T>, ys: seq<T>, y: T)
    requires IsSubsequence(xs, ys)
    ensures IsSubsequence(xs, ys + [y])
    decreases |ys|, 1
  {
    assert DropLast(ys + [y]) == ys;
    if |xs| > 0 && Last(xs) == y {
      SubsequenceDropLast(xs, ys);
    }
  }

  lemma {:induction false} SubsequenceDropLast<T>(xs: seq<T>, ys: seq<T>)
    requires |xs| > 0 && IsSubsequence(xs, ys)
    ensures IsSubsequence(DropLast(xs), ys)
    decreases |ys|, 0
  {
    assert |ys| > 0;
    assert ys == DropLast(ys) + [Last(ys)];
    if Last(xs) == Last(ys) {
      SubsequenceExtend(DropLast(xs), DropLast(ys), Last(ys));
    } else {
      SubsequenceDropLast(xs, DropLast(ys));
      SubsequenceExtend(DropLast(xs), DropLast(ys), Last(ys));
    }
  }

  lemma {:induction false} SubsequenceReflexive<T>(xs: seq<T>)
    ensures IsSubsequence(xs, xs)
    decreases |xs|
  {
    if |xs| > 0 {
      SubsequenceReflexive(DropLast(xs));
    }
  }

  lemma {:induction false} SubsequenceTransitive<T>(xs: seq<T>, ys: seq<T>, zs: seq<T>)
    requires IsSubsequence(xs, ys) && IsSubsequence(ys, zs)
    ensures IsSubsequence(xs, zs)
    decreases |zs|
  {
    if |xs| > 0 {
      assert |ys| > 0 && |zs| > 0;
      assert zs == DropLast(zs) + [Last(zs)];
      if Last(ys) == Last(zs) {
        if Last(xs) == Last(ys) {
          SubsequenceTransitive(DropLast(xs), DropLast(ys), DropLast(zs));
        } else {
          SubsequenceTransitive(xs, DropLast(ys), DropLast(zs));
        }
      } else {
        SubsequenceTransitive(xs, ys, DropLast(zs));
        SubsequenceExtend(xs, DropLast(zs), Last(zs));
      }
    }
  }

  lemma {:induction false} SubsequenceMembers<T>(xs: seq<T>, ys: seq<T>)
    requires IsSubsequence(xs, ys)
    ensures |xs| <= |ys|
    ensures forall x :: x in xs ==> x in ys
    decreases |ys|
  {
    if |xs| > 0 {
      assert xs == DropLast(xs) + [Last(xs)];
      assert ys == DropLast(ys) + [Last(ys)];
      if Last(xs) == Last(ys) {
        SubsequenceMembers(DropLast(xs), DropLast(ys));
      } else {
        SubsequenceMembers(xs, DropLast(ys));
      }
    }
  }

  // ---------------------------------------------------------------------------
  // Order-preserving filtering, as a list comprehension with an `if` would do it.

  function Filter<T(==)>(xs: seq<T>, p: T -> bool): (r: seq<T>)
    ensures |r| <= |xs|
    ensures forall i :: 0 <= i < |r| ==> p(r[i])
    decreases |xs|
  {
    if |xs| == 0 then []
    else
      assert xs == DropLast(xs) + [Last(xs)];
      Filter(DropLast(xs), p) + (if p(Last(xs)) then [Last(xs)] else [])
  }

  /** Filtering one more element extends the result by that element exactly when it passes. */
  lemma FilterAppend<T>(xs: seq<T>, x: T, p: T -> bool)
    ensures Filter(xs + [x], p) == Filter(xs, p) + (if p(x) then [x] else [])
  {
    assert DropLast(xs + [x]) == xs;
  }

  /** Filtering a list with one more element in front puts that element in front when it passes. */
  lemma {:induction false} FilterCons<T>(x: T, xs: seq<T>, p: T -> bool)
    ensures Filter([x] + xs, p) == (if p(x) then [x] else []) + Filter(xs, p)
    decreases |xs|
  {
    if |xs| > 0 {
      FilterCons(x, DropLast(xs), p);
      assert DropLast([x] + xs) == [x] + DropLast(xs);
      assert Last([x] + xs) == Last(xs);
    }
  }

  /** An element put in front of two lists whose filterings differ by a suffix keeps that difference. */
  lemma FilterConsKeepsSuffix<T>(x: T, xs: seq<T>, ys: seq<T>, p: T -> bool, suffix: seq<T>)
    requires Filter(ys, p) == Filter(xs, p) + suffix
    ensures Filter([x] + ys, p) == Filter([x] + xs, p) + suffix
  {
    FilterCons(x, ys, p);
    FilterCons(x, xs, p);
    AppendAssociative(if p(x) then [x] else [], Filter(xs, p), suffix);
  }

  lemma AppendAssociative<T>(a: seq<T>, b: seq<T>, c: seq<T>)
    ensures a + (b + c) == (a + b) + c
  {
  }

  lemma {:induction false} FilterSubsequence<T>(xs: seq<T>, p: T -> bool)
    ensures IsSubsequence(Filter(xs, p), xs)
    decreases |xs|
  {
    if |xs| > 0 {
      var rest := Filter(DropLast(xs), p);
      FilterSubsequence(DropLast(xs), p);
      if p(Last(xs)) {
        assert DropLast(rest + [Last(xs)]) == rest;
      } else {
        assert Filter(xs, p) == rest;
        assert xs == DropLast(xs) + [Last(xs)];
        SubsequenceExtend(rest, DropLast(xs), Last(xs));
      }
    }
  }

  /** An element survives filtering exactly when it is in the list and passes. */
  lemma {:induction false} FilterMembers<T>(xs: seq<T>, p: T -> bool)
    ensures forall x :: x in Filter(xs, p) <==> x in xs && p(x)
    decreases |xs|
  {
    if |xs| > 0 {
      FilterMembers(DropLast(xs), p);
      assert xs == DropLast(xs) + [Last(xs)];
    }
  }

  /** Filtering keeps nothing exactly when no element passes. */
  lemma {:induction false} FilterKeepsNone<T>(xs: seq<T>, p: T -> bool)
    ensures |Filter(xs, p)| == 0 <==> forall i :: 0 <= i < |xs| ==> !p(xs[i])
    decreases |xs|
  {
    if |xs| > 0 {
      FilterKeepsNone(DropLast(xs), p);
      assert xs == DropLast(xs) + [Last(xs)];
      assert forall i :: 0 <= i < |DropLast(xs)| ==> DropLast(xs)[i] == xs[i];
    }
  }

  /** Filtering keeps every element exactly when every element passes. */
  lemma {:induction false} FilterKeepsAll<T>(xs: seq<T>, p: T -> bool)
    ensures |Filter(xs, p)| == |xs| <==> forall i :: 0 <= i < |xs| ==> p(xs[i])
    ensures (forall i :: 0 <= i < |xs| ==> p(xs[i])) ==> Filter(xs, p) == xs
    decreases |xs|
  {
    if |xs| > 0 {
      FilterKeepsAll(DropLast(xs), p);
      assert xs == DropLast(xs) + [Last(xs)];
      if forall i :: 0 <= i < |xs| ==> p(xs[i]) {
        assert forall i :: 0 <= i < |DropLast(xs)| ==> p(DropLast(xs)[i]);
      }
    }
  }

  // ---------------------------------------------------------------------------
  // First-occurrence deduplication: walk `xs` in order, drop every element whose
  // key is already in `seen` or belongs to an element kept before, keep the rest.

  function KeepFirstBy<T, K(==)>(xs: seq<T>, key: T -> K, seen: set<K>): (r: seq<T>)
    ensures Distinct(MapSeq(key, r))
    ensures forall i :: 0 <= i < |r| ==> key(r[i]) !in seen
    decreases |xs|
  {
    if |xs| == 0 then []
    else
      var kept := KeepFirstBy(DropLast(xs), key, seen);
      var k := key(Last(xs));
      if k in seen || k in MapSeq(key, kept) then kept
      else
        MapSeqAppend(key, kept, Last(xs));
        kept + [Last(xs)]
  }

  /** Every kept element comes from the input, in input order. */
  lemma {:induction false} KeepFirstBySubsequence<T, K>(xs: seq<T>, key: T -> K, seen: set<K>)
    ensures IsSubsequence(KeepFirstBy(xs, key, seen), xs)
    decreases |xs|
  {
    if |xs| > 0 {
      var kept := KeepFirstBy(DropLast(xs), key, seen);
      KeepFirstBySubsequence(DropLast(xs), key, seen);
      assert xs == DropLast(xs) + [Last(xs)];
      if KeepFirstBy(xs, key, seen) == kept {
        SubsequenceExtend(kept, DropLast(xs), Last(xs));
      } else {
        assert DropLast(kept + [Last(xs)]) == kept;
      }
    }
  }

  /** Nothing is lost: every input's key was seen already or is the key of a kept element. */
  lemma {:induction false} KeepFirstByComplete<T, K>(xs: seq<T>, key: T -> K, seen: set<K>)
    ensures forall i :: 0 <= i < |xs| ==> key(xs[i]) in seen || key(xs[i]) in MapSeq(key, KeepFirstBy(xs, key, seen))
    decreases |xs|
  {
    if |xs| > 0 {
      var kept := KeepFirstBy(DropLast(xs), key, seen);
      KeepFirstByComplete(DropLast(xs), key, seen);
      var r := KeepFirstBy(xs, key, seen);
      assert xs == DropLast(xs) + [Last(xs)];
      if r != kept {
        MapSeqAppend(key, kept, Last(xs));
      }
      forall i | 0 <= i < |xs|
        ensures key(xs[i]) in seen || key(xs[i]) in MapSeq(key, r)
      {
        if i < |xs| - 1 {
          assert xs[i] == DropLast(xs)[i];
        }
      }
    }
  }

  /** An input whose keys are already distinct and unseen is returned unchanged. */
  lemma {:induction false} KeepFirstByIdentity<T, K>(xs: seq<T>, key: T -> K, seen: set<K>)
    requires Distinct(MapSeq(key, xs))
    requires forall i :: 0 <= i < |xs| ==> key(xs[i]) !in seen
    ensures KeepFirstBy(xs, key, seen) == xs
    decreases |xs|
  {
    if |xs| > 0 {
      var d := DropLast(xs);
      assert MapSeq(key, d) == MapSeq(key, xs)[..|xs| - 1];
      KeepFirstByIdentity(d, key, seen);
      assert xs == d + [Last(xs)];
    }
  }

  /** One more element is kept exactly when its key is new. */
  lemma KeepFirstByAppend<T, K>(xs: seq<T>, x: T, key: T -> K, seen: set<K>)
    ensures var kept := KeepFirstBy(xs, key, seen);
            KeepFirstBy(xs + [x], key, seen)
            == if key(x) in seen || key(x) in MapSeq(key, kept) then kept else kept + [x]
  {
    assert DropLast(xs + [x]) == xs;
  }

  /** A property of every element carries over to a subsequence. */
  lemma SubsequenceKeeps<T>(xs: seq<T>, ys: seq<T>, p: T -> bool)
    requires IsSubsequence(xs, ys)
    requires forall j :: 0 <= j < |ys| ==> p(ys[j])
    ensures forall i :: 0 <= i < |xs| ==> p(xs[i])
  {
    SubsequenceMembers(xs, ys);
    forall i | 0 <= i < |xs| ensures p(xs[i]) {
      assert xs[i] in ys;
    }
  }

  /** Of two elements with the same key, only the first is kept. */
  lemma KeepFirstOfSameKey<T, K>(x: T, y: T, key: T -> K)
    requires key(x) == key(y)
    ensures KeepFirstBy([x, y], key, {}) == [x]
  {
    KeepFirstByAppend([], x, key, {});
    assert [] + [x] == [x];
    assert MapSeq(key, [x]) == [key(x)];
    KeepFirstByAppend([x], y, key, {});
    assert [x] + [y] == [x, y];
  }

  /** When every key was seen already, nothing is kept. */
  lemma {:induction false} KeepFirstByAllSeen<T, K>(xs: seq<T>, key: T -> K, seen: set<K>)
    requires forall i :: 0 <= i < |xs| ==> key(xs[i]) in seen
    ensures KeepFirstBy(xs, key, seen) == []
    decreases |xs|
  {
    if |xs| > 0 {
      assert forall i :: 0 <= i < |xs| - 1 ==> DropLast(xs)[i] == xs[i];
      KeepFirstByAllSeen(DropLast(xs), key, seen);
    }
  }

  /** Deduplicating a prefix gives a prefix of the deduplicated whole. */
  lemma {:induction false} KeepFirstByPrefix<T, K>(xs: seq<T>, n: nat, key: T -> K, seen: set<K>)
    requires n <= |xs|
    ensures KeepFirstBy(xs[..n], key, seen) <= KeepFirstBy(xs, key, seen)
    decreases |xs|
  {
    if n < |xs| {
      assert xs[..n] == DropLast(xs)[..n];
      KeepFirstByPrefix(DropLast(xs), n, key, seen);
    } else {
      assert xs[..n] == xs;
    }
  }

  // ---------------------------------------------------------------------------
  // Flattening and cartesian products.

  function Flatten<T(==, !new)>(xss: seq<seq<T>>): (r: seq<T>)
    ensures forall x :: x in r <==> exists i :: 0 <= i < |xss| && x in xss[i]
    decreases |xss|
  {
    if |xss| == 0 then []
    else
      var rest := Flatten(xss[1..]);
      assert forall x :: x in rest <==> exists i :: 1 <= i < |xss| && x in xss[i] by {
        forall x ensures x in rest <==> exists i :: 1 <= i < |xss| && x in xss[i] {
          if x in rest {
            var i :| 0 <= i < |xss| - 1 && x in xss[1..][i];
            assert x in xss[i + 1];
          }
          if exists i :: 1 <= i < |xss| && x in xss[i] {
            var i :| 1 <= i < |xss| && x in xss[i];
            assert x in xss[1..][i - 1];
          }
        }
      }
      xss[0] + rest
  }

  function ProductOfLengths<T>(lists: seq<seq<T>>): nat
  {
    if |lists| == 0 then 1 else |lists[0]| * ProductOfLengths(lists[1..])
  }

  function PrependEach<T>(heads: seq<T>, tails: seq<seq<T>>): (r: seq<seq<T>>)
    ensures |r| == |heads| * |tails|
  {
    if |heads| == 0 then []
    else
      var rest := PrependEach(heads[1..], tails);
      assert |heads| * |tails| == |tails| + (|heads| - 1) * |tails|;
      MapSeq(t => [heads[0]] + t, tails) + rest
  }

  /** `itertools.product(*lists)`: the first list varies slowest. */
  function Product<T>(lists: seq<seq<T>>): (r: seq<seq<T>>)
    ensures |r| == ProductOfLengths(lists)
    decreases |lists|
  {
    if |lists| == 0 then [[]] else PrependEach(lists[0], Product(lists[1..]))
  }

  lemma {:induction false} PrependEachMembers<T>(heads: seq<T>, tails: seq<seq<T>>, c: seq<T>)
    ensures c in PrependEach(heads, tails) <==> |c| > 0 && c[0] in heads && c[1..] in tails
    decreases |heads|
  {
    if |heads| > 0 {
      PrependEachMembers(heads[1..], tails, c);
      var front := MapSeq(t => [heads[0]] + t, tails);
      if c in front {
        var j :| 0 <= j < |front| && front[j] == c;
        assert c[1..] == tails[j];
      }
      if |c| > 0 && c[0] == heads[0] && c[1..] in tails {
        var j :| 0 <= j < |tails| && tails[j] == c[1..];
        assert front[j] == c;
      }
    }
  }

  /** The product holds exactly the sequences that pick one element of each list, in order. */
  lemma {:induction false} ProductMembers<T>(lists: seq<seq<T>>, c: seq<T>)
    ensures c in Product(lists) <==> |c| == |lists| && forall i :: 0 <= i < |c| ==> c[i] in lists[i]
    decreases |lists|
  {
    if |lists| > 0 {
      PrependEachMembers(lists[0], Product(lists[1..]), c);
      if |c| > 0 {
        ProductMembers(lists[1..], c[1..]);
        if |c| == |lists| && forall i :: 0 <= i < |c| ==> c[i] in lists[i] {
          assert forall i :: 0 <= i < |c| - 1 ==> c[1..][i] in lists[1..][i] by {
            forall i | 0 <= i < |c| - 1 ensures c[1..][i] in lists[1..][i] {
              assert c[1..][i] == c[i + 1];
            }
          }
        }
        if c in Product(lists) {
          forall i | 0 <= i < |c| ensures c[i] in lists[i] {
            if i > 0 {
              assert c[i] == c[1..][i - 1];
            }
          }
        }
      }
    }
  }

  /** Prepending each head to each tail, head-major: head i with tail j sits at `i * |tails| + j`. */
  lemma {:induction false} PrependEachAt<T>(heads: seq<T>, tails: seq<seq<T>>, i: nat, j: nat)
    requires i < |heads| && j < |tails|
    ensures i * |tails| + j < |PrependEach(heads, tails)|
    ensures PrependEach(heads, tails)[i * |tails| + j] == [heads[i]] + tails[j]
    decreases i
  {
    var front := MapSeq(t => [heads[0]] + t, tails);
    var rest := PrependEach(heads[1..], tails);
    assert PrependEach(heads, tails) == front + rest;
    if i > 0 {
      PrependEachAt(heads[1..], tails, i - 1, j);
      assert i * |tails| + j == |tails| + ((i - 1) * |tails| + j);
    }
  }

  /** The product of one list holds its elements, each as a one-element sequence, in order. */
  lemma ProductOneAt<T>(a: seq<T>, i: nat)
    requires i < |a|
    ensures |Product([a])| == |a|
    ensures Product([a])[i] == [a[i]]
  {
    assert [a][1..] == [];
    PrependEachAt(a, [[]], i, 0);
  }

  /** Where the pair of the i-th element of one list and the j-th of another of `width` elements sits in their product. */
  function PairIndex(i: int, j: int, width: int): int
  {
    i * width + j
  }

  lemma ProductPairLength<T>(a: seq<T>, b: seq<T>)
    ensures |Product([a, b])| == |a| * |b|
  {
    assert [a, b][1..] == [b] && [b][1..] == [];
  }

  /** The product of two lists, first list slowest: the pair (i, j) sits at `i * |b| + j`. */
  lemma ProductPairAt<T>(a: seq<T>, b: seq<T>, i: nat, j: nat)
    requires i < |a| && j < |b|
    ensures |Product([a, b])| == |a| * |b|
    ensures i * |b| + j < |a| * |b|
    ensures Product([a, b])[i * |b| + j] == [a[i], b[j]]
  {
    assert [a, b][1..] == [b];
    ProductOneAt(b, j);
    assert |Product([b])| == |b|;
    PrependEachAt(a, Product([b]), i, j);
  }

  /**
   * A list of one value per pair of `a` and `b`, pair (i, j) at `i * |b| + j`, appended to
   * a prefix: the prefix is unchanged and each pair's value is shifted by the prefix length.
   */
  lemma AppendedPairs<X, Y, T>(prefix: seq<T>, w: seq<T>, a: seq<X>, b: seq<Y>, at: (X, Y) -> T)
    requires |w| == |a| * |b|
    requires forall i, j :: 0 <= i < |a| && 0 <= j < |b|
               ==> 0 <= PairIndex(i, j, |b|) < |w| && w[PairIndex(i, j, |b|)] == at(a[i], b[j])
    ensures |prefix + w| == |prefix| + |a| * |b| && (prefix + w)[..|prefix|] == prefix
    ensures forall i, j :: 0 <= i < |a| && 0 <= j < |b|
              ==> 0 <= |prefix| + PairIndex(i, j, |b|) < |prefix + w|
                  && (prefix + w)[|prefix| + PairIndex(i, j, |b|)] == at(a[i], b[j])
  {
    var r := prefix + w;
    forall i, j | 0 <= i < |a| && 0 <= j < |b|
      ensures 0 <= |prefix| + PairIndex(i, j, |b|) < |r| && r[|prefix| + PairIndex(i, j, |b|)] == at(a[i], b[j])
    {
      assert r[|prefix| + PairIndex(i, j, |b|)] == w[PairIndex(i, j, |b|)];
    }
  }
}
