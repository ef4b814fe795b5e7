/**
 * Sequence combinators shared by the search engine, the storage getters and the page
 * filters: Array.prototype.filter, Array.prototype.map, a stable sort by an integer key
 * (the ordering Array.prototype.sort must produce since ECMAScript 2019) and sums.
 * All of them are defined "from the right" so that loops over prefixes line up with them.
 */
module Seqs {

  /** Array.prototype.filter: the elements of s that satisfy p, in order, with multiplicity. */
  function Filter<T(!new)>(s: seq<T>, p: T -> bool): (r: seq<T>)
    ensures |r| <= |s|
    decreases |s|
  {
    if s == [] then []
    else
      var init := Filter(s[..|s| - 1], p);
      if p(s[|s| - 1]) then init + [s[|s| - 1]] else init
  }

  /** What Filter keeps: every element of s that satisfies p, as often as it occurs in s, and nothing else. */
  lemma {:induction false} FilterMultiset<T(!new)>(s: seq<T>, p: T -> bool)
    ensures forall x :: multiset(Filter(s, p))[x] == if p(x) then multiset(s)[x] else 0
    ensures forall x :: x in Filter(s, p) <==> x in s && p(x)
    decreases |s|
  {
    if s != [] {
      FilterMultiset(s[..|s| - 1], p);
      assert s == s[..|s| - 1] + [s[|s| - 1]];
    }
  }

  /** A filter that nothing passes leaves nothing. */
  lemma FilterNone<T(!new)>(s: seq<T>, p: T -> bool)
    requires forall x :: x in s ==> !p(x)
    ensures Filter(s, p) == []
  {
    FilterMultiset(s, p);
  }

  /** Array.prototype.map. */
  function Map<T(!new), U(!new)>(s: seq<T>, f: T -> U): (r: seq<U>)
    ensures |r| == |s|
    ensures forall i :: 0 <= i < |s| ==> r[i] == f(s[i])
  {
    seq(|s|, i requires 0 <= i < |s| => f(s[i]))
  }

  /** The sum of f over the elements of s. */
  function Sum<T(!new)>(s: seq<T>, f: T -> int): int
    decreases |s|
  {
    if s == [] then 0 else Sum(s[..|s| - 1], f) + f(s[|s| - 1])
  }

  /** a occurs in b in the same order, possibly with elements of b skipped (matched greedily from the right). */
  predicate IsSubsequence<T(==,!new)>(a: seq<T>, b: seq<T>)
    decreases |b|
  {
    if a == [] then true
    else if b == [] then false
    else if a[|a| - 1] == b[|b| - 1] then IsSubsequence(a[..|a| - 1], b[..|b| - 1])
    else IsSubsequence(a, b[..|b| - 1])
  }

  /** The keys of s never decrease. */
  predicate SortedByKey<T(!new)>(s: seq<T>, key: T -> int)
  {
    forall i, j :: 0 <= i < j < |s| ==> key(s[i]) <= key(s[j])
  }

  /** The elements whose key is v. */
  function KeyIs<T(!new)>(key: T -> int, v: int): T -> bool
  {
    x => key(x) == v
  }

  /**
   * One step of a stable insertion sort: x goes after every element of s whose key is at
   * most key(x), scanning from the right end.
   */
  function Insert<T(!new)>(x: T, s: seq<T>, key: T -> int): (r: seq<T>)
    ensures |r| == |s| + 1
    decreases |s|
  {
    if s == [] || key(s[|s| - 1]) <= key(x) then s + [x]
    else Insert(x, s[..|s| - 1], key) + [s[|s| - 1]]
  }

  /** Inserting adds exactly one occurrence of x. */
  lemma {:induction false} InsertMultiset<T(!new)>(x: T, s: seq<T>, key: T -> int)
    ensures multiset(Insert(x, s, key)) == multiset(s) + multiset{x}
    decreases |s|
  {
    if s != [] && key(s[|s| - 1]) > key(x) {
      InsertMultiset(x, s[..|s| - 1], key);
      assert s == s[..|s| - 1] + [s[|s| - 1]];
    }
  }

  /** Stable insertion sort of s by ascending key: a permutation of s whose keys never decrease. */
  function SortByKey<T(!new)>(s: seq<T>, key: T -> int): (r: seq<T>)
    ensures |r| == |s|
    ensures multiset(r) == multiset(s)
    decreases |s|
  {
    if s == [] then []
    else
      assert s == s[..|s| - 1] + [s[|s| - 1]];
      InsertMultiset(s[|s| - 1], SortByKey(s[..|s| - 1], key), key);
      Insert(s[|s| - 1], SortByKey(s[..|s| - 1], key), key)
  }

  /** The keys of a sorted sequence never decrease. */
  lemma {:induction false} SortByKeySorted<T(!new)>(s: seq<T>, key: T -> int)
    ensures SortedByKey(SortByKey(s, key), key)
    decreases |s|
  {
    if s != [] {
      SortByKeySorted(s[..|s| - 1], key);
      InsertSorted(s[|s| - 1], SortByKey(s[..|s| - 1], key), key);
    }
  }

  lemma {:induction false} InsertSorted<T(!new)>(x: T, s: seq<T>, key: T -> int)
    requires SortedByKey(s, key)
    ensures SortedByKey(Insert(x, s, key), key)
    decreases |s|
  {
    if s == [] || key(s[|s| - 1]) <= key(x) {
    } else {
      var init, last := s[..|s| - 1], s[|s| - 1];
      InsertSorted(x, init, key);
      InsertBelow(x, init, key, key(last));
      var ins := Insert(x, init, key);
      var r := ins + [last];
      forall i, j | 0 <= i < j < |r| ensures key(r[i]) <= key(r[j]) {
        if j == |r| - 1 {
          assert r[i] == ins[i];
        }
      }
    }
  }

  /** Inserting an element keeps every key at most b when the element's key is. */
  lemma {:induction false} InsertBelow<T(!new)>(x: T, s: seq<T>, key: T -> int, b: int)
    requires key(x) <= b && forall k :: 0 <= k < |s| ==> key(s[k]) <= b
    ensures forall k :: 0 <= k < |Insert(x, s, key)| ==> key(Insert(x, s, key)[k]) <= b
    decreases |s|
  {
    if s != [] && key(s[|s| - 1]) > key(x) {
      InsertBelow(x, s[..|s| - 1], key, b);
    }
  }

  /**
   * One pass of insertion sort: a[i] moves left past the elements of the sorted prefix
   * a[..i] whose key is larger than its own.
   */
  method InsertInPlace<T(!new)>(a: array<T>, i: nat, key: T -> int)
    requires i < a.Length
    modifies a
    ensures a[..i + 1] == Insert(old(a[i]), old(a[..i]), key)
    ensures a[i + 1..] == old(a[i + 1..])
  {
    var x := a[i];
    ghost var sorted := a[..i];
    ghost var rest := a[i + 1..];
    var j := ShiftLarger(a, i, x, key);
    InsertAt(x, sorted, j, key);
    a[j] := x;
    assert a[..i + 1] == sorted[..j] + [x] + sorted[j..];
    assert a[i + 1..] == rest;
  }

  /**
   * The shifting loop of one insertion pass: moves the elements of a[..i] whose key is
   * larger than key(x), scanning from the right, one place up, and returns the gap left.
   */
  method ShiftLarger<T(!new)>(a: array<T>, i: nat, x: T, key: T -> int) returns (j: nat)
    requires i < a.Length
    modifies a
    ensures j <= i && (j == 0 || key(old(a[j - 1])) <= key(x))
    ensures forall k :: j <= k < i ==> key(old(a[k])) > key(x)
    ensures forall k :: 0 <= k < j ==> a[k] == old(a[k])
    ensures forall k :: j < k <= i ==> a[k] == old(a[k - 1])
    ensures forall k :: i < k < a.Length ==> a[k] == old(a[k])
  {
    j := i;
    while j > 0 && key(a[j - 1]) > key(x)
      invariant 0 <= j <= i
      invariant forall k :: j <= k < i ==> key(old(a[k])) > key(x)
      invariant forall k :: 0 <= k < j ==> a[k] == old(a[k])
      invariant forall k :: j < k <= i ==> a[k] == old(a[k - 1])
      invariant forall k :: i < k < a.Length ==> a[k] == old(a[k])
    {
      a[j] := a[j - 1];
      j := j - 1;
    }
  }

  /**
   * Where insertion puts x: right after the last element whose key is at most key(x),
   * provided every element after that point has a larger key.
   */
  lemma {:induction false} InsertAt<T(!new)>(x: T, s: seq<T>, j: nat, key: T -> int)
    requires j <= |s| && (j == 0 || key(s[j - 1]) <= key(x))
    requires forall k :: j <= k < |s| ==> key(s[k]) > key(x)
    ensures Insert(x, s, key) == s[..j] + [x] + s[j..]
    decreases |s|
  {
    if |s| == j {
      assert s[..j] == s;
    } else {
      var init := s[..|s| - 1];
      InsertAt(x, init, j, key);
      assert init[..j] == s[..j];
      assert s[j..] == init[j..] + [s[|s| - 1]];
    }
  }

  /** Sorting one more element inserts it into the sorted prefix. */
  lemma SortByKeyExtend<T(!new)>(s: seq<T>, i: nat, key: T -> int)
    requires i < |s|
    ensures SortByKey(s[..i + 1], key) == Insert(s[i], SortByKey(s[..i], key), key)
  {
    assert s[..i + 1][..i] == s[..i];
  }

  /**
   * In-place stable insertion sort of an array by ascending key (what Array.prototype.sort
   * does with a comparator that returns key(a) - key(b)).
   */
  method SortInPlace<T(!new)>(a: array<T>, key: T -> int)
    modifies a
    ensures a[..] == SortByKey(old(a[..]), key)
  {
    ghost var original := a[..];
    assert original[..0] == [];
    var i := 0;
    while i < a.Length
      invariant 0 <= i <= a.Length
      invariant a[..i] == SortByKey(original[..i], key)
      invariant a[i..] == original[i..]
    {
      SortByKeyExtend(original, i, key);
      assert a[i] == a[i..][0];
      assert a[i + 1..] == a[i..][1..];
      InsertInPlace(a, i, key);
      assert original[i + 1..] == original[i..][1..];
      i := i + 1;
    }
    assert original[..a.Length] == original;
  }

  // ---------------------------------------------------------------------------
  // Lemmas

  lemma {:induction false} FilterAppend<T(!new)>(a: seq<T>, b: seq<T>, p: T -> bool)
    ensures Filter(a + b, p) == Filter(a, p) + Filter(b, p)
    decreases |b|
  {
    if b == [] {
      assert a + b == a;
    } else {
      assert (a + b)[..|a + b| - 1] == a + b[..|b| - 1];
      FilterAppend(a, b[..|b| - 1], p);
    }
  }

  /** Filtering one more element of a prefix appends that element exactly when it passes. */
  lemma FilterPrefixStep<T(!new)>(s: seq<T>, n: nat, p: T -> bool)
    requires n < |s|
    ensures Filter(s[..n + 1], p) == if p(s[n]) then Filter(s[..n], p) + [s[n]] else Filter(s[..n], p)
  {
    assert s[..n + 1][..n] == s[..n];
  }

  /** Filtering with a predicate that agrees with p on every element of s gives the same result. */
  lemma {:induction false} FilterExtensional<T(!new)>(s: seq<T>, p: T -> bool, q: T -> bool)
    requires forall x :: x in s ==> p(x) == q(x)
    ensures Filter(s, p) == Filter(s, q)
    decreases |s|
  {
    if s != [] {
      FilterExtensional(s[..|s| - 1], p, q);
    }
  }

  /** A filter that every element passes is the identity. */
  lemma {:induction false} FilterKeepsAll<T(!new)>(s: seq<T>, p: T -> bool)
    requires forall x :: x in s ==> p(x)
    ensures Filter(s, p) == s
    decreases |s|
  {
    if s != [] {
      FilterKeepsAll(s[..|s| - 1], p);
    }
  }

  /** Filtering twice, where the second predicate implies the first, is filtering once. */
  lemma {:induction false} FilterOfFilter<T(!new)>(s: seq<T>, p: T -> bool, q: T -> bool)
    requires forall x :: x in s && q(x) ==> p(x)
    ensures Filter(Filter(s, p), q) == Filter(s, q)
    decreases |s|
  {
    if s != [] {
      FilterOfFilter(s[..|s| - 1], p, q);
    }
  }

  /** Filtering commutes with mapping when the predicates agree through f. */
  lemma {:induction false} MapFilter<T(!new), U(!new)>(s: seq<T>, f: T -> U, p: T -> bool, q: U -> bool)
    requires forall x :: x in s ==> p(x) == q(f(x))
    ensures Map(Filter(s, p), f) == Filter(Map(s, f), q)
    decreases |s|
  {
    if s != [] {
      var init := s[..|s| - 1];
      MapFilter(init, f, p, q);
      assert Map(s, f)[..|s| - 1] == Map(init, f);
      if p(s[|s| - 1]) {
        assert Map(Filter(init, p) + [s[|s| - 1]], f) == Map(Filter(init, p), f) + [f(s[|s| - 1])];
      }
    }
  }

  /** Inserting commutes with mapping when the keys agree through f. */
  lemma {:induction false} MapInsert<T(!new), U(!new)>(x: T, s: seq<T>, key: T -> int, f: T -> U, key': U -> int)
    requires key(x) == key'(f(x))
    requires forall y :: y in s ==> key(y) == key'(f(y))
    ensures Map(Insert(x, s, key), f) == Insert(f(x), Map(s, f), key')
    decreases |s|
  {
    var ms := Map(s, f);
    if s == [] || key(s[|s| - 1]) <= key(x) {
      assert Map(s + [x], f) == ms + [f(x)];
    } else {
      var init := s[..|s| - 1];
      MapInsert(x, init, key, f, key');
      assert ms[..|ms| - 1] == Map(init, f);
      assert Map(Insert(x, init, key) + [s[|s| - 1]], f) == Map(Insert(x, init, key), f) + [f(s[|s| - 1])];
    }
  }

  /** Sorting commutes with mapping when the keys agree through f. */
  lemma {:induction false} MapSortByKey<T(!new), U(!new)>(s: seq<T>, key: T -> int, f: T -> U, key': U -> int)
    requires forall y :: y in s ==> key(y) == key'(f(y))
    ensures Map(SortByKey(s, key), f) == SortByKey(Map(s, f), key')
    decreases |s|
  {
    if s != [] {
      var init := s[..|s| - 1];
      MapSortByKey(init, key, f, key');
      var sorted := SortByKey(init, key);
      forall y | y in sorted ensures key(y) == key'(f(y)) {
        assert y in multiset(sorted);
      }
      MapInsert(s[|s| - 1], sorted, key, f, key');
      assert Map(s, f)[..|s| - 1] == Map(init, f);
    }
  }

  /** Inserting x keeps every key class of s in order and puts x last in its own class. */
  lemma {:induction false} InsertKeyClass<T(!new)>(x: T, s: seq<T>, key: T -> int, v: int)
    ensures Filter(Insert(x, s, key), KeyIs(key, v)) == Filter(s, KeyIs(key, v)) + Filter([x], KeyIs(key, v))
    decreases |s|
  {
    var p := KeyIs(key, v);
    if s == [] || key(s[|s| - 1]) <= key(x) {
      FilterAppend(s, [x], p);
    } else {
      var init, last := s[..|s| - 1], s[|s| - 1];
      InsertKeyClass(x, init, key, v);
      FilterAppend(Insert(x, init, key), [last], p);
      FilterAppend(init, [last], p);
      assert s == init + [last];
    }
  }

  /** Stability: the elements sharing one key keep their relative order. */
  lemma {:induction false} SortByKeyStable<T(!new)>(s: seq<T>, key: T -> int, v: int)
    ensures Filter(SortByKey(s, key), KeyIs(key, v)) == Filter(s, KeyIs(key, v))
    decreases |s|
  {
    if s != [] {
      var init, last := s[..|s| - 1], s[|s| - 1];
      var p := KeyIs(key, v);
      var sorted := SortByKey(init, key);
      calc {
        Filter(SortByKey(s, key), p);
        Filter(Insert(last, sorted, key), p);
        { InsertKeyClass(last, sorted, key, v); }
        Filter(sorted, p) + Filter([last], p);
        { SortByKeyStable(init, key, v); }
        Filter(init, p) + Filter([last], p);
        { FilterAppend(init, [last], p); assert init + [last] == s; }
        Filter(s, p);
      }
    }
  }

  /** A filtered sorted sequence is still sorted. */
  lemma {:induction false} FilterSorted<T(!new)>(s: seq<T>, p: T -> bool, key: T -> int)
    requires SortedByKey(s, key)
    ensures SortedByKey(Filter(s, p), key)
    decreases |s|
  {
    if s != [] {
      var init, last := s[..|s| - 1], s[|s| - 1];
      FilterSorted(init, p, key);
      if p(last) {
        FilterMultiset(init, p);
        var f := Filter(init, p);
        var r := f + [last];
        forall i, j | 0 <= i < j < |r| ensures key(r[i]) <= key(r[j]) {
          if j == |r| - 1 {
            assert r[i] in init;
            var k :| 0 <= k < |init| && init[k] == r[i];
            assert s[k] == r[i];
          }
        }
      }
    }
  }

  lemma {:induction false} SubsequenceDropLast<T(!new)>(a: seq<T>, b: seq<T>)
    requires a != [] && IsSubsequence(a, b)
    ensures IsSubsequence(a[..|a| - 1], b)
    decreases |b|, 0
  {
    var b' := b[..|b| - 1];
    if a[|a| - 1] == b[|b| - 1] {
      SubsequenceExtend(a[..|a| - 1], b', b[|b| - 1]);
    } else {
      SubsequenceDropLast(a, b');
      SubsequenceExtend(a[..|a| - 1], b', b[|b| - 1]);
    }
    assert b' + [b[|b| - 1]] == b;
  }

  lemma {:induction false} SubsequenceExtend<T(!new)>(a: seq<T>, b: seq<T>, y: T)
    requires IsSubsequence(a, b)
    ensures IsSubsequence(a, b + [y])
    decreases |b|, 1
  {
    assert (b + [y])[..|b|] == b;
    if a != [] && a[|a| - 1] == y {
      SubsequenceDropLast(a, b);
    }
  }

  /** Array.prototype.filter keeps the order of what it keeps. */
  lemma {:induction false} FilterIsSubsequence<T(!new)>(s: seq<T>, p: T -> bool)
    ensures IsSubsequence(Filter(s, p), s)
    decreases |s|
  {
    if s != [] {
      var init, last := s[..|s| - 1], s[|s| - 1];
      FilterIsSubsequence(init, p);
      if p(last) {
        assert (Filter(init, p) + [last])[..|Filter(init, p)|] == Filter(init, p);
      } else {
        SubsequenceExtend(Filter(init, p), init, last);
        assert init + [last] == s;
      }
    }
  }

  /** Every sequence is a subsequence of itself. */
  lemma {:induction false} SubsequenceRefl<T(!new)>(s: seq<T>)
    ensures IsSubsequence(s, s)
    decreases |s|
  {
    if s != [] {
      SubsequenceRefl(s[..|s| - 1]);
    }
  }

  lemma {:induction false} SubsequenceTransitive<T(!new)>(a: seq<T>, b: seq<T>, c: seq<T>)
    requires IsSubsequence(a, b) && IsSubsequence(b, c)
    ensures IsSubsequence(a, c)
    decreases |c|
  {
    if a != [] {
      var c' := c[..|c| - 1];
      if b[|b| - 1] == c[|c| - 1] {
        if a[|a| - 1] == b[|b| - 1] {
          SubsequenceTransitive(a[..|a| - 1], b[..|b| - 1], c');
        } else {
          SubsequenceTransitive(a, b[..|b| - 1], c');
        }
      } else {
        SubsequenceTransitive(a, b, c');
        SubsequenceExtend(a, c', c[|c| - 1]);
        assert c' + [c[|c| - 1]] == c;
      }
    }
  }

  /** No element occurs twice. */
  predicate Distinct<T(==,!new)>(s: seq<T>)
  {
    forall i, j :: 0 <= i < j < |s| ==> s[i] != s[j]
  }

  /** Filtering keeps a sequence free of duplicates. */
  lemma {:induction false} FilterDistinct<T(!new)>(s: seq<T>, p: T -> bool)
    requires Distinct(s)
    ensures Distinct(Filter(s, p))
    decreases |s|
  {
    if s != [] {
      var init, last := s[..|s| - 1], s[|s| - 1];
      assert Distinct(init);
      FilterDistinct(init, p);
      FilterMultiset(init, p);
      assert last !in init;
    }
  }

  lemma {:induction false} SumAppend<T(!new)>(a: seq<T>, b: seq<T>, f: T -> int)
    ensures Sum(a + b, f) == Sum(a, f) + Sum(b, f)
    decreases |b|
  {
    if b == [] {
      assert a + b == a;
    } else {
      assert (a + b)[..|a + b| - 1] == a + b[..|b| - 1];
      SumAppend(a, b[..|b| - 1], f);
    }
  }

  /** The index of the first element satisfying p, or |s| when there is none (Array.prototype.find). */
  function FirstIndex<T(!new)>(s: seq<T>, p: T -> bool): (k: nat)
    ensures k <= |s|
    ensures forall j :: 0 <= j < k ==> !p(s[j])
    ensures k < |s| ==> p(s[k])
    decreases |s|
  {
    if s == [] || p(s[0]) then 0 else 1 + FirstIndex(s[1..], p)
  }

  /** Appending an element leaves an earlier match in place. */
  lemma {:induction false} FirstIndexAppend<T(!new)>(s: seq<T>, x: T, p: T -> bool)
    ensures FirstIndex(s + [x], p) == if FirstIndex(s, p) < |s| || p(x) then FirstIndex(s, p) else |s| + 1
    decreases |s|
  {
    if s != [] && !p(s[0]) {
      assert (s + [x])[1..] == s[1..] + [x];
      FirstIndexAppend(s[1..], x, p);
    }
  }

  /** A sum of non-negative values is non-negative. */
  lemma {:induction false} SumNonNegative<T(!new)>(s: seq<T>, f: T -> int)
    requires forall x :: x in s ==> f(x) >= 0
    ensures Sum(s, f) >= 0
    decreases |s|
  {
    if s != [] {
      assert s[|s| - 1] in s;
      SumNonNegative(s[..|s| - 1], f);
    }
  }

  /** A sum grows with its terms. */
  lemma {:induction false} SumMonotone<T(!new)>(s: seq<T>, f: T -> int, g: T -> int)
    requires forall x :: x in s ==> f(x) <= g(x)
    ensures Sum(s, f) <= Sum(s, g)
    decreases |s|
  {
    if s != [] {
      assert s[|s| - 1] in s;
      SumMonotone(s[..|s| - 1], f, g);
    }
  }

  /** Dropping non-negative terms never increases a sum. */
  lemma {:induction false} SumFilterLe<T(!new)>(s: seq<T>, p: T -> bool, f: T -> int)
    requires forall x :: x in s ==> f(x) >= 0
    ensures Sum(Filter(s, p), f) <= Sum(s, f)
    decreases |s|
  {
    if s != [] {
      var init, last := s[..|s| - 1], s[|s| - 1];
      SumFilterLe(init, p, f);
      if p(last) {
        assert (Filter(init, p) + [last])[..|Filter(init, p)|] == Filter(init, p);
      }
    }
  }
}
