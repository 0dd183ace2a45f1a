/** Python's `sorted(xs, key=f)`: a stable sort by a key. Python uses Timsort;
    a stable sort's result is determined by its input, so the insertion sort
    below returns the same list. */
module Sorting {
  import opened Text

  /** `lt` is a strict total order: irreflexive, transitive and total. */
  ghost predicate StrictTotalOrder<K(!new)>(lt: (K, K) -> bool) {
    && (forall a :: !lt(a, a))
    && (forall a, b, c :: lt(a, b) && lt(b, c) ==> lt(a, c))
    && (forall a, b :: a == b || lt(a, b) || lt(b, a))
  }

  /** No element is followed by one with a smaller key. */
  ghost predicate SortedBy<T, K>(s: seq<T>, key: T -> K, lt: (K, K) -> bool) {
    forall i, j :: 0 <= i < j < |s| ==> !lt(key(s[j]), key(s[i]))
  }

  /** The elements of `s` whose key is `k`, in their order in `s`. */
  ghost function WithKey<T, K>(s: seq<T>, key: T -> K, k: K): seq<T> {
    if s == [] then [] else (if key(s[0]) == k then [s[0]] else []) + WithKey(s[1..], key, k)
  }

  /** Puts `x` before the first element whose key is not smaller than its own. */
  function Insert<T, K>(x: T, s: seq<T>, key: T -> K, lt: (K, K) -> bool): (r: seq<T>)
    ensures |r| == |s| + 1
  {
    if s == [] || !lt(key(s[0]), key(x)) then [x] + s
    else [s[0]] + Insert(x, s[1..], key, lt)
  }

  function SortBy<T, K>(xs: seq<T>, key: T -> K, lt: (K, K) -> bool): (r: seq<T>)
    ensures |r| == |xs|
  {
    if xs == [] then [] else Insert(xs[0], SortBy(xs[1..], key, lt), key, lt)
  }

  lemma {:induction false} InsertPermutes<T, K>(x: T, s: seq<T>, key: T -> K, lt: (K, K) -> bool)
    ensures multiset(Insert(x, s, key, lt)) == multiset(s) + multiset{x}
    decreases |s|
  {
    if s != [] && lt(key(s[0]), key(x)) {
      InsertPermutes(x, s[1..], key, lt);
      assert s == [s[0]] + s[1..];
    }
  }

  lemma {:induction false} InsertSorted<T, K(!new)>(x: T, s: seq<T>, key: T -> K, lt: (K, K) -> bool)
    requires StrictTotalOrder(lt) && SortedBy(s, key, lt)
    ensures SortedBy(Insert(x, s, key, lt), key, lt)
    decreases |s|
  {
    InsertPermutes(x, s, key, lt);
    var r := Insert(x, s, key, lt);
    if s != [] && lt(key(s[0]), key(x)) {
      var t := s[1..];
      assert SortedBy(t, key, lt);
      InsertSorted(x, t, key, lt);
      InsertPermutes(x, t, key, lt);
      var rt := Insert(x, t, key, lt);
      forall j | 0 <= j < |rt| ensures !lt(key(rt[j]), key(s[0])) {
        assert rt[j] in multiset(t) + multiset{x};
        if rt[j] != x {
          assert rt[j] in t;
        }
      }
    } else if s != [] {
      forall j | 0 < j < |s| ensures !lt(key(s[j]), key(x)) {
        assert !lt(key(s[j]), key(s[0]));
      }
    }
  }

  /** Insertion keeps the relative order of elements with equal keys and puts
      `x` before those already there. */
  lemma {:induction false} InsertStable<T, K(!new)>(x: T, s: seq<T>, key: T -> K, lt: (K, K) -> bool, k: K)
    requires forall a :: !lt(a, a)
    ensures WithKey(Insert(x, s, key, lt), key, k) ==
            (if key(x) == k then [x] else []) + WithKey(s, key, k)
    decreases |s|
  {
    var r := Insert(x, s, key, lt);
    var xk := if key(x) == k then [x] else [];
    if s != [] && lt(key(s[0]), key(x)) {
      var rt := Insert(x, s[1..], key, lt);
      InsertStable(x, s[1..], key, lt, k);
      assert !lt(key(x), key(x));
      assert key(s[0]) != key(x);
      var sk := if key(s[0]) == k then [s[0]] else [];
      assert r == [s[0]] + rt;
      assert r[0] == s[0] && r[1..] == rt;
      assert WithKey(r, key, k) == sk + WithKey(rt, key, k);
      assert WithKey(s, key, k) == sk + WithKey(s[1..], key, k);
      assert sk == [] || xk == [];
    } else {
      assert r == [x] + s;
      assert r[0] == x && r[1..] == s;
    }
  }

  /** The output is sorted. */
  lemma {:induction false} SortBySorted<T, K(!new)>(xs: seq<T>, key: T -> K, lt: (K, K) -> bool)
    requires StrictTotalOrder(lt)
    ensures SortedBy(SortBy(xs, key, lt), key, lt)
    decreases |xs|
  {
    if xs != [] {
      SortBySorted(xs[1..], key, lt);
      InsertSorted(xs[0], SortBy(xs[1..], key, lt), key, lt);
    }
  }

  /** The output is a permutation of the input. */
  lemma {:induction false} SortByPermutes<T, K>(xs: seq<T>, key: T -> K, lt: (K, K) -> bool)
    ensures multiset(SortBy(xs, key, lt)) == multiset(xs)
    decreases |xs|
  {
    if xs != [] {
      SortByPermutes(xs[1..], key, lt);
      InsertPermutes(xs[0], SortBy(xs[1..], key, lt), key, lt);
      assert xs == [xs[0]] + xs[1..];
    }
  }

  /** The sort is stable: for every key, the elements with that key appear in
      the output in their input order. */
  lemma {:induction false} SortByStable<T, K(!new)>(xs: seq<T>, key: T -> K, lt: (K, K) -> bool, k: K)
    requires forall a :: !lt(a, a)
    ensures WithKey(SortBy(xs, key, lt), key, k) == WithKey(xs, key, k)
    decreases |xs|
  {
    if xs != [] {
      SortByStable(xs[1..], key, lt, k);
      InsertStable(xs[0], SortBy(xs[1..], key, lt), key, lt, k);
    }
  }

  /** Python's string `<` is a strict total order, so sorting by a string key
      is sorting in the usual sense. */
  lemma StrLessOrder()
    ensures StrictTotalOrder(StrLess)
  {
    forall a: string ensures !StrLess(a, a) {
      StrLessIrreflexive(a);
    }
    forall a: string, b: string, c: string | StrLess(a, b) && StrLess(b, c)
      ensures StrLess(a, c)
    {
      StrLessTransitive(a, b, c);
    }
    forall a: string, b: string ensures a == b || StrLess(a, b) || StrLess(b, a) {
      StrLessTotal(a, b);
    }
  }
}
