/** The "keep one model per base name" loop shared by the six catalog fetch
    scripts (models_groq.py, models_openrouter.py, models_cerebras.py,
    models_gemini.py, models_mistral.py, models_huggingface.py).

    Each script walks its models in order and keeps, in an insertion-ordered
    dict `latest_models` keyed by base name, the model seen so far for that
    base; a later model replaces the kept one only when it strictly beats it
    (a lexicographically greater version string, or strictly more downloads).
    The result is the dict's values in key-insertion order.

    Here the key function and the "strictly beats" relation are parameters;
    each script module supplies its own. */
module Dedup {
  import opened OrderedMap
  import opened Sorting

  /** The `latest_models` dict after the loop has seen the models `xs`. */
  function Table<T, K(==)>(xs: seq<T>, key: T -> K, beats: (T, T) -> bool): (d: ODict<K, T>)
    ensures d.Valid()
    decreases |xs|
  {
    if xs == [] then Empty()
    else
      var d := Table(xs[..|xs| - 1], key, beats);
      var x := xs[|xs| - 1];
      if key(x) !in d.vals || beats(x, d.vals[key(x)]) then d.Put(key(x), x) else d
  }

  /** The loop of `filter_and_sort_models`, run on the models that passed the
      script's own filter. */
  method KeepBest<T, K(==)>(xs: seq<T>, key: T -> K, beats: (T, T) -> bool) returns (out: seq<T>)
    ensures out == Table(xs, key, beats).Values()
    ensures |out| <= |xs|
    ensures forall i, j :: 0 <= i < j < |out| ==> key(out[i]) != key(out[j])
    ensures forall i :: 0 <= i < |out| ==> out[i] in xs
  {
    var latest: ODict<K, T> := Empty();
    for n := 0 to |xs|
      invariant latest == Table(xs[..n], key, beats)
    {
      var m := xs[n];
      var base := key(m);
      assert xs[..n + 1][..n] == xs[..n];
      if base !in latest.vals {
        latest := latest.Put(base, m);
      } else {
        var current := latest.vals[base];
        if beats(m, current) {
          latest := latest.Put(base, m);
        }
      }
    }
    assert xs[..|xs|] == xs;
    out := latest.Values();
    OutputProperties(xs, key, beats);
  }

  // ---------------------------------------------------------------------
  // Reference notions

  /** Position of the first model whose key is `k` (`|xs|` when none). */
  function FirstIndex<T, K(==)>(xs: seq<T>, key: T -> K, k: K): (p: nat)
    ensures p <= |xs|
    ensures p < |xs| ==> key(xs[p]) == k
    ensures forall j :: 0 <= j < p ==> key(xs[j]) != k
  {
    if xs == [] then 0 else if key(xs[0]) == k then 0 else 1 + FirstIndex(xs[1..], key, k)
  }

  /** `xs[w]` is the model a best-keeping scan settles on for its key: it
      strictly beats every earlier model of that key and no later model of
      that key strictly beats it. */
  ghost predicate Winner<T, K>(xs: seq<T>, key: T -> K, beats: (T, T) -> bool, w: nat) {
    && w < |xs|
    && (forall j :: 0 <= j < w && key(xs[j]) == key(xs[w]) ==> beats(xs[w], xs[j]))
    && (forall j :: w < j < |xs| && key(xs[j]) == key(xs[w]) ==> !beats(xs[j], xs[w]))
  }

  /** On the models of `xs`, "beats" is a strict weak order: transitive, and
      when `a` beats `b`, every third model `c` is beaten by `a` or beats `b`
      (negative transitivity). Comparing versions or download counts is one
      (`ByKeyWeakOrder`). */
  ghost predicate WeakOrderOn<T>(xs: seq<T>, beats: (T, T) -> bool) {
    forall i, j, l :: 0 <= i < |xs| && 0 <= j < |xs| && 0 <= l < |xs| ==>
      && (beats(xs[i], xs[j]) && beats(xs[j], xs[l]) ==> beats(xs[i], xs[l]))
      && (beats(xs[i], xs[j]) ==> beats(xs[i], xs[l]) || beats(xs[l], xs[j]))
  }

  // ---------------------------------------------------------------------
  // Properties of the table

  /** One more model: the table of a longer input is one step of the loop. */
  lemma TableSnoc<T, K>(p: seq<T>, x: T, key: T -> K, beats: (T, T) -> bool)
    ensures var d := Table(p, key, beats);
      Table(p + [x], key, beats) ==
        if key(x) !in d.vals || beats(x, d.vals[key(x)]) then d.Put(key(x), x) else d
  {
    assert (p + [x])[..|p|] == p;
  }

  /** Each entry is an input model filed under its own key. */
  lemma {:induction false} TableEntries<T, K>(xs: seq<T>, key: T -> K, beats: (T, T) -> bool)
    ensures var d := Table(xs, key, beats);
      forall k | k in d.vals :: key(d.vals[k]) == k && d.vals[k] in xs
    decreases |xs|
  {
    if xs != [] {
      var p, x := xs[..|xs| - 1], xs[|xs| - 1];
      assert xs == p + [x];
      TableEntries(p, key, beats);
      TableSnoc(p, x, key, beats);
      var d := Table(p, key, beats);
      var d' := Table(xs, key, beats);
      forall k | k in d'.vals
        ensures key(d'.vals[k]) == k && d'.vals[k] in xs
      {
        if d'.vals[k] != x || k != key(x) {
          assert k in d.vals && d'.vals[k] == d.vals[k];
          assert d.vals[k] in p;
        }
      }
    }
  }

  /** Every input key has an entry. */
  lemma {:induction false} TableComplete<T, K>(xs: seq<T>, key: T -> K, beats: (T, T) -> bool)
    ensures forall j :: 0 <= j < |xs| ==> key(xs[j]) in Table(xs, key, beats).vals
    decreases |xs|
  {
    if xs != [] {
      var p, x := xs[..|xs| - 1], xs[|xs| - 1];
      assert xs == p + [x];
      TableComplete(p, key, beats);
      TableSnoc(p, x, key, beats);
    }
  }

  /** Every key of `ks` occurs in `xs`, and the keys are listed in the order
      of their first occurrence. */
  ghost predicate InFirstOccurrenceOrder<T, K>(xs: seq<T>, key: T -> K, ks: seq<K>) {
    && (forall i :: 0 <= i < |ks| ==> FirstIndex(xs, key, ks[i]) < |xs|)
    && (forall i, j :: 0 <= i < j < |ks| ==> FirstIndex(xs, key, ks[i]) < FirstIndex(xs, key, ks[j]))
  }

  /** Keys are listed in the order of their first appearance in the input,
      and there are no more of them than input models. */
  lemma {:induction false} TableOrder<T, K>(xs: seq<T>, key: T -> K, beats: (T, T) -> bool)
    ensures var d := Table(xs, key, beats);
      |d.keys| <= |xs| && InFirstOccurrenceOrder(xs, key, d.keys)
    decreases |xs|
  {
    if xs != [] {
      var p, x := xs[..|xs| - 1], xs[|xs| - 1];
      assert xs == p + [x];
      var d := Table(p, key, beats);
      TableOrder(p, key, beats);
      TableSnoc(p, x, key, beats);
      InFirstOccurrenceOrderExtend(p, x, key, d.keys);
      if key(x) !in d.vals {
        TableComplete(p, key, beats);
        InFirstOccurrenceOrderNew(p, x, key, d.keys);
      }
    }
  }

  lemma InFirstOccurrenceOrderExtend<T, K>(p: seq<T>, x: T, key: T -> K, ks: seq<K>)
    requires InFirstOccurrenceOrder(p, key, ks)
    ensures InFirstOccurrenceOrder(p + [x], key, ks)
  {
    forall i | 0 <= i < |ks| ensures FirstIndex(p + [x], key, ks[i]) == FirstIndex(p, key, ks[i]) {
      FirstIndexExtend(p, x, key, ks[i]);
    }
  }

  lemma InFirstOccurrenceOrderNew<T, K>(p: seq<T>, x: T, key: T -> K, ks: seq<K>)
    requires InFirstOccurrenceOrder(p, key, ks)
    requires forall j :: 0 <= j < |p| ==> key(p[j]) != key(x)
    ensures InFirstOccurrenceOrder(p + [x], key, ks + [key(x)])
  {
    var xs, ks' := p + [x], ks + [key(x)];
    InFirstOccurrenceOrderExtend(p, x, key, ks);
    FirstIndexNew(p, x, key);
    forall i | 0 <= i < |ks| ensures ks'[i] == ks[i] && FirstIndex(xs, key, ks[i]) < |p| {
    }
    assert ks'[|ks|] == key(x);
  }

  lemma FirstIndexExtend<T, K>(p: seq<T>, x: T, key: T -> K, k: K)
    requires FirstIndex(p, key, k) < |p|
    ensures FirstIndex(p + [x], key, k) == FirstIndex(p, key, k)
  {
    var a := FirstIndex(p, key, k);
    assert (p + [x])[a] == p[a];
    forall j | 0 <= j < a ensures key((p + [x])[j]) != k {
      assert (p + [x])[j] == p[j];
    }
  }

  lemma FirstIndexNew<T, K>(p: seq<T>, x: T, key: T -> K)
    requires forall j :: 0 <= j < |p| ==> key(p[j]) != key(x)
    ensures FirstIndex(p + [x], key, key(x)) == |p|
  {
    assert (p + [x])[|p|] == x;
    forall j | 0 <= j < |p| ensures key((p + [x])[j]) != key(x) {
      assert (p + [x])[j] == p[j];
    }
  }

  lemma WeakOrderOnPrefix<T>(p: seq<T>, x: T, beats: (T, T) -> bool)
    requires WeakOrderOn(p + [x], beats)
    ensures WeakOrderOn(p, beats)
  {
    var xs := p + [x];
    forall i, j, l | 0 <= i < |p| && 0 <= j < |p| && 0 <= l < |p|
      ensures beats(p[i], p[j]) && beats(p[j], p[l]) ==> beats(p[i], p[l])
      ensures beats(p[i], p[j]) ==> beats(p[i], p[l]) || beats(p[l], p[j])
    {
      assert p[i] == xs[i] && p[j] == xs[j] && p[l] == xs[l];
    }
  }

  /** A winner stays the winner when a model that does not beat it is added. */
  lemma WinnerKept<T, K>(p: seq<T>, x: T, key: T -> K, beats: (T, T) -> bool, w: nat)
    requires Winner(p, key, beats, w)
    requires key(x) == key(p[w]) ==> !beats(x, p[w])
    ensures Winner(p + [x], key, beats, w)
  {
    var xs := p + [x];
    assert xs[w] == p[w];
    forall j | 0 <= j < w ensures xs[j] == p[j] { }
    forall j | w < j < |p| ensures xs[j] == p[j] { }
  }

  /** A new model wins when it beats the previous winner of its key. */
  lemma WinnerTaken<T, K>(p: seq<T>, x: T, key: T -> K, beats: (T, T) -> bool, c: nat)
    requires WeakOrderOn(p + [x], beats)
    requires Winner(p, key, beats, c) && key(p[c]) == key(x) && beats(x, p[c])
    ensures Winner(p + [x], key, beats, |p|)
  {
    var xs := p + [x];
    assert xs[|p|] == x && xs[c] == p[c];
    forall j | 0 <= j < |p| && key(xs[j]) == key(x)
      ensures beats(x, xs[j])
    {
      var y, z := xs[j], xs[c];
      assert y == p[j];
      if j < c {
        assert beats(z, y);
        assert beats(x, z) && beats(z, y) ==> beats(x, y);
      } else if j > c {
        assert !beats(y, z);
        assert beats(x, z) ==> beats(x, y) || beats(y, z);
      }
    }
  }

  /** A model with a key not seen before is that key's winner so far. */
  lemma WinnerFirst<T, K>(p: seq<T>, x: T, key: T -> K, beats: (T, T) -> bool)
    requires forall j :: 0 <= j < |p| ==> key(p[j]) != key(x)
    ensures Winner(p + [x], key, beats, |p|)
  {
    var xs := p + [x];
    assert xs[|p|] == x;
    forall j | 0 <= j < |p| ensures xs[j] == p[j] { }
  }

  /** The kept model of every key is the winner of the scan for that key:
      greatest by "beats", the earliest among equals. */
  lemma {:induction false} WinnerOf<T, K>(xs: seq<T>, key: T -> K, beats: (T, T) -> bool, k: K)
    returns (w: nat)
    requires WeakOrderOn(xs, beats)
    requires k in Table(xs, key, beats).vals
    ensures Winner(xs, key, beats, w) && key(xs[w]) == k
    ensures Table(xs, key, beats).vals[k] == xs[w]
    decreases |xs|
  {
    var p, x := xs[..|xs| - 1], xs[|xs| - 1];
    assert xs == p + [x];
    var d := Table(p, key, beats);
    TableSnoc(p, x, key, beats);
    WeakOrderOnPrefix(p, x, beats);
    if k != key(x) {
      w := WinnerOf(p, key, beats, k);
      WinnerKept(p, x, key, beats, w);
    } else if k !in d.vals {
      TableComplete(p, key, beats);
      WinnerFirst(p, x, key, beats);
      w := |p|;
    } else {
      var c := WinnerOf(p, key, beats, k);
      if beats(x, d.vals[k]) {
        WinnerTaken(p, x, key, beats, c);
        w := |p|;
      } else {
        WinnerKept(p, x, key, beats, c);
        w := c;
      }
    }
  }

  /** The kept models are exactly the table's entries, in key order. */
  lemma OutputKeys<T, K>(xs: seq<T>, key: T -> K, beats: (T, T) -> bool)
    ensures var d := Table(xs, key, beats);
      forall i :: 0 <= i < |d.keys| ==> key(d.Values()[i]) == d.keys[i] && d.Values()[i] in xs
  {
    var d := Table(xs, key, beats);
    TableEntries(xs, key, beats);
    forall i | 0 <= i < |d.keys|
      ensures key(d.Values()[i]) == d.keys[i] && d.Values()[i] in xs
    {
      assert d.keys[i] in d.vals;
    }
  }

  /** What the scripts' deduplicated list promises, for any key function and
      any comparison: at most one model per key, only input models, no longer
      than the input, and keys in the order of their first appearance. */
  lemma OutputProperties<T, K>(xs: seq<T>, key: T -> K, beats: (T, T) -> bool)
    ensures var out := Table(xs, key, beats).Values();
      && |out| <= |xs|
      && (forall i :: 0 <= i < |out| ==> out[i] in xs)
      && (forall i, j :: 0 <= i < j < |out| ==> key(out[i]) != key(out[j]))
      && (forall i, j :: 0 <= i < j < |out| ==>
            FirstIndex(xs, key, key(out[i])) < FirstIndex(xs, key, key(out[j])))
  {
    OutputKeys(xs, key, beats);
    TableOrder(xs, key, beats);
  }

  /** Every base name of the input is represented in the output. */
  lemma OutputCovers<T, K>(xs: seq<T>, key: T -> K, beats: (T, T) -> bool)
    ensures var out := Table(xs, key, beats).Values();
      forall j :: 0 <= j < |xs| ==> exists i :: 0 <= i < |out| && key(out[i]) == key(xs[j])
  {
    var out := Table(xs, key, beats).Values();
    forall j | 0 <= j < |xs|
      ensures exists i :: 0 <= i < |out| && key(out[i]) == key(xs[j])
    {
      var i := Representative(xs, key, beats, j);
      assert 0 <= i < |out| && key(out[i]) == key(xs[j]);
    }
  }

  lemma Representative<T, K>(xs: seq<T>, key: T -> K, beats: (T, T) -> bool, j: nat) returns (i: nat)
    requires j < |xs|
    ensures i < |Table(xs, key, beats).Values()|
    ensures key(Table(xs, key, beats).Values()[i]) == key(xs[j])
  {
    var d := Table(xs, key, beats);
    TableComplete(xs, key, beats);
    i := Position(d, key(xs[j]));
    assert d.keys[i] in d.vals;
    TableEntries(xs, key, beats);
  }

  lemma Position<K, V>(d: ODict<K, V>, k: K) returns (i: nat)
    requires d.Valid() && k in d.vals
    ensures i < |d.keys| && d.keys[i] == k
  {
    i :| 0 <= i < |d.keys| && d.keys[i] == k;
  }

  /** Under a strict weak order, every kept model is the winner for its key. */
  lemma KeptAreWinners<T, K>(xs: seq<T>, key: T -> K, beats: (T, T) -> bool)
    requires WeakOrderOn(xs, beats)
    ensures var out := Table(xs, key, beats).Values();
      forall i :: 0 <= i < |out| ==> exists w: nat :: Winner(xs, key, beats, w) && out[i] == xs[w]
  {
    var d := Table(xs, key, beats);
    var out := d.Values();
    forall i | 0 <= i < |out|
      ensures exists w: nat :: Winner(xs, key, beats, w) && out[i] == xs[w]
    {
      assert d.keys[i] in d.vals;
      var w := WinnerOf(xs, key, beats, d.keys[i]);
    }
  }

  /** "Strictly greater key" under a strict total order on keys (a version
      string under `<`, a download count under `<`) is a strict weak order
      on any list of models. */
  lemma ByKeyWeakOrder<T, K(!new)>(xs: seq<T>, ver: T -> K, lt: (K, K) -> bool, beats: (T, T) -> bool)
    requires StrictTotalOrder(lt)
    requires forall a, b :: beats(a, b) == lt(ver(b), ver(a))
    ensures WeakOrderOn(xs, beats)
  {
    forall i, j, l | 0 <= i < |xs| && 0 <= j < |xs| && 0 <= l < |xs|
      ensures beats(xs[i], xs[j]) ==> beats(xs[i], xs[l]) || beats(xs[l], xs[j])
    {
      var a, b, c := ver(xs[i]), ver(xs[j]), ver(xs[l]);
      assert a == c || lt(a, c) || lt(c, a);
    }
  }

  /** Everything the deduplicated list promises: only input models, at most
      one per key, keys in first-appearance order, every input key
      represented, and each kept model the winner for its key. */
  ghost predicate KeepsBestPerKey<T, K>(xs: seq<T>, key: T -> K, beats: (T, T) -> bool, out: seq<T>) {
    && |out| <= |xs|
    && (forall i :: 0 <= i < |out| ==> out[i] in xs)
    && (forall i, j :: 0 <= i < j < |out| ==> key(out[i]) != key(out[j]))
    && (forall i, j :: 0 <= i < j < |out| ==>
          FirstIndex(xs, key, key(out[i])) < FirstIndex(xs, key, key(out[j])))
    && (forall j :: 0 <= j < |xs| ==> exists i :: 0 <= i < |out| && key(out[i]) == key(xs[j]))
    && (forall i :: 0 <= i < |out| ==> exists w: nat :: Winner(xs, key, beats, w) && out[i] == xs[w])
  }

  lemma BestPerKey<T, K>(xs: seq<T>, key: T -> K, beats: (T, T) -> bool)
    requires WeakOrderOn(xs, beats)
    ensures KeepsBestPerKey(xs, key, beats, Table(xs, key, beats).Values())
  {
    OutputProperties(xs, key, beats);
    OutputCovers(xs, key, beats);
    KeptAreWinners(xs, key, beats);
  }

  /** When no two models share a key, the loop keeps every model, in input
      order. */
  lemma DistinctKeysKeepAll<T, K>(xs: seq<T>, key: T -> K, beats: (T, T) -> bool)
    requires forall i, j :: 0 <= i < j < |xs| ==> key(xs[i]) != key(xs[j])
    ensures Table(xs, key, beats).Values() == xs
  {
    DistinctKeysTable(xs, key, beats);
    var d := Table(xs, key, beats);
    var r := d.Values();
    forall i | 0 <= i < |xs| ensures r[i] == xs[i] {
      assert r[i] == d.vals[d.keys[i]];
    }
  }

  lemma {:induction false} DistinctKeysTable<T, K>(xs: seq<T>, key: T -> K, beats: (T, T) -> bool)
    requires forall i, j :: 0 <= i < j < |xs| ==> key(xs[i]) != key(xs[j])
    ensures var d := Table(xs, key, beats);
      |d.keys| == |xs| && forall i :: 0 <= i < |xs| ==> d.keys[i] == key(xs[i]) && d.vals[key(xs[i])] == xs[i]
    decreases |xs|
  {
    if xs != [] {
      var p, x := xs[..|xs| - 1], xs[|xs| - 1];
      assert xs == p + [x];
      DistinctKeysTable(p, key, beats);
      TableSnoc(p, x, key, beats);
      var d := Table(p, key, beats);
      forall j | 0 <= j < |p| ensures d.keys[j] != key(x) {
        assert p[j] == xs[j];
      }
      assert key(x) !in d.vals;
    }
  }
}
