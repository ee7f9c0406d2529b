/**
 * Keyed collections. A Rust `HashMap<String, E>` that is iterated is modelled
 * as an association list whose order is the iteration order; a map that the
 * source builds by repeated `insert` (later inserts overwrite earlier ones) is
 * described by `IndexLast`.
 */
module Keyed {

  /** An association list with distinct keys, in iteration order. */
  predicate DistinctKeys<E>(xs: seq<(string, E)>)
  {
    forall i, j :: 0 <= i < j < |xs| ==> xs[i].0 != xs[j].0
  }

  function Keys<E>(xs: seq<(string, E)>): (ks: seq<string>)
    ensures |ks| == |xs|
    ensures forall i :: 0 <= i < |xs| ==> ks[i] == xs[i].0
  {
    seq(|xs|, i requires 0 <= i < |xs| => xs[i].0)
  }

  /** `HashMap::contains_key`. */
  predicate HasKey<E>(xs: seq<(string, E)>, k: string)
  {
    exists i :: 0 <= i < |xs| && xs[i].0 == k
  }

  /** `HashMap::get` on a key that is present. */
  function Lookup<E>(xs: seq<(string, E)>, k: string): (v: E)
    requires HasKey(xs, k)
    ensures exists i :: 0 <= i < |xs| && xs[i] == (k, v)
    ensures DistinctKeys(xs) ==> forall i :: 0 <= i < |xs| && xs[i].0 == k ==> xs[i].1 == v
  {
    if xs[0].0 == k then xs[0].1
    else
      assert HasKey(xs[1..], k) by {
        var i :| 0 <= i < |xs| && xs[i].0 == k;
        assert xs[1..][i - 1].0 == k;
      }
      Lookup(xs[1..], k)
  }

  /**
   * The map built by inserting every item under its key, in order, so that a
   * later item overwrites an earlier one with the same key.
   */
  function IndexLast<T, K>(items: seq<T>, key: T -> K): map<K, T>
    decreases |items|
  {
    if items == [] then map[]
    else IndexLast(items[..|items| - 1], key)[key(items[|items| - 1]) := items[|items| - 1]]
  }

  /** Indexing one more item inserts it over whatever its key held. */
  lemma IndexLastSnoc<T, K>(items: seq<T>, x: T, key: T -> K)
    ensures IndexLast(items + [x], key) == IndexLast(items, key)[key(x) := x]
  {
    assert (items + [x])[..|items|] == items;
  }

  /** The keys are exactly the keys of the items. */
  lemma {:induction false} IndexLastKeys<T, K>(items: seq<T>, key: T -> K)
    ensures IndexLast(items, key).Keys == set i | 0 <= i < |items| :: key(items[i])
    decreases |items|
  {
    if items != [] {
      var n := |items| - 1;
      IndexLastKeys(items[..n], key);
      var before := set i | 0 <= i < n :: key(items[..n][i]);
      assert before == set i | 0 <= i < n :: key(items[i]) by {
        forall i | 0 <= i < n ensures items[..n][i] == items[i] { }
      }
      assert (set i | 0 <= i < |items| :: key(items[i])) == before + {key(items[n])};
    }
  }

  /** Every item that no later item overrides is the value stored under its key. */
  lemma {:induction false} IndexLastAt<T, K>(items: seq<T>, key: T -> K, i: nat)
    requires i < |items|
    requires forall j :: i < j < |items| ==> key(items[j]) != key(items[i])
    ensures key(items[i]) in IndexLast(items, key)
    ensures IndexLast(items, key)[key(items[i])] == items[i]
    decreases |items|
  {
    var n := |items| - 1;
    if i < n {
      forall j | i < j < n ensures key(items[..n][j]) != key(items[..n][i]) {
        assert items[..n][j] == items[j];
      }
      IndexLastAt(items[..n], key, i);
    }
  }

  /** Each stored value sits under its own key. */
  lemma {:induction false} IndexLastKeyed<T, K>(items: seq<T>, key: T -> K)
    ensures forall k :: k in IndexLast(items, key) ==> key(IndexLast(items, key)[k]) == k
    decreases |items|
  {
    if items != [] {
      IndexLastKeyed(items[..|items| - 1], key);
    }
  }

  /** Each stored value is one of the items. */
  lemma {:induction false} IndexLastValues<T, K>(items: seq<T>, key: T -> K)
    ensures forall k :: k in IndexLast(items, key) ==> IndexLast(items, key)[k] in items
    decreases |items|
  {
    if items != [] {
      var n := |items| - 1;
      IndexLastValues(items[..n], key);
      forall k | k in IndexLast(items[..n], key)
        ensures IndexLast(items[..n], key)[k] in items
      {
        assert IndexLast(items[..n], key)[k] in items[..n];
      }
    }
  }

  /** No more entries than items. */
  lemma {:induction false} IndexLastSize<T, K>(items: seq<T>, key: T -> K)
    ensures |IndexLast(items, key)| <= |items|
    decreases |items|
  {
    if items != [] {
      var n := |items| - 1;
      var m := IndexLast(items[..n], key);
      IndexLastSize(items[..n], key);
      assert m[key(items[n]) := items[n]].Keys == m.Keys + {key(items[n])};
    }
  }
}
