/**
  JavaScript's `Map`: entries in insertion order, one per key. `set` on a present key replaces its value
  in place; on a new key it appends an entry.
 */
module OrderedMap {
  import opened Seqs

  /** `[...m.keys()]`: the keys in insertion order. */
  function Keys<K, V>(m: seq<(K, V)>): (ks: seq<K>)
    ensures |ks| == |m|
  {
    if m == [] then [] else [m[0].0] + Keys(m[1..])
  }

  /** `m.has(k)`. */
  predicate Has<K(==), V>(m: seq<(K, V)>, k: K) {
    k in Keys(m)
  }

  /** The invariant of a `Map`: no key occurs twice. */
  predicate UniqueKeys<K(==), V>(m: seq<(K, V)>) {
    NoDuplicates(Keys(m))
  }

  /** The key list lines up with the entries. */
  lemma {:induction false} KeysAt<K, V>(m: seq<(K, V)>, i: nat)
    requires i < |m|
    ensures Keys(m)[i] == m[i].0
    decreases i
  {
    if i > 0 {
      KeysAt(m[1..], i - 1);
    }
  }

  /** `m.get(k)` on a present key. */
  function Get<K(==), V>(m: seq<(K, V)>, k: K): V
    requires Has(m, k)
    decreases |m|
  {
    if m[0].0 == k then m[0].1 else Get(m[1..], k)
  }

  /** `m.set(k, v)`. */
  function Set<K(==), V>(m: seq<(K, V)>, k: K, v: V): (r: seq<(K, V)>)
    ensures |r| == if Has(m, k) then |m| else |m| + 1
    decreases |m|
  {
    if m == [] then [(k, v)]
    else if m[0].0 == k then [(k, v)] + m[1..]
    else [m[0]] + Set(m[1..], k, v)
  }

  /** `set` keeps the insertion order: a present key stays where it is, a new key goes last. */
  lemma {:induction false} SetKeys<K, V>(m: seq<(K, V)>, k: K, v: V)
    ensures Keys(Set(m, k, v)) == if Has(m, k) then Keys(m) else Keys(m) + [k]
    decreases |m|
  {
    if m != [] && m[0].0 != k {
      SetKeys(m[1..], k, v);
      assert Set(m, k, v) == [m[0]] + Set(m[1..], k, v);
      assert ([m[0]] + Set(m[1..], k, v))[1..] == Set(m[1..], k, v);
    } else if m != [] {
      assert ([(k, v)] + m[1..])[1..] == m[1..];
    }
  }

  /** `get` after `set` on the same key returns the value set. */
  lemma {:induction false} GetSetSame<K, V>(m: seq<(K, V)>, k: K, v: V)
    ensures Has(Set(m, k, v), k) && Get(Set(m, k, v), k) == v
    decreases |m|
  {
    if m != [] && m[0].0 != k {
      GetSetSame(m[1..], k, v);
      assert ([m[0]] + Set(m[1..], k, v))[1..] == Set(m[1..], k, v);
    }
  }

  /** `get` after `set` on another key is unaffected. */
  lemma {:induction false} GetSetOther<K, V>(m: seq<(K, V)>, k: K, v: V, k': K)
    requires k' != k && Has(m, k')
    ensures Has(Set(m, k, v), k') && Get(Set(m, k, v), k') == Get(m, k')
    decreases |m|
  {
    if m[0].0 == k {
      assert ([(k, v)] + m[1..])[1..] == m[1..];
    } else if m[0].0 != k' {
      GetSetOther(m[1..], k, v, k');
      assert ([m[0]] + Set(m[1..], k, v))[1..] == Set(m[1..], k, v);
    }
  }

  /** Setting a key keeps the keys unique. */
  lemma SetKeepsKeysUnique<K, V>(m: seq<(K, V)>, k: K, v: V)
    requires UniqueKeys(m)
    ensures UniqueKeys(Set(m, k, v))
  {
    SetKeys(m, k, v);
  }

  /** `ks` followed by each element of `xs` that is not already present, in order of first appearance. */
  function AppendNew<T(==)>(ks: seq<T>, xs: seq<T>): seq<T>
    decreases |xs|
  {
    if xs == [] then ks
    else AppendNew(if xs[0] in ks then ks else ks + [xs[0]], xs[1..])
  }

  lemma AppendNewCons<T>(ks: seq<T>, x: T, xs: seq<T>)
    ensures AppendNew(ks, [x] + xs) == AppendNew(if x in ks then ks else ks + [x], xs)
  {
    assert ([x] + xs)[1..] == xs;
  }

  /** `AppendNew` holds exactly the elements of either list. */
  lemma {:induction false} AppendNewMembers<T>(ks: seq<T>, xs: seq<T>, y: T)
    ensures y in AppendNew(ks, xs) <==> y in ks || y in xs
    decreases |xs|
  {
    if xs != [] {
      AppendNewMembers(if xs[0] in ks then ks else ks + [xs[0]], xs[1..], y);
      assert xs == [xs[0]] + xs[1..];
    }
  }

  /** `AppendNew` never repeats an element. */
  lemma {:induction false} AppendNewUnique<T>(ks: seq<T>, xs: seq<T>)
    requires NoDuplicates(ks)
    ensures NoDuplicates(AppendNew(ks, xs))
    decreases |xs|
  {
    if xs != [] {
      AppendNewUnique(if xs[0] in ks then ks else ks + [xs[0]], xs[1..]);
    }
  }

  /** In a map with unique keys, each entry is what `get` returns for its key. */
  lemma {:induction false} GetAt<K, V>(m: seq<(K, V)>, i: nat)
    requires UniqueKeys(m) && i < |m|
    ensures Has(m, m[i].0) && Get(m, m[i].0) == m[i].1
    decreases i
  {
    KeysAt(m, i);
    if i > 0 {
      KeysAt(m, 0);
      assert Keys(m)[0] != Keys(m)[i];
      assert Keys(m[1..]) == Keys(m)[1..];
      GetAt(m[1..], i - 1);
    }
  }
}
