/**
  Python dictionaries, which remember insertion order: a dictionary is a
  sequence of key/value pairs. Assigning `d[k] = v` replaces the value of an
  existing key where it stands and appends a new key at the end, so iterating
  over `d.items()` visits the keys in first-insertion order.
*/
module Dicts {
  import opened Wrappers

  type Dict<K, V> = seq<(K, V)>

  /** `list(d.keys())`. */
  function Keys<K, V>(d: Dict<K, V>): (ks: seq<K>) {
    seq(|d|, i requires 0 <= i < |d| => d[i].0)
  }

  lemma KeysCons<K, V>(d: Dict<K, V>)
    requires d != []
    ensures Keys(d) == [d[0].0] + Keys(d[1..])
  {
  }

  predicate Distinct<T(==)>(s: seq<T>) {
    forall i, j :: 0 <= i < j < |s| ==> s[i] != s[j]
  }

  /** A real dictionary holds each key once. */
  predicate Wf<K(==), V>(d: Dict<K, V>) {
    Distinct(Keys(d))
  }

  /** `d.get(k)`. */
  function Get<K(==), V>(d: Dict<K, V>, k: K): (r: Option<V>)
    ensures r.Some? <==> k in Keys(d)
    decreases |d|
  {
    if d == [] then None
    else KeysCons(d); if d[0].0 == k then Some(d[0].1) else Get(d[1..], k)
  }

  /** In a well-formed dictionary the value stored at a position is the one `get` finds. */
  lemma {:induction false} GetAt<K, V>(d: Dict<K, V>, i: nat)
    requires Wf(d) && i < |d|
    ensures Get(d, d[i].0) == Some(d[i].1)
    decreases i
  {
    if i > 0 {
      assert Keys(d)[0] != Keys(d)[i];
      KeysCons(d);
      assert Keys(d[1..]) == Keys(d)[1..];
      GetAt(d[1..], i - 1);
    }
  }

  /** `d[k] = v`. */
  function Put<K(==,!new), V>(d: Dict<K, V>, k: K, v: V): (r: Dict<K, V>)
    ensures Get(r, k) == Some(v)
    ensures forall j :: j != k ==> Get(r, j) == Get(d, j)
    ensures Keys(r) == if k in Keys(d) then Keys(d) else Keys(d) + [k]
    decreases |d|
  {
    if d == [] then [(k, v)]
    else if d[0].0 == k then
      var r := [(k, v)] + d[1..];
      assert r[1..] == d[1..];
      KeysCons(d);
      KeysCons(r);
      r
    else
      var t := Put(d[1..], k, v);
      var r := [d[0]] + t;
      assert r[1..] == t;
      assert r[0] == d[0];
      KeysCons(r);
      KeysCons(d);
      assert [d[0].0] + (Keys(d[1..]) + [k]) == [d[0].0] + Keys(d[1..]) + [k];
      r
  }

  /** Assignment keeps each key held once. */
  lemma PutWf<K(!new), V>(d: Dict<K, V>, k: K, v: V)
    requires Wf(d)
    ensures Wf(Put(d, k, v))
  {
    var ks := Keys(d);
    if k !in ks {
      assert Keys(Put(d, k, v)) == ks + [k];
    }
  }

  /** `for x in xs: d[key(x)] = v`. */
  function PutEach<T, K(==,!new), V>(d: Dict<K, V>, xs: seq<T>, key: T -> K, v: V): (r: Dict<K, V>)
    decreases |xs|
  {
    if xs == [] then d
    else Put(PutEach(d, xs[..|xs| - 1], key, v), key(xs[|xs| - 1]), v)
  }

  /** One more iteration of the assignment loop. */
  lemma PutEachStep<T, K(!new), V>(d: Dict<K, V>, xs: seq<T>, i: nat, key: T -> K, v: V)
    requires i < |xs|
    ensures PutEach(d, xs[..i + 1], key, v) == Put(PutEach(d, xs[..i], key, v), key(xs[i]), v)
  {
    assert xs[..i + 1][..i] == xs[..i];
  }

  /** One more iteration of a loop that appends the elements of `xs` to `prefix`. */
  lemma AppendStep<T>(prefix: seq<T>, xs: seq<T>, i: nat)
    requires i < |xs|
    ensures prefix + xs[..i] + [xs[i]] == prefix + xs[..i + 1]
  {
    assert xs[..i + 1] == xs[..i] + [xs[i]];
  }

  /** Concatenation is associative; stated once so that loops need not rediscover it. */
  lemma AppendAssoc<T>(a: seq<T>, b: seq<T>, c: seq<T>)
    ensures a + (b + c) == a + b + c
  {
  }

  /** Moving the brackets of a five-part concatenation so that `m` stands alone. */
  lemma Regroup<T>(h: seq<T>, x: seq<T>, m: seq<T>, y: seq<T>, t: seq<T>)
    ensures h + (x + m + y) + t == (h + x) + m + (y + t)
  {
  }

  /** The part between a prefix and a suffix is found at the prefix's length. */
  lemma MiddleSlice<T>(a: seq<T>, m: seq<T>, b: seq<T>)
    ensures |a| + |m| <= |a + m + b| && (a + m + b)[|a|..|a| + |m|] == m
  {
  }

  lemma PrefixOfConcat<T>(a: seq<T>, b: seq<T>, c: seq<T>)
    ensures a <= a + b + c
  {
  }

  /** A concatenation starts with the first element of its first part. */
  lemma HeadOfConcat<T>(a: seq<T>, b: seq<T>, c: seq<T>)
    requires a != []
    ensures (a + b + c)[0] == a[0]
  {
  }

  /** `[key(x) for x in xs]`. */
  function MapSeq<T, U>(f: T -> U, xs: seq<T>): (r: seq<U>)
    ensures |r| == |xs|
    ensures forall i :: 0 <= i < |xs| ==> r[i] == f(xs[i])
  {
    seq(|xs|, i requires 0 <= i < |xs| => f(xs[i]))
  }

  lemma MapSeqSnoc<T, U>(f: T -> U, xs: seq<T>)
    requires xs != []
    ensures MapSeq(f, xs) == MapSeq(f, xs[..|xs| - 1]) + [f(xs[|xs| - 1])]
  {
  }

  /** One more iteration of a loop that appends `f(x)` for each `x` of `xs`. */
  lemma MapSeqStep<T, U>(f: T -> U, xs: seq<T>, i: nat)
    requires i < |xs|
    ensures MapSeq(f, xs[..i + 1]) == MapSeq(f, xs[..i]) + [f(xs[i])]
  {
  }

  /**
    After assigning every key of `xs` to `v`, exactly those keys map to `v`
    and every other key keeps the value it had.
  */
  lemma {:induction false} PutEachGet<T, K(!new), V>(d: Dict<K, V>, xs: seq<T>, key: T -> K, v: V, k: K)
    ensures Get(PutEach(d, xs, key, v), k) == if k in MapSeq(key, xs) then Some(v) else Get(d, k)
    decreases |xs|
  {
    if xs != [] {
      var init := xs[..|xs| - 1];
      PutEachGet(d, init, key, v, k);
      MapSeqSnoc(key, xs);
    }
  }

  /**
    Assigning keys never reorders or loses the keys already present: the old
    key list is a prefix of the new one, and the new keys come after it.
  */
  lemma {:induction false} PutEachKeys<T, K(!new), V>(d: Dict<K, V>, xs: seq<T>, key: T -> K, v: V)
    ensures var ks := Keys(PutEach(d, xs, key, v));
      Keys(d) <= ks && (forall k :: k in ks <==> k in Keys(d) || k in MapSeq(key, xs))
    ensures Wf(d) ==> Wf(PutEach(d, xs, key, v))
    decreases |xs|
  {
    if xs != [] {
      var init := xs[..|xs| - 1];
      var last := key(xs[|xs| - 1]);
      PutEachKeys(d, init, key, v);
      var before := PutEach(d, init, key, v);
      var after := Put(before, last, v);
      assert PutEach(d, xs, key, v) == after;
      assert Keys(before) <= Keys(after);
      MapSeqSnoc(key, xs);
      forall k
        ensures k in Keys(after) <==> k in Keys(d) || k in MapSeq(key, xs)
      {
        assert k in MapSeq(key, xs) <==> k in MapSeq(key, init) || k == last;
      }
      if Wf(d) {
        PutWf(before, last, v);
      }
    }
  }

  /** `list(d.values())`, and equally the second components of any list of pairs. */
  function Values<K, V>(d: Dict<K, V>): (vs: seq<V>) {
    seq(|d|, i requires 0 <= i < |d| => d[i].1)
  }

  lemma ValuesSnoc<K, V>(d: Dict<K, V>)
    requires d != []
    ensures Values(d) == Values(d[..|d| - 1]) + [d[|d| - 1].1]
  {
  }

  lemma KeysSnoc<K, V>(d: Dict<K, V>)
    requires d != []
    ensures Keys(d) == Keys(d[..|d| - 1]) + [d[|d| - 1].0]
  {
  }

  /** Looking a key up after appending a pair at the end. */
  lemma {:induction false} GetSnoc<K, V>(d: Dict<K, V>, k0: K, v0: V, k: K)
    ensures Get(d + [(k0, v0)], k) ==
      if k in Keys(d) then Get(d, k) else if k == k0 then Some(v0) else None
    decreases |d|
  {
    var e := d + [(k0, v0)];
    KeysCons(e);
    if d == [] {
      assert e == [(k0, v0)];
    } else {
      KeysCons(d);
      assert e[1..] == d[1..] + [(k0, v0)];
      GetSnoc(d[1..], k0, v0, k);
    }
  }

  /** A second assignment to the same key overwrites the first. */
  lemma {:induction false} PutTwice<K(!new), V>(d: Dict<K, V>, k: K, v1: V, v2: V)
    ensures Put(Put(d, k, v1), k, v2) == Put(d, k, v2)
    decreases |d|
  {
    if d != [] && d[0].0 != k {
      var t := Put(d[1..], k, v1);
      assert ([d[0]] + t)[1..] == t;
      PutTwice(d[1..], k, v1, v2);
    } else if d != [] {
      assert ([(k, v1)] + d[1..])[1..] == d[1..];
    }
  }

  lemma MapSeqAppend<T, U>(f: T -> U, a: seq<T>, b: seq<T>)
    ensures MapSeq(f, a + b) == MapSeq(f, a) + MapSeq(f, b)
  {
  }

  /** What `get` finds is a stored value. */
  lemma {:induction false} GetValue<K, V>(d: Dict<K, V>, k: K)
    requires Get(d, k).Some?
    ensures Get(d, k).value in Values(d)
    decreases |d|
  {
    KeysCons(d);
    if d[0].0 != k {
      GetValue(d[1..], k);
      assert Values(d[1..]) == Values(d)[1..];
    } else {
      assert Values(d)[0] == d[0].1;
    }
  }

  /** What `get` finds stands at some position of the dictionary. */
  lemma {:induction false} GetIndex<K, V>(d: Dict<K, V>, k: K)
    requires Get(d, k).Some?
    ensures exists i :: 0 <= i < |d| && d[i] == (k, Get(d, k).value)
    decreases |d|
  {
    KeysCons(d);
    if d[0].0 != k {
      GetIndex(d[1..], k);
      var i :| 0 <= i < |d| - 1 && d[1..][i] == (k, Get(d[1..], k).value);
      assert d[i + 1] == d[1..][i];
    }
  }

  /** After `PutEach` every stored value is either the one assigned or an old stored value. */
  lemma PutEachValues<T, K(!new), V>(d: Dict<K, V>, xs: seq<T>, key: T -> K, v: V, w: V)
    requires Wf(d)
    requires w in Values(PutEach(d, xs, key, v))
    ensures w == v || w in Values(d)
  {
    var r := PutEach(d, xs, key, v);
    PutEachKeys(d, xs, key, v);
    var i :| 0 <= i < |r| && r[i].1 == w;
    GetAt(r, i);
    var k := r[i].0;
    PutEachGet(d, xs, key, v, k);
    if k !in MapSeq(key, xs) {
      GetValue(d, k);
    }
  }
}
