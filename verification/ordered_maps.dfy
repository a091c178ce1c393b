/** Python's `dict` with string keys, as the handler uses it: entries kept in insertion order,
    each key at most once, and assigning to a key that is already present
    replaces its value without moving it. */
module OrderedMaps {
  import opened Wrappers
  import opened Text

  /** Entries in insertion order. */
  type OrderedMap<V> = seq<(string, V)>

  /** The keys, in insertion order (Python `list(d.keys())`). */
  function Keys<V>(m: OrderedMap<V>): seq<string> {
    seq(|m|, i requires 0 <= i < |m| => m[i].0)
  }

  /** No key occurs twice. */
  predicate Valid<V>(m: OrderedMap<V>) {
    forall i, j :: 0 <= i < j < |m| ==> m[i].0 != m[j].0
  }

  /** Python `d.get(k)`. */
  function Get<V>(m: OrderedMap<V>, k: string): Option<V>
    decreases |m|
  {
    if |m| == 0 then None
    else if m[0].0 == k then Some(m[0].1)
    else Get(m[1..], k)
  }

  /** The key order after assigning to `k`: unchanged when `k` is present,
      `k` appended otherwise. */
  function AddKey(ks: seq<string>, k: string): seq<string> {
    if k in ks then ks else ks + [k]
  }

  /** The key order after assigning to each of `xs` in turn. */
  function AddKeys(ks: seq<string>, xs: seq<string>): seq<string>
    decreases |xs|
  {
    if |xs| == 0 then ks else AddKeys(AddKey(ks, xs[0]), xs[1..])
  }

  /** The keys of a dict filled from `ks` in order: each distinct key once,
      at the position of its first occurrence. */
  function Distinct(ks: seq<string>): seq<string> {
    AddKeys([], ks)
  }

  /** No string occurs twice. */
  predicate NoDuplicates(ks: seq<string>) {
    forall i, j :: 0 <= i < j < |ks| ==> ks[i] != ks[j]
  }

  /** Assigning keys in two runs is assigning them in one. */
  lemma {:induction false} AddKeysAppend(ks: seq<string>, xs: seq<string>, ys: seq<string>)
    ensures AddKeys(ks, xs + ys) == AddKeys(AddKeys(ks, xs), ys)
    decreases |xs|
  {
    if |xs| > 0 {
      assert (xs + ys)[0] == xs[0];
      assert (xs + ys)[1..] == xs[1..] + ys;
      AddKeysAppend(AddKey(ks, xs[0]), xs[1..], ys);
    } else {
      assert xs + ys == ys;
    }
  }

  /** After the assignments the keys are the old keys and the assigned ones,
      each at most once, with the old keys first and in their old order. */
  lemma {:induction false} AddKeysSpec(ks: seq<string>, xs: seq<string>)
    ensures forall x :: x in AddKeys(ks, xs) <==> x in ks || x in xs
    ensures NoDuplicates(ks) ==> NoDuplicates(AddKeys(ks, xs))
    ensures |ks| <= |AddKeys(ks, xs)| && AddKeys(ks, xs)[..|ks|] == ks
    decreases |xs|
  {
    if |xs| > 0 {
      var ks' := AddKey(ks, xs[0]);
      AddKeysSpec(ks', xs[1..]);
      assert ks'[..|ks|] == ks;
      assert forall x :: x in xs <==> x == xs[0] || x in xs[1..];
    }
  }

  /** Python `d[k] = v`. */
  function Put<V>(m: OrderedMap<V>, k: string, v: V): (r: OrderedMap<V>)
    ensures Get(r, k) == Some(v)
    ensures forall k' :: k' != k ==> Get(r, k') == Get(m, k')
    ensures Keys(r) == AddKey(Keys(m), k)
    decreases |m|
  {
    if |m| == 0 then [(k, v)]
    else if m[0].0 == k then
      assert Keys([(k, v)] + m[1..]) == Keys(m);
      assert Keys(m)[0] == k;
      [(k, v)] + m[1..]
    else
      var rest := Put(m[1..], k, v);
      assert Keys(m) == [m[0].0] + Keys(m[1..]);
      assert Keys([m[0]] + rest) == [m[0].0] + Keys(rest);
      [m[0]] + rest
  }

  /** Python `for k, v in zip(ks, vs): d[k] = v`. */
  function PutAll<V>(m: OrderedMap<V>, ks: seq<string>, vs: seq<V>): OrderedMap<V>
    requires |vs| == |ks|
    decreases |ks|
  {
    if |ks| == 0 then m else PutAll(Put(m, ks[0], vs[0]), ks[1..], vs[1..])
  }

  /** After a run of assignments, a key that was assigned holds the value of
      its last assignment, and every other key what it held before. */
  lemma {:induction false} GetPutAll<V>(m: OrderedMap<V>, ks: seq<string>, vs: seq<V>, k: string)
    requires |vs| == |ks|
    ensures Get(PutAll(m, ks, vs), k) == if k in ks then Some(vs[LastIndexOf(ks, k)]) else Get(m, k)
    decreases |ks|
  {
    if |ks| > 0 {
      GetPutAll(Put(m, ks[0], vs[0]), ks[1..], vs[1..], k);
      assert k in ks <==> k == ks[0] || k in ks[1..] by {
        assert ks == [ks[0]] + ks[1..];
      }
    }
  }

  /** Assigning keeps every key at most once. */
  lemma {:induction false} PutValid<V>(m: OrderedMap<V>, k: string, v: V)
    ensures Valid(m) ==> Valid(Put(m, k, v))
    decreases |m|
  {
    if |m| > 0 && m[0].0 != k {
      PutValid(m[1..], k, v);
      assert Keys(m) == [m[0].0] + Keys(m[1..]);
      assert Valid(m) ==> m[0].0 !in Keys(m[1..]);
      ValidCons(m[0], Put(m[1..], k, v));
    }
  }

  /** An entry whose key is new can go in front. */
  lemma ValidCons<V>(entry: (string, V), m: OrderedMap<V>)
    ensures Valid(m) && entry.0 !in Keys(m) ==> Valid([entry] + m)
  {
    if Valid(m) && entry.0 !in Keys(m) {
      var r := [entry] + m;
      forall i, j | 0 <= i < j < |r|
        ensures r[i].0 != r[j].0
      {
        if i == 0 {
          assert r[j].0 == Keys(m)[j - 1];
        }
      }
    }
  }

  /** A key is present exactly when `Get` finds it. */
  lemma {:induction false} GetPresent<V>(m: OrderedMap<V>, k: string)
    ensures Get(m, k).Some? <==> k in Keys(m)
    decreases |m|
  {
    if |m| > 0 {
      assert Keys(m) == [m[0].0] + Keys(m[1..]);
      GetPresent(m[1..], k);
    }
  }

  /** In a map without repeated keys, each entry is what `Get` finds for its key. */
  lemma {:induction false} GetAt<V>(m: OrderedMap<V>, i: nat)
    requires Valid(m) && i < |m|
    ensures Get(m, m[i].0) == Some(m[i].1)
    decreases i
  {
    if i > 0 {
      GetAt(m[1..], i - 1);
    }
  }
}
