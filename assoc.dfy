/** Insertion-ordered dictionaries (Python 3.7+ `dict`): the keys in the
    order they were first stored, and the value stored under each. */
module Assoc {
  import opened Wrappers
  import opened Seqs

  datatype Dict<K, V> = Dict(keys: seq<K>, values: map<K, V>)

  /** The elements of `s`, as a set. */
  function KeySet<K>(s: seq<K>): set<K>
  {
    if s == [] then {} else KeySet(s[..|s| - 1]) + {s[|s| - 1]}
  }

  lemma {:induction false} KeySetMem<K>(s: seq<K>, k: K)
    ensures k in KeySet(s) <==> k in s
  {
    if s != [] {
      KeySetMem(s[..|s| - 1], k);
      assert s == s[..|s| - 1] + [s[|s| - 1]];
    }
  }

  /** Every key occurs once in the order, and the order lists exactly the
      keys that have values. */
  predicate Valid<K, V>(d: Dict<K, V>)
  {
    && NoDup(d.keys)
    && d.values.Keys == KeySet(d.keys)
  }

  /** In a valid dictionary a key has a value exactly when it is in the
      order. */
  lemma {:induction false} Present<K, V>(d: Dict<K, V>, k: K)
    requires Valid(d)
    ensures k in d.values <==> k in d.keys
  {
    KeySetMem(d.keys, k);
  }

  /** `{}`. */
  function Empty<K, V>(): (r: Dict<K, V>)
    ensures Valid(r) && r.keys == []
  {
    Dict([], map[])
  }

  /** `d.get(k)`. */
  function Get<K, V>(d: Dict<K, V>, k: K): Option<V>
  {
    if k in d.values then Some(d.values[k]) else None
  }

  /** `d.get(k, default)`. */
  function GetOr<K, V>(d: Dict<K, V>, k: K, default: V): V
  {
    if k in d.values then d.values[k] else default
  }

  /** `d[k] = v`: the value of a present key is replaced where the key stands;
      a new key goes to the end of the order. */
  function Put<K, V>(d: Dict<K, V>, k: K, v: V): Dict<K, V>
  {
    Dict(if k in d.values then d.keys else d.keys + [k], d.values[k := v])
  }

  /** Storing keeps a dictionary valid; a new key goes to the end. */
  lemma {:induction false} PutValid<K, V>(d: Dict<K, V>, k: K, v: V)
    requires Valid(d)
    ensures Valid(Put(d, k, v))
    ensures Put(d, k, v).keys == if k in d.keys then d.keys else d.keys + [k]
  {
    KeySetMem(d.keys, k);
    if k !in d.values {
      var keys := d.keys + [k];
      assert keys[..|keys| - 1] == d.keys;
      assert KeySet(keys) == KeySet(d.keys) + {k};
      forall i, j | 0 <= i < j < |keys| ensures keys[i] != keys[j] {
        if j < |d.keys| {
          assert keys[i] == d.keys[i] && keys[j] == d.keys[j];
        } else {
          assert keys[i] == d.keys[i] && d.keys[i] in d.keys;
        }
      }
    }
  }

  function KeyAt<K, V>(d: Dict<K, V>, i: nat): (r: (K, V))
    requires Valid(d) && i < |d.keys|
    ensures r.0 == d.keys[i] && d.keys[i] in d.values && r.1 == d.values[d.keys[i]]
  {
    Present(d, d.keys[i]);
    (d.keys[i], d.values[d.keys[i]])
  }

  /** `list(d.items())`. */
  function Items<K, V>(d: Dict<K, V>): (r: seq<(K, V)>)
    requires Valid(d)
    ensures |r| == |d.keys|
    ensures forall i :: 0 <= i < |r| ==> r[i] == KeyAt(d, i)
  {
    seq(|d.keys|, i requires 0 <= i < |d.keys| => KeyAt(d, i))
  }

  /** `list(d.values())`. */
  function ValuesOf<K, V>(d: Dict<K, V>): (r: seq<V>)
    requires Valid(d)
    ensures |r| == |d.keys|
    ensures forall i :: 0 <= i < |r| ==> d.keys[i] in d.values && r[i] == d.values[d.keys[i]]
  {
    assert forall i :: 0 <= i < |d.keys| ==> d.keys[i] in d.values by {
      forall i | 0 <= i < |d.keys| ensures d.keys[i] in d.values {
        Present(d, d.keys[i]);
      }
    }
    seq(|d.keys|, i requires 0 <= i < |d.keys| => d.values[d.keys[i]])
  }

  /** Each item is a stored pair, and each stored pair is an item. */
  lemma {:induction false} ItemsExact<K, V>(d: Dict<K, V>, k: K, v: V)
    requires Valid(d)
    ensures (k, v) in Items(d) <==> k in d.values && d.values[k] == v
  {
    Present(d, k);
    if k in d.values && d.values[k] == v {
      var i :| 0 <= i < |d.keys| && d.keys[i] == k;
      assert Items(d)[i] == (k, v);
    }
  }

  /** The keys of a list of pairs, in order. */
  function KeysOf<K, V>(entries: seq<(K, V)>): (r: seq<K>)
    ensures |r| == |entries| && forall i :: 0 <= i < |entries| ==> r[i] == entries[i].0
  {
    seq(|entries|, i requires 0 <= i < |entries| => entries[i].0)
  }

  /** `d.update(entries)`: the pairs stored one after the other. */
  function PutAll<K, V>(d: Dict<K, V>, entries: seq<(K, V)>): Dict<K, V>
    decreases |entries|
  {
    if entries == [] then d else PutAll(Put(d, entries[0].0, entries[0].1), entries[1..])
  }

  lemma {:induction false} PutAllValid<K, V>(d: Dict<K, V>, entries: seq<(K, V)>)
    requires Valid(d)
    ensures Valid(PutAll(d, entries))
    ensures forall k :: k in PutAll(d, entries).values <==> k in d.values || k in KeysOf(entries)
    decreases |entries|
  {
    PutAllStaysValid(d, entries);
    forall k ensures k in PutAll(d, entries).values <==> k in d.values || k in KeysOf(entries) {
      PutAllMem(d, entries, k);
    }
  }

  lemma {:induction false} PutAllStaysValid<K, V>(d: Dict<K, V>, entries: seq<(K, V)>)
    requires Valid(d)
    ensures Valid(PutAll(d, entries))
    decreases |entries|
  {
    if entries != [] {
      PutValid(d, entries[0].0, entries[0].1);
      PutAllStaysValid(Put(d, entries[0].0, entries[0].1), entries[1..]);
    }
  }

  lemma {:induction false} PutAllMem<K, V>(d: Dict<K, V>, entries: seq<(K, V)>, k: K)
    ensures k in PutAll(d, entries).values <==> k in d.values || k in KeysOf(entries)
    decreases |entries|
  {
    if entries != [] {
      PutAllMem(Put(d, entries[0].0, entries[0].1), entries[1..], k);
      KeysOfCons(entries);
    }
  }

  lemma {:induction false} KeysOfCons<K, V>(entries: seq<(K, V)>)
    requires entries != []
    ensures KeysOf(entries) == [entries[0].0] + KeysOf(entries[1..])
  {
  }

  /** Storing under a new key appends the pair to the items. */
  lemma {:induction false} PutFreshItems<K, V>(d: Dict<K, V>, k: K, v: V)
    requires Valid(d) && k !in d.keys
    ensures Valid(Put(d, k, v)) && Put(d, k, v).keys == d.keys + [k]
    ensures Items(Put(d, k, v)) == Items(d) + [(k, v)]
  {
    Present(d, k);
    PutValid(d, k, v);
    var d' := Put(d, k, v);
    forall i | 0 <= i < |d.keys| ensures Items(d')[i] == Items(d)[i] {
      assert d.keys[i] != k;
    }
  }

  /** Storing pairs under new, distinct keys appends them to the items. */
  lemma {:induction false} PutAllFresh<K, V>(d: Dict<K, V>, entries: seq<(K, V)>)
    requires Valid(d) && NoDup(KeysOf(entries))
    requires forall i :: 0 <= i < |entries| ==> entries[i].0 !in d.keys
    ensures Valid(PutAll(d, entries))
    ensures Items(PutAll(d, entries)) == Items(d) + entries
    decreases |entries|
  {
    if entries == [] {
      assert Items(d) + entries == Items(d);
    } else {
      var k := entries[0].0;
      var d' := Put(d, k, entries[0].1);
      PutFreshItems(d, k, entries[0].1);
      FreshRest(d.keys, entries);
      PutAllFresh(d', entries[1..]);
      assert PutAll(d, entries) == PutAll(d', entries[1..]);
      ConsAppend(Items(d), entries);
    }
  }

  /** After the first of fresh, distinct keys is stored, the others are
      still fresh and distinct. */
  lemma {:induction false} FreshRest<K, V>(keys: seq<K>, entries: seq<(K, V)>)
    requires entries != [] && NoDup(KeysOf(entries))
    requires forall i :: 0 <= i < |entries| ==> entries[i].0 !in keys
    ensures NoDup(KeysOf(entries[1..]))
    ensures forall i :: 0 <= i < |entries[1..]| ==> entries[1..][i].0 !in keys + [entries[0].0]
  {
    forall i | 0 <= i < |entries[1..]| ensures entries[1..][i].0 !in keys + [entries[0].0] {
      assert KeysOf(entries)[0] != KeysOf(entries)[i + 1];
    }
    assert KeysOf(entries[1..]) == KeysOf(entries)[1..];
  }

  /** Moving the head of a non-empty sequence across an append. */
  lemma {:induction false} ConsAppend<T>(a: seq<T>, e: seq<T>)
    requires e != []
    ensures (a + [e[0]]) + e[1..] == a + e
  {
    assert e == [e[0]] + e[1..];
  }
}
