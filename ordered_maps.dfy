/**
 * Python dictionaries keep their keys in insertion order, and the snapshot
 * lists follow that order. `OMap` is such a dictionary with string keys: the
 * keys in insertion order beside the key/value map.
 */
module OrderedMaps {
  import opened Seqs

  datatype OMap<V> = OMap(keys: seq<string>, vals: map<string, V>)

  /** No key occurs twice. */
  ghost predicate Distinct(keys: seq<string>) {
    forall i, j :: 0 <= i < j < |keys| ==> keys[i] != keys[j]
  }

  /** The keys are distinct and are exactly the keys of the map. */
  ghost predicate WellFormed<V>(m: OMap<V>) {
    Distinct(m.keys) && m.vals.Keys == set k | k in m.keys
  }

  /** `{}` */
  function Empty<V>(): (r: OMap<V>)
    ensures WellFormed(r) && r.vals == map[]
  {
    OMap([], map[])
  }

  /**
   * `m[k] = v`: an existing key keeps its position and gets the new value;
   * a new key goes last.
   */
  function Put<V>(m: OMap<V>, k: string, v: V): (r: OMap<V>)
    ensures r.vals == m.vals[k := v]
    ensures k in m.vals ==> r.keys == m.keys
    ensures k !in m.vals ==> r.keys == m.keys + [k]
  {
    if k in m.vals then OMap(m.keys, m.vals[k := v]) else OMap(m.keys + [k], m.vals[k := v])
  }

  /** Assignment keeps a dictionary well formed. */
  lemma PutWellFormed<V>(m: OMap<V>, k: string, v: V)
    requires WellFormed(m)
    ensures WellFormed(Put(m, k, v))
  {
    var r := Put(m, k, v);
    if k !in m.vals {
      assert forall i :: 0 <= i < |m.keys| ==> r.keys[i] == m.keys[i];
      assert r.vals.Keys == (set x | x in m.keys) + {k};
    }
  }

  /** Writing the same key twice is the same as writing the second value once. */
  lemma PutPut<V>(m: OMap<V>, k: string, v: V, w: V)
    ensures Put(Put(m, k, v), k, w) == Put(m, k, w)
  {
  }

  /** `list(m.items())`: the entries in key order. */
  function Items<V>(m: OMap<V>): seq<(string, V)> {
    FlatMap(m.keys, (k: string) => if k in m.vals then [(k, m.vals[k])] else [])
  }

  /** In a well-formed dictionary every key yields exactly its own entry, at its own position. */
  lemma ItemsAt<V>(m: OMap<V>)
    requires WellFormed(m)
    ensures |Items(m)| == |m.keys|
    ensures forall i :: 0 <= i < |m.keys| ==> Items(m)[i] == (m.keys[i], m.vals[m.keys[i]])
  {
    FlatMapSingletons(m.keys, (k: string) => if k in m.vals then [(k, m.vals[k])] else []);
  }

  /** Every entry is a key of the map with its value. */
  lemma ItemIn<V>(m: OMap<V>, p: (string, V))
    requires p in Items(m)
    ensures p.0 in m.vals && p.1 == m.vals[p.0]
  {
    FlatMapMember(m.keys, (k: string) => if k in m.vals then [(k, m.vals[k])] else [], p);
  }

  /** The entries' keys are distinct and are exactly the keys of the map. */
  lemma ItemKeys<V>(m: OMap<V>)
    requires WellFormed(m)
    ensures forall i, j :: 0 <= i < j < |Items(m)| ==> Items(m)[i].0 != Items(m)[j].0
    ensures forall t :: t in m.vals <==> exists i :: 0 <= i < |Items(m)| && Items(m)[i].0 == t
  {
    ItemsAt(m);
    forall t | t in m.vals
      ensures exists i :: 0 <= i < |Items(m)| && Items(m)[i].0 == t
    {
      var i :| 0 <= i < |m.keys| && m.keys[i] == t;
      assert Items(m)[i].0 == t;
    }
  }

  /** `len(m)`: the number of keys. */
  function Len<V>(m: OMap<V>): nat {
    |m.keys|
  }

  /** `len(m)` is the number of distinct keys of the map. */
  lemma LenIsCardinality<V>(m: OMap<V>)
    requires WellFormed(m)
    ensures Len(m) == |m.vals|
  {
    DistinctCardinality(m.keys);
  }

  lemma {:induction false} DistinctCardinality(ks: seq<string>)
    requires Distinct(ks)
    ensures |set k | k in ks| == |ks|
  {
    if ks != [] {
      var front := ks[..|ks| - 1];
      DistinctCardinality(front);
      assert (set k | k in ks) == (set k | k in front) + {ks[|ks| - 1]};
      assert ks[|ks| - 1] !in (set k | k in front);
    }
  }
}
