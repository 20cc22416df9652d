/**
 Generic helpers shared by the scenario generator: an Option type for
 lookups that can fail, distinctness of sequences, and the "mapping keyed
 by identifier" construction that the generator uses for perceptions,
 relationships, deltas and activations.
 */
module Collections {

  datatype Option<+T> = None | Some(value: T)

  /** No element occurs twice in `s`. */
  predicate Distinct<T(==)>(s: seq<T>) {
    forall i, j :: 0 <= i < j < |s| ==> s[i] != s[j]
  }

  /** The elements of `s`, as a set. */
  function Elems<T>(s: seq<T>): set<T> {
    set x | x in s
  }

  /** An index at which `x` occurs in `s`. */
  lemma Position<T>(s: seq<T>, x: T) returns (i: nat)
    requires x in s
    ensures i < |s| && s[i] == x
  {
    i :| i < |s| && s[i] == x;
  }

  /**
   A Python dict comprehension pairing `keys[i]` with `vals[i]`:
   entries are inserted left to right, so a later duplicate key wins
   (`ZipMapAppend`).
   */
  function ZipMap<K, V>(keys: seq<K>, vals: seq<V>): (m: map<K, V>)
    requires |keys| == |vals|
    ensures m.Keys == Elems(keys)
    ensures forall k :: k in m ==> m[k] in vals
    ensures Distinct(keys) ==> forall i :: 0 <= i < |keys| ==> m[keys[i]] == vals[i]
    decreases |keys|
  {
    if keys == [] then map[]
    else
      var n := |keys| - 1;
      var prev := ZipMap(keys[..n], vals[..n]);
      var m := prev[keys[n] := vals[n]];
      ZipMapKeysStep(keys, keys[..n], prev, m);
      ZipMapValuesStep(vals, vals[..n], prev, m);
      ZipMapLookupStep(keys, vals, keys[..n], vals[..n], prev, m);
      m
  }

  /**
   Each insertion overwrites: appending the pair (k, v) gives the earlier
   map updated at `k`, so a later duplicate key wins.
   */
  lemma ZipMapAppend<K, V>(keys: seq<K>, vals: seq<V>, k: K, v: V)
    requires |keys| == |vals|
    ensures ZipMap(keys + [k], vals + [v]) == ZipMap(keys, vals)[k := v]
  {
    assert (keys + [k])[..|keys|] == keys;
    assert (vals + [v])[..|vals|] == vals;
  }

  /** Adding the last key to the map of the others gives the keys of the whole sequence. */
  lemma ZipMapKeysStep<K, V>(keys: seq<K>, front: seq<K>, prev: map<K, V>, m: map<K, V>)
    requires |keys| > 0 && front == keys[..|keys| - 1]
    requires prev.Keys == Elems(front) && m.Keys == prev.Keys + {keys[|keys| - 1]}
    ensures m.Keys == Elems(keys)
  {
    assert keys == front + [keys[|keys| - 1]];
  }

  /** Values taken from a prefix of `vals`, plus its last entry, are values of `vals`. */
  lemma ZipMapValuesStep<K, V>(vals: seq<V>, front: seq<V>, prev: map<K, V>, m: map<K, V>)
    requires |vals| > 0 && front == vals[..|vals| - 1]
    requires forall k :: k in prev ==> prev[k] in front
    requires forall k :: k in m ==> m[k] == vals[|vals| - 1] || (k in prev && m[k] == prev[k])
    ensures forall k :: k in m ==> m[k] in vals
  {
    forall k | k in prev ensures prev[k] in vals {
      var i :| 0 <= i < |front| && front[i] == prev[k];
      assert vals[i] == prev[k];
    }
  }

  /** With distinct keys, the last insertion leaves the earlier keys' values alone. */
  lemma ZipMapLookupStep<K, V>(keys: seq<K>, vals: seq<V>, fkeys: seq<K>, fvals: seq<V>,
                               prev: map<K, V>, m: map<K, V>)
    requires |keys| == |vals| > 0
    requires fkeys == keys[..|keys| - 1] && fvals == vals[..|vals| - 1]
    requires prev.Keys == Elems(fkeys)
    requires Distinct(fkeys) ==> forall i :: 0 <= i < |fkeys| ==> prev[fkeys[i]] == fvals[i]
    requires m == prev[keys[|keys| - 1] := vals[|vals| - 1]]
    ensures Distinct(keys) ==> forall i :: 0 <= i < |keys| ==> m[keys[i]] == vals[i]
  {
    var n := |keys| - 1;
    if Distinct(keys) {
      assert Distinct(fkeys);
      forall i | 0 <= i < |keys| ensures m[keys[i]] == vals[i] {
        if i < n {
          assert fkeys[i] == keys[i] && fvals[i] == vals[i];
          assert keys[i] != keys[n];
        }
      }
    }
  }

  /**
   With distinct keys, the dict comprehension is the only map whose keys
   are exactly `keys` and that sends each key to its value.
   */
  lemma ZipMapUnique<K, V>(m: map<K, V>, keys: seq<K>, vals: seq<V>)
    requires |keys| == |vals| && Distinct(keys)
    requires m.Keys == Elems(keys)
    requires forall i :: 0 <= i < |keys| ==> m[keys[i]] == vals[i]
    ensures m == ZipMap(keys, vals)
  {
    var r := ZipMap(keys, vals);
    assert m.Keys == r.Keys;
    forall x | x in m ensures m[x] == r[x] {
      var i := Position(keys, x);
    }
    assert m == r;
  }
}
