/** `ObjectMap`: a keyed store kept in a plain object, with a size counter
    that moves by one on every `set` and every `delete`, whether or not the
    key was there. */
module ObjectMaps {
  import opened Js

  /** No key appears twice. */
  ghost predicate Distinct<K>(ks: seq<K>)
  {
    forall i, j :: 0 <= i < j < |ks| ==> ks[i] != ks[j]
  }

  /** The abstract state of an ObjectMap: the object's own keys in property
      order, the value stored under each, and the `count` field. */
  datatype Store<K, V> = Store(keys: seq<K>, entries: map<K, V>, count: int)

  ghost predicate WellFormed<K(!new), V>(s: Store<K, V>)
  {
    Distinct(s.keys) && forall k :: k in s.entries <==> k in s.keys
  }

  const Empty: Store<string, nat> := Store([], map[], 0)

  function Lookup<K(==, !new), V>(s: Store<K, V>, k: K): Option<V>
  {
    if k in s.entries then Some(s.entries[k]) else None
  }

  /** `keys` with `k` taken out (`delete storage[k]`). */
  function Without<K(==, !new)>(ks: seq<K>, k: K): (r: seq<K>)
    ensures forall x :: x in r <==> x in ks && x != k
    ensures Distinct(ks) ==> Distinct(r) && |r| == |ks| - (if k in ks then 1 else 0)
  {
    if ks == [] then []
    else if ks[0] == k then
      Without(ks[1..], k)
    else
      var rest := Without(ks[1..], k);
      ConsKeepsDistinct(ks, rest);
      [ks[0]] + rest
  }

  lemma HeadNotInTail<K>(ks: seq<K>)
    requires Distinct(ks) && ks != []
    ensures ks[0] !in ks[1..]
  {
    forall j | 0 <= j < |ks[1..]| ensures ks[1..][j] != ks[0] {
      assert ks[1..][j] == ks[j + 1];
    }
  }

  lemma DistinctCons<K>(x: K, rest: seq<K>)
    requires Distinct(rest) && x !in rest
    ensures Distinct([x] + rest)
  {
    var r := [x] + rest;
    forall i, j | 0 <= i < j < |r| ensures r[i] != r[j] {
      assert r[j] == rest[j - 1];
      if i > 0 {
        assert r[i] == rest[i - 1];
      }
    }
  }

  lemma ConsKeepsDistinct<K>(ks: seq<K>, rest: seq<K>)
    requires ks != []
    requires forall x :: x in rest ==> x in ks[1..]
    requires Distinct(ks[1..]) ==> Distinct(rest)
    ensures Distinct(ks) ==> Distinct([ks[0]] + rest)
  {
    if Distinct(ks) {
      HeadNotInTail(ks);
      assert Distinct(ks[1..]);
      DistinctCons(ks[0], rest);
    }
  }

  /** `set(k, v)`: stores `v` under `k` and adds one to `count`. */
  function Put<K(==, !new), V>(s: Store<K, V>, k: K, v: V): (r: Store<K, V>)
    requires WellFormed(s)
    ensures WellFormed(r)
    ensures Lookup(r, k) == Some(v)
    ensures forall other :: other != k ==> Lookup(r, other) == Lookup(s, other)
    ensures r.count == s.count + 1
    ensures |r.keys| == |s.keys| + (if k in s.entries then 0 else 1)
  {
    Store(if k in s.entries then s.keys else s.keys + [k], s.entries[k := v], s.count + 1)
  }

  /** `delete(k)`: removes `k` and takes one from `count`. */
  function Remove<K(==, !new), V>(s: Store<K, V>, k: K): (r: Store<K, V>)
    requires WellFormed(s)
    ensures WellFormed(r)
    ensures Lookup(r, k) == None
    ensures forall other :: other != k ==> Lookup(r, other) == Lookup(s, other)
    ensures r.count == s.count - 1
    ensures |r.keys| == |s.keys| - (if k in s.entries then 1 else 0)
  {
    Store(Without(s.keys, k), s.entries - {k}, s.count - 1)
  }

  lemma {:induction false} DistinctCard<K>(ks: seq<K>)
    requires Distinct(ks)
    ensures |set k | k in ks| == |ks|
  {
    if ks != [] {
      DistinctCard(ks[1..]);
      var tail := set k | k in ks[1..];
      assert (set k | k in ks) == {ks[0]} + tail;
    }
  }

  /** The number of stored keys is the length of the property order. */
  lemma StoredKeys<K(!new), V>(s: Store<K, V>)
    requires WellFormed(s)
    ensures |s.entries| == |s.keys|
  {
    DistinctCard(s.keys);
    assert s.entries.Keys == set k | k in s.keys;
  }

  /** `size` is `count`, not the number of stored keys: setting the same key
      twice leaves one key and a size of two; deleting an absent key brings
      the size below the number of keys. */
  lemma SizeIsNotKeyCount(k: string, v: nat)
    ensures var twice := Put(Put(Empty, k, v), k, v);
            twice.count == 2 && |twice.entries| == 1
    ensures var phantom := Remove(Empty, k);
            phantom.count == -1 && |phantom.entries| == 0
  {
    var once := Put(Empty, k, v);
    StoredKeys(Put(once, k, v));
    StoredKeys(Remove(Empty, k));
  }

  class ObjectMap<K(==, !new), V> {
    /** Property order of `storage` (insertion order). */
    var keys: seq<K>
    var storage: map<K, V>
    var count: int
    /** How many `set` calls found their key already present, and how many
        `delete` calls found their key absent. */
    ghost var overwrites: nat
    ghost var phantomDeletes: nat

    function Snap(): Store<K, V>
      reads this
    {
      Store(keys, storage, count)
    }

    /** `count` is exact up to the overwrites and phantom deletes so far. */
    ghost predicate Valid()
      reads this
    {
      WellFormed(Snap()) && count == |keys| + overwrites - phantomDeletes
    }

    constructor ()
      ensures Valid() && Snap() == Store([], map[], 0)
      ensures overwrites == 0 && phantomDeletes == 0
    {
      keys, storage, count := [], map[], 0;
      overwrites, phantomDeletes := 0, 0;
    }

    method Get(k: K) returns (r: Option<V>)
      ensures r == Lookup(Snap(), k)
    {
      r := if k in storage then Some(storage[k]) else None;
    }

    method Set(k: K, v: V)
      requires Valid()
      modifies this
      ensures Valid() && Snap() == Put(old(Snap()), k, v)
      ensures overwrites == old(overwrites) + (if k in old(storage) then 1 else 0)
      ensures phantomDeletes == old(phantomDeletes)
    {
      if k in storage {
        overwrites := overwrites + 1;
      } else {
        keys := keys + [k];
      }
      count := count + 1;
      storage := storage[k := v];
    }

    method Delete(k: K)
      requires Valid()
      modifies this
      ensures Valid() && Snap() == Remove(old(Snap()), k)
      ensures phantomDeletes == old(phantomDeletes) + (if k in old(storage) then 0 else 1)
      ensures overwrites == old(overwrites)
    {
      if k !in storage {
        phantomDeletes := phantomDeletes + 1;
      }
      count := count - 1;
      keys := Without(keys, k);
      storage := storage - {k};
    }

    /** The `size` getter. With no overwrite and no phantom delete it is the
        number of stored keys. */
    method Size() returns (n: int)
      requires Valid()
      ensures n == count
      ensures n == |storage| + overwrites - phantomDeletes
    {
      StoredKeys(Snap());
      n := count;
    }

    /** `map(transform)`: one transformed element per stored value, in
        property order. */
    method Map<O>(transform: V -> O) returns (out: seq<O>)
      requires Valid()
      ensures |out| == |keys| == |storage|
      ensures forall i :: 0 <= i < |keys| ==> keys[i] in storage && out[i] == transform(storage[keys[i]])
      ensures forall k :: k in storage ==> exists i :: 0 <= i < |out| && out[i] == transform(storage[k])
    {
      StoredKeys(Snap());
      out := [];
      var i := 0;
      while i < |keys|
        invariant 0 <= i <= |keys|
        invariant |out| == i
        invariant forall j :: 0 <= j < i ==> out[j] == transform(storage[keys[j]])
      {
        out := out + [transform(storage[keys[i]])];
        i := i + 1;
      }
      forall k | k in storage
        ensures exists i :: 0 <= i < |out| && out[i] == transform(storage[k])
      {
        var i :| 0 <= i < |keys| && keys[i] == k;
        assert out[i] == transform(storage[k]);
      }
    }

    /** `forEach(callback)`: the key-value pairs handed to the callback, in
        property order, one per stored key. */
    method Entries() returns (out: seq<(K, V)>)
      requires Valid()
      ensures |out| == |keys|
      ensures forall i :: 0 <= i < |out| ==> out[i].0 == keys[i] && keys[i] in storage && out[i].1 == storage[keys[i]]
      ensures forall k :: k in storage <==> exists i :: 0 <= i < |out| && out[i].0 == k
    {
      out := [];
      var i := 0;
      while i < |keys|
        invariant 0 <= i <= |keys|
        invariant |out| == i
        invariant forall j :: 0 <= j < i ==> out[j] == (keys[j], storage[keys[j]])
      {
        out := out + [(keys[i], storage[keys[i]])];
        i := i + 1;
      }
      forall k | k in storage ensures exists i :: 0 <= i < |out| && out[i].0 == k {
        var i :| 0 <= i < |keys| && keys[i] == k;
        assert out[i].0 == k;
      }
    }
  }
}
