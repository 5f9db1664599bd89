/** The SDK's string-keyed hash map, modelled by the mapping it holds: the
    slots, chains and mutex are layout and are not part of this model. A
    NULL result of the C functions is `None` here. */
module HashMaps {
  import opened Wrappers

  /** No element occurs twice. */
  predicate Distinct<T(==)>(s: seq<T>) {
    forall i, j :: 0 <= i < j < |s| ==> s[i] != s[j]
  }

  /** Lists the elements of a finite set, each exactly once, in an order the
      caller cannot rely on (the order of the buckets in the C code). */
  method ListElements<T(==)>(elements: set<T>) returns (xs: seq<T>)
    ensures |xs| == |elements| && Distinct(xs)
    ensures forall x :: x in xs <==> x in elements
  {
    xs := [];
    var remaining := elements;
    while remaining != {}
      invariant remaining <= elements
      invariant |xs| + |remaining| == |elements|
      invariant Distinct(xs)
      invariant forall x :: x in xs ==> x in elements && x !in remaining
      invariant forall x :: x in elements ==> x in remaining || x in xs
      decreases |remaining|
    {
      var x :| x in remaining;
      xs := xs + [x];
      remaining := remaining - {x};
    }
  }

  class HashMap<V> {
    /** The number of items held. */
    var size: nat
    /** The key/value pairs held. */
    var entries: map<string, V>

    ghost predicate Valid()
      reads this
    {
      size == |entries|
    }

    /** `hash_new`: an empty map; the slot count only shapes the layout. */
    constructor(slots: nat)
      ensures Valid() && entries == map[]
    {
      size := 0;
      entries := map[];
    }

    /** `hash_add`: stores `val` under `key`. When the key was present the old
        value is returned and the key set stays the same; otherwise the key
        is added and nothing is returned. */
    method Add(key: string, val: V) returns (previous: Option<V>)
      requires Valid()
      modifies this
      ensures Valid()
      ensures entries == old(entries)[key := val]
      ensures key in old(entries) ==> previous == Some(old(entries)[key]) && entries.Keys == old(entries).Keys
      ensures key !in old(entries) ==> previous.None? && size == old(size) + 1
    {
      if key in entries {
        previous := Some(entries[key]);
      } else {
        previous := None;
        size := size + 1;
      }
      entries := entries[key := val];
    }

    /** `hash_del`: removes `key` and returns the value it held, or nothing
        when it was absent; afterwards the key is absent. */
    method Del(key: string) returns (removed: Option<V>)
      requires Valid()
      modifies this
      ensures Valid()
      ensures entries == old(entries) - {key} && key !in entries
      ensures key in old(entries) ==> removed == Some(old(entries)[key]) && size == old(size) - 1
      ensures key !in old(entries) ==> removed.None? && entries == old(entries)
    {
      if key in entries {
        removed := Some(entries[key]);
        assert entries.Keys == (entries - {key}).Keys + {key};
        entries := entries - {key};
        size := size - 1;
      } else {
        removed := None;
        assert entries - {key} == entries;
      }
    }

    /** `hash_get`: the value stored under `key`, or nothing. */
    function Get(key: string): (r: Option<V>)
      reads this
      ensures r.Some? <==> key in entries
      ensures r.Some? ==> r.value == entries[key]
    {
      if key in entries then Some(entries[key]) else None
    }

    /** `hash_keys`: every key present, once each. */
    method Keys() returns (keys: seq<string>)
      requires Valid()
      ensures |keys| == size && Distinct(keys)
      ensures forall k :: k in keys <==> k in entries
    {
      keys := ListElements(entries.Keys);
    }

    /** `hash_clear`: empties the map, which stays usable. */
    method Clear()
      modifies this
      ensures Valid() && entries == map[]
    {
      entries := map[];
      size := 0;
    }

    /** `hash_dup`: a new map with the same keys, each value copied by `dup`. */
    method Dup(dup: V -> V) returns (copy: HashMap<V>)
      requires Valid()
      ensures fresh(copy) && copy.Valid()
      ensures copy.entries.Keys == entries.Keys
      ensures forall k :: k in entries ==> copy.entries[k] == dup(entries[k])
    {
      copy := new HashMap(0);
      copy.entries := map k | k in entries :: dup(entries[k]);
      assert copy.entries.Keys == entries.Keys;
      copy.size := size;
    }
  }

  /** `hash_dup_strval`: a copy of a map of strings, keys and values equal. */
  method DupStrval(src: HashMap<string>) returns (copy: HashMap<string>)
    requires src.Valid()
    ensures fresh(copy) && copy.Valid() && copy.entries == src.entries
  {
    copy := src.Dup(s => s);
  }

  /** Adding a key the map lacks and then deleting it restores the map: the
      add reports no previous value, the delete returns the added one. */
  method AddThenDel<V>(m: HashMap<V>, key: string, val: V) returns (previous: Option<V>, removed: Option<V>)
    requires m.Valid() && key !in m.entries
    modifies m
    ensures m.Valid() && previous.None? && removed == Some(val)
    ensures m.entries == old(m.entries) && m.size == old(m.size)
  {
    previous := m.Add(key, val);
    removed := m.Del(key);
    assert m.entries == old(m.entries);
  }
}
