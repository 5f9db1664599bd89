/** The SDK's hash set, modelled by its membership: the buckets, the hash
    function and the duplicate/free hooks are not part of this model, and the
    comparison function is taken to be equality. A NULL result of the C
    functions is `None` here. */
module HashSets {
  import opened Wrappers
  import opened HashMaps

  class HashSet<T(==)> {
    /** The number of items held. */
    var size: nat
    /** The values held. */
    var members: set<T>

    ghost predicate Valid()
      reads this
    {
      size == |members|
    }

    /** `set_new`: an empty set. */
    constructor(slots: nat)
      ensures Valid() && members == {}
    {
      size := 0;
      members := {};
    }

    /** `set_add`: a value already present is returned and the set is left
        as it was; a new value is added and nothing is returned. */
    method Add(val: T) returns (existing: Option<T>)
      requires Valid()
      modifies this
      ensures Valid()
      ensures members == old(members) + {val}
      ensures val in old(members) ==> existing == Some(val) && members == old(members) && size == old(size)
      ensures val !in old(members) ==> existing.None? && size == old(size) + 1
    {
      if val in members {
        return Some(val);
      }
      members := members + {val};
      size := size + 1;
      existing := None;
    }

    /** `set_del`: removes `val` and returns it, or returns nothing when it
        was not a member; afterwards it is not a member. */
    method Del(val: T) returns (removed: Option<T>)
      requires Valid()
      modifies this
      ensures Valid()
      ensures members == old(members) - {val} && val !in members
      ensures val in old(members) ==> removed == Some(val) && size == old(size) - 1
      ensures val !in old(members) ==> removed.None? && members == old(members)
    {
      if val in members {
        removed := Some(val);
        assert members == (members - {val}) + {val};
        members := members - {val};
        size := size - 1;
      } else {
        removed := None;
      }
    }

    /** `set_contains`: the value when it is a member, else nothing. */
    function Contains(val: T): (r: Option<T>)
      reads this
      ensures r.Some? <==> val in members
      ensures r.Some? ==> r.value == val
    {
      if val in members then Some(val) else None
    }

    /** `set_values`: every member, once each. */
    method Values() returns (values: seq<T>)
      requires Valid()
      ensures |values| == size && Distinct(values)
      ensures forall x :: x in values <==> x in members
    {
      values := ListElements(members);
    }

    /** `set_dup`: a new set with the same members. */
    method Dup() returns (copy: HashSet<T>)
      requires Valid()
      ensures fresh(copy) && copy.Valid() && copy.members == members
    {
      copy := new HashSet(0);
      copy.members := members;
      copy.size := size;
    }
  }

  /** Adding a value twice is adding it once: the second add finds the value
      and leaves the set as the first add made it. */
  method AddTwice<T(==)>(s: HashSet<T>, val: T) returns (first: Option<T>, second: Option<T>)
    requires s.Valid()
    modifies s
    ensures s.Valid() && second == Some(val)
    ensures first.Some? <==> val in old(s.members)
    ensures s.members == old(s.members) + {val}
    ensures s.size == old(s.size) + (if val in old(s.members) then 0 else 1)
  {
    first := s.Add(val);
    ghost var once := s.members;
    second := s.Add(val);
    assert s.members == once;
  }
}
