/** The SDK's doubly linked list, modelled by the sequence of data its nodes
    hold from `first` to `last`. A node argument is denoted by its position in
    that sequence; the relinking of `prev`/`next` pointers is not part of this
    model. A NULL result of the C functions is `None` here. */
module LinkedLists {
  import opened Wrappers

  /** `s` with `x` placed so that it becomes element `i`. */
  function InsertAt<T>(s: seq<T>, i: nat, x: T): (r: seq<T>)
    requires i <= |s|
    ensures |r| == |s| + 1 && r[i] == x
    ensures forall j :: 0 <= j < i ==> r[j] == s[j]
    ensures forall j :: i <= j < |s| ==> r[j + 1] == s[j]
  {
    s[..i] + [x] + s[i..]
  }

  /** Placing at the front and at the back are the two ends of `InsertAt`,
      and taking the placed element back out leaves the original sequence. */
  lemma InsertAtEnds<T>(s: seq<T>, i: nat, x: T)
    requires i <= |s|
    ensures InsertAt(s, 0, x) == [x] + s
    ensures InsertAt(s, |s|, x) == s + [x]
    ensures InsertAt(s, i, x)[..i] + InsertAt(s, i, x)[i + 1..] == s
  {
    assert s[..0] == [] && s[0..] == s;
    assert s[..|s|] == s && s[|s|..] == [];
    var r := InsertAt(s, i, x);
    assert r[..i] == s[..i];
    assert r[i + 1..] == s[i..];
    assert s[..i] + s[i..] == s;
  }

  class LinkedList<T> {
    /** The data of the nodes, first to last. */
    var items: seq<T>

    /** `list_create`: an empty list. */
    constructor()
      ensures items == []
    {
      items := [];
    }

    /** `list_insert`: a new node holding `data` immediately before the node
        at position `where`. */
    method Insert(where: nat, data: T)
      requires where < |items|
      modifies this
      ensures items == InsertAt(old(items), where, data)
      ensures items[where] == data && items[where + 1] == old(items)[where]
    {
      items := items[..where] + [data] + items[where..];
    }

    /** `list_append`: a new node holding `data` immediately after the node
        at position `where`. */
    method Append(where: nat, data: T)
      requires where < |items|
      modifies this
      ensures items == InsertAt(old(items), where + 1, data)
      ensures items[where] == old(items)[where] && items[where + 1] == data
    {
      items := items[..where + 1] + [data] + items[where + 1..];
    }

    /** `list_insert_first`: `data` becomes the first element. */
    method InsertFirst(data: T)
      modifies this
      ensures items == [data] + old(items)
    {
      items := [data] + items;
    }

    /** `list_append_last`: `data` becomes the last element. */
    method AppendLast(data: T)
      modifies this
      ensures items == old(items) + [data]
    {
      items := items + [data];
    }

    /** `list_get_data_first`: the first data, or nothing on an empty list. */
    function GetDataFirst(): (r: Option<T>)
      reads this
      ensures r.Some? <==> |items| > 0
      ensures r.Some? ==> r.value == items[0]
    {
      if |items| > 0 then Some(items[0]) else None
    }

    /** `list_get_data_last`: the last data, or nothing on an empty list. */
    function GetDataLast(): (r: Option<T>)
      reads this
      ensures r.Some? <==> |items| > 0
      ensures r.Some? ==> r.value == items[|items| - 1]
    {
      if |items| > 0 then Some(items[|items| - 1]) else None
    }

    /** `list_get_data_indexed`: the data of node `index` counting from 0,
        or nothing when the index is negative or past the end. */
    function GetDataIndexed(index: int): (r: Option<T>)
      reads this
      ensures r.Some? <==> 0 <= index < |items|
      ensures r.Some? ==> r.value == items[index]
      ensures index == 0 ==> r == GetDataFirst()
      ensures index == |items| - 1 ==> r == GetDataLast()
    {
      if 0 <= index < |items| then Some(items[index]) else None
    }

    /** `list_append_list`: `src`'s nodes are linked after this list's last
        node, so this list becomes this ++ src. */
    method AppendList(src: LinkedList<T>)
      modifies this
      ensures items == old(items) + old(src.items)
      ensures src != this ==> src.items == old(src.items)
    {
      items := items + src.items;
    }

    /** `list_dup`: a new list with each data copied by `copy`, in order. */
    method Dup(copy: T -> T) returns (list: LinkedList<T>)
      ensures fresh(list) && |list.items| == |items|
      ensures forall i :: 0 <= i < |items| ==> list.items[i] == copy(items[i])
    {
      var xs := items;
      list := new LinkedList();
      list.items := seq(|xs|, i requires 0 <= i < |xs| => copy(xs[i]));
    }
  }
}
