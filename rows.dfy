/** The rows of a list view in which a separator row is inserted before an
    item whenever its key (the line type, the topic type) differs from the
    key of the item before it. The first item is compared with a starting
    key the caller chooses. */
module Rows {

  datatype Row = Header | Separator | Item(index: nat) | EmptyNotice

  /** The key the loop compares item `i` with: the starting key for the
      first item, else the key of the previous item. */
  function KeyBefore<K>(keys: seq<K>, first: K, i: nat): K
    requires i <= |keys|
  {
    if i == 0 then first else keys[i - 1]
  }

  /** The rows built for `keys`: for each index `i` in turn, a separator
      when `keys[i]` differs from the key before it, then the item row. */
  function SeparatedRows<K(==)>(keys: seq<K>, first: K): seq<Row>
    decreases |keys|
  {
    if |keys| == 0 then []
    else
      var n := |keys| - 1;
      SeparatedRows(keys[..n], first)
        + (if KeyBefore(keys, first, n) != keys[n] then [Separator] else [])
        + [Item(n)]
  }

  /** The indices of the item rows, in order. */
  function ItemIndices(rows: seq<Row>): seq<nat> {
    if |rows| == 0 then []
    else ItemIndices(rows[..|rows| - 1]) + (if rows[|rows| - 1].Item? then [rows[|rows| - 1].index] else [])
  }

  lemma {:induction false} ItemIndicesConcat(a: seq<Row>, b: seq<Row>)
    ensures ItemIndices(a + b) == ItemIndices(a) + ItemIndices(b)
  {
    if |b| > 0 {
      assert (a + b)[..|a + b| - 1] == a + b[..|b| - 1];
      ItemIndicesConcat(a, b[..|b| - 1]);
    } else {
      assert a + b == a;
    }
  }

  /** Only item and separator rows occur; items name valid indices, and the
      last row is an item. */
  lemma {:induction false} SeparatedRowsShape<K>(keys: seq<K>, first: K)
    ensures forall j :: 0 <= j < |SeparatedRows(keys, first)| ==>
              SeparatedRows(keys, first)[j] == Separator ||
              (SeparatedRows(keys, first)[j].Item? && SeparatedRows(keys, first)[j].index < |keys|)
    ensures |keys| > 0 ==> SeparatedRows(keys, first)[|SeparatedRows(keys, first)| - 1] == Item(|keys| - 1)
    ensures |keys| == 0 <==> |SeparatedRows(keys, first)| == 0
    decreases |keys|
  {
    if |keys| > 0 {
      SeparatedRowsShape(keys[..|keys| - 1], first);
    }
  }

  /** The indices 0, 1, ..., n-1 in order. */
  function Range(n: nat): (r: seq<nat>)
    ensures |r| == n && forall i :: 0 <= i < n ==> r[i] == i
  {
    if n == 0 then [] else Range(n - 1) + [n - 1]
  }

  /** The item rows are the indices 0, 1, ..., |keys|-1 in order: every item
      is shown once, in its original position. */
  lemma {:induction false} SeparatedItems<K>(keys: seq<K>, first: K)
    ensures ItemIndices(SeparatedRows(keys, first)) == Range(|keys|)
    decreases |keys|
  {
    if |keys| > 0 {
      var n := |keys| - 1;
      var sep: seq<Row> := if KeyBefore(keys, first, n) != keys[n] then [Separator] else [];
      SeparatedItems(keys[..n], first);
      ItemIndicesConcat(SeparatedRows(keys[..n], first), sep + [Item(n)]);
      ItemIndicesConcat(sep, [Item(n)]);
      assert ItemIndices(sep) == [];
      assert ItemIndices([Item(n)]) == [n] by {
        assert [Item(n)][..0] == [];
      }
      assert SeparatedRows(keys, first) == SeparatedRows(keys[..n], first) + (sep + [Item(n)]);
    }
  }

  /** A separator row stands directly before the item of index `i` exactly
      when `keys[i]` differs from the key before it; every separator is
      followed by an item. */
  lemma {:induction false} SeparatorPlacement<K>(keys: seq<K>, first: K, j: nat)
    requires j < |SeparatedRows(keys, first)|
    ensures SeparatedRows(keys, first)[j].Item? ==>
              var i := SeparatedRows(keys, first)[j].index;
              i < |keys| &&
              ((j > 0 && SeparatedRows(keys, first)[j - 1] == Separator) <==> KeyBefore(keys, first, i) != keys[i])
    ensures SeparatedRows(keys, first)[j] == Separator ==>
              j + 1 < |SeparatedRows(keys, first)| && SeparatedRows(keys, first)[j + 1].Item?
    decreases |keys|
  {
    var n := |keys| - 1;
    var prefix := SeparatedRows(keys[..n], first);
    var sep: seq<Row> := if KeyBefore(keys, first, n) != keys[n] then [Separator] else [];
    var rows := SeparatedRows(keys, first);
    assert rows == prefix + sep + [Item(n)];
    SeparatedRowsShape(keys[..n], first);
    if j < |prefix| {
      SeparatorPlacement(keys[..n], first, j);
      if rows[j].Item? {
        var i := rows[j].index;
        assert KeyBefore(keys[..n], first, i) == KeyBefore(keys, first, i);
      }
      if rows[j] == Separator && j + 1 == |prefix| {
        assert false;
      }
    } else if j < |prefix| + |sep| {
      assert rows[j] == Separator;
      assert rows[j + 1] == Item(n);
    } else {
      assert rows[j] == Item(n);
      if sep == [] && j > 0 {
        assert prefix[|prefix| - 1] == Item(n - 1);
        assert rows[j - 1] == prefix[|prefix| - 1];
      }
    }
  }
}
