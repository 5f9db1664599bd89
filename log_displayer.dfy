/** The list view of topics: a selection cursor moved by key events and
    clamped into the list, and the rows of the list with a separator between
    consecutive items of different type. The cursor logic does not depend on
    what the items are, so the list is given by the types of its items. */
module LogDisplayers {
  import opened Text
  import opened Rows

  /** The events the cursor reacts to; everything else is `Other`. */
  datatype Event = ArrowUp | ArrowDown | Tab | TabReverse | PageUp | PageDown | Character(c: char) | Other

  function Min(a: int, b: int): int {
    if a <= b then a else b
  }

  function Max(a: int, b: int): int {
    if a >= b then a else b
  }

  /** C++ `%` on int: the quotient is truncated toward zero, so the
      remainder takes the sign of the dividend. */
  function CppRem(a: int, b: int): (r: int)
    requires b != 0
    ensures a >= 0 ==> 0 <= r < (if b > 0 then b else -b)
    ensures a >= 0 && b > 0 ==> r == a % b
  {
    var d := if b > 0 then b else -b;
    if a >= 0 then a % d else -((-a) % d)
  }

  /** The cursor after the event, before clamping. */
  function Moved(selected: int, size: int, event: Event): (r: int)
    ensures !(event.Tab? || event.TabReverse?) ==> selected - 10 <= r <= selected + 10
    ensures (event.Tab? || event.TabReverse?) && 0 <= selected < size ==> 0 <= r < size
    ensures (event.Tab? || event.TabReverse?) && size == 0 ==> r == selected
  {
    match event
    case ArrowUp => selected - 1
    case ArrowDown => selected + 1
    case Tab => if size != 0 then CppRem(selected + 1, size) else selected
    case TabReverse => if size != 0 then CppRem(selected + size - 1, size) else selected
    case PageDown => selected + 10
    case PageUp => selected - 10
    case Character(c) => if c == 'k' then selected - 1 else if c == 'j' then selected + 1 else selected
    case Other => selected
  }

  /** `std::max(0, std::min(size - 1, selected))`. */
  function Clamp(selected: int, size: int): (r: int)
    ensures InRange(r, size)
    ensures InRange(selected, size) ==> r == selected
    ensures selected < 0 ==> r == 0
    ensures selected >= size > 0 ==> r == size - 1
  {
    Max(0, Min(size - 1, selected))
  }

  /** A cursor inside the list, or 0 when the list is empty. */
  predicate InRange(selected: int, size: int) {
    0 <= selected <= Max(0, size - 1)
  }

  // ---------------------------------------------------------------------
  // Properties of the cursor.
  // ---------------------------------------------------------------------

  /** Clamping puts the cursor at 0 on a list of at most one item, a second
      clamp changes nothing, and clamping keeps the order of two cursors. */
  lemma ClampInRange(selected: int, other: int, size: int)
    ensures size <= 1 ==> Clamp(selected, size) == 0
    ensures Clamp(Clamp(selected, size), size) == Clamp(selected, size)
    ensures selected <= other ==> Clamp(selected, size) <= Clamp(other, size)
  {
  }

  /** Up and down move by one inside the list and stop at its ends. */
  lemma ArrowsMoveByOne(selected: int, size: int)
    requires 0 <= selected < size
    ensures Clamp(Moved(selected, size, ArrowUp), size) == Max(0, selected - 1)
    ensures Clamp(Moved(selected, size, ArrowDown), size) == Min(size - 1, selected + 1)
    ensures Clamp(Moved(selected, size, Character('k')), size) == Clamp(Moved(selected, size, ArrowUp), size)
    ensures Clamp(Moved(selected, size, Character('j')), size) == Clamp(Moved(selected, size, ArrowDown), size)
  {
  }

  /** Page keys move by ten and stop at the ends of the list. */
  lemma PagesMoveByTen(selected: int, size: int)
    requires 0 <= selected < size
    ensures Clamp(Moved(selected, size, PageUp), size) == Max(0, selected - 10)
    ensures Clamp(Moved(selected, size, PageDown), size) == Min(size - 1, selected + 10)
  {
  }

  /** A remainder of a dividend below the divisor is the dividend. */
  lemma ModBelow(a: int, n: int)
    requires 0 <= a < n
    ensures a % n == a
  {
  }

  /** A remainder of a dividend between one and two divisors subtracts one divisor. */
  lemma ModOnceOver(a: int, n: int)
    requires 0 < n <= a < 2 * n
    ensures a % n == a - n
  {
    ModBelow(a - n, n);
  }

  /** Tab moves to the next item and wraps from the last to the first;
      TabReverse moves to the previous one and wraps from the first to the
      last. */
  lemma TabWraps(selected: int, size: int)
    requires 0 <= selected < size
    ensures Clamp(Moved(selected, size, Tab), size) == if selected == size - 1 then 0 else selected + 1
    ensures Clamp(Moved(selected, size, TabReverse), size) == if selected == 0 then size - 1 else selected - 1
  {
    if selected < size - 1 {
      ModBelow(selected + 1, size);
    } else {
      ModOnceOver(selected + 1, size);
    }
    if selected > 0 {
      ModOnceOver(selected + size - 1, size);
    } else {
      ModBelow(selected + size - 1, size);
    }
  }

  /** TabReverse undoes Tab and Tab undoes TabReverse. */
  lemma TabRoundTrip(selected: int, size: int)
    requires 0 <= selected < size
    ensures Clamp(Moved(Clamp(Moved(selected, size, Tab), size), size, TabReverse), size) == selected
    ensures Clamp(Moved(Clamp(Moved(selected, size, TabReverse), size), size, Tab), size) == selected
  {
    TabWraps(selected, size);
    var next := Clamp(Moved(selected, size, Tab), size);
    var previous := Clamp(Moved(selected, size, TabReverse), size);
    TabWraps(next, size);
    TabWraps(previous, size);
  }

  /** On an empty list Tab and TabReverse do nothing and every event leaves
      the cursor at 0. */
  lemma EmptyListStays(selected: int, event: Event)
    ensures Moved(selected, 0, Tab) == selected && Moved(selected, 0, TabReverse) == selected
    ensures Clamp(Moved(selected, 0, event), 0) == 0
  {
  }

  /** Any other event leaves a cursor that is in range where it is. */
  lemma OtherKeysIgnored(selected: int, size: int, c: char)
    requires InRange(selected, size) && c != 'j' && c != 'k'
    ensures Clamp(Moved(selected, size, Character(c)), size) == selected
    ensures Clamp(Moved(selected, size, Other), size) == selected
  {
  }

  // ---------------------------------------------------------------------
  // The rows of the list.
  // ---------------------------------------------------------------------

  /** The lengths of the types, in order. */
  function TypeLengths(types: seq<string>): (r: seq<int>)
    ensures |r| == |types| && forall i :: 0 <= i < |types| ==> r[i] == |types[i]|
  {
    seq(|types|, i requires 0 <= i < |types| => |types[i]|)
  }

  /** The rows of the list: the items with a separator before each item
      whose type differs from the previous one, or the "(empty)" notice. */
  function ListRows(types: seq<string>): seq<Row> {
    if |types| == 0 then [EmptyNotice] else SeparatedRows(types, types[0])
  }

  /** A list with the first item's type as the starting key never starts
      with a separator. */
  lemma {:induction false} FirstRowIsItem(types: seq<string>)
    requires |types| > 0
    ensures |SeparatedRows(types, types[0])| > 0 && SeparatedRows(types, types[0])[0] == Item(0)
    decreases |types|
  {
    var n := |types| - 1;
    if n > 0 {
      assert types[..n][0] == types[0];
      FirstRowIsItem(types[..n]);
    } else {
      assert SeparatedRows(types[..n], types[0]) == [];
    }
  }

  /** A non-empty list shows each item exactly once, in order, starts with
      an item, and has a separator right before item `i` exactly when `i`
      is not the first and its type differs from that of item `i - 1`. */
  lemma ListSeparators(types: seq<string>, j: nat)
    requires |types| > 0 && j < |ListRows(types)|
    ensures ItemIndices(ListRows(types)) == Range(|types|)
    ensures ListRows(types)[0] == Item(0)
    ensures ListRows(types)[j].Item? ==>
              var i := ListRows(types)[j].index;
              i < |types| &&
              ((j > 0 && ListRows(types)[j - 1] == Separator) <==> (i > 0 && types[i - 1] != types[i]))
  {
    SeparatedItems(types, types[0]);
    FirstRowIsItem(types);
    SeparatorPlacement(types, types[0], j);
  }

  /** An empty list is the single "(empty)" row. */
  lemma EmptyListRows()
    ensures ListRows([]) == [EmptyNotice]
  {
  }

  class LogDisplayer {
    var selected: int
    var size: int

    /** The cursor is inside the list (or 0 when it is empty). */
    ghost predicate Valid()
      reads this
    {
      InRange(selected, size)
    }

    constructor()
      ensures selected == 0 && size == 0
      ensures Valid()
    {
      selected := 0;
      size := 0;
    }

    /** Moves the cursor for a key event when the view has the focus;
        reports whether the cursor moved. */
    method OnEvent(event: Event, focused: bool) returns (changed: bool)
      modifies `selected
      ensures !focused ==> !changed && selected == old(selected)
      ensures focused ==> selected == Clamp(Moved(old(selected), size, event), size)
      ensures focused ==> Valid()
      ensures changed <==> selected != old(selected)
      ensures old(Valid()) ==> Valid()
    {
      if !focused {
        return false;
      }
      var oldSelected := selected;
      if event == ArrowUp || event == Character('k') {
        selected := selected - 1;
      }
      if event == ArrowDown || event == Character('j') {
        selected := selected + 1;
      }
      if event == Tab && size != 0 {
        selected := CppRem(selected + 1, size);
      }
      if event == TabReverse && size != 0 {
        selected := CppRem(selected + size - 1, size);
      }
      if event == PageDown {
        selected := selected + 10;
      }
      if event == PageUp {
        selected := selected - 10;
      }
      assert selected == Moved(oldSelected, size, event);
      selected := Max(0, Min(size - 1, selected));
      changed := selected != oldSelected;
    }

    /** Resets the cursor when the number of items changed, records the new
        count, and builds the list rows and the width of the type column. */
    method RenderLines(types: seq<string>) returns (rows: seq<Row>, sizeType: int)
      modifies this
      ensures size == |types|
      ensures selected == if old(size) != |types| then 0 else old(selected)
      ensures old(Valid()) ==> Valid()
      ensures sizeType == MaxFrom(5, TypeLengths(types))
      ensures rows == ListRows(types)
    {
      if size != |types| {
        selected := 0;
      }
      size := |types|;
      sizeType := TypeColumnWidth(types);
      rows := BuildRows(types);
    }
  }

  /** The width of the type column: the longest type, and at least 5. */
  method TypeColumnWidth(types: seq<string>) returns (sizeType: int)
    ensures sizeType == MaxFrom(5, TypeLengths(types))
  {
    sizeType := 5;
    var i := 0;
    while i < |types|
      invariant 0 <= i <= |types|
      invariant sizeType == MaxFrom(5, TypeLengths(types)[..i])
    {
      assert TypeLengths(types)[..i + 1][..i] == TypeLengths(types)[..i];
      sizeType := Max(sizeType, |types[i]|);
      i := i + 1;
    }
    assert TypeLengths(types)[..i] == TypeLengths(types);
  }

  /** The rows of the list: a separator before each change of type, or the
      "(empty)" notice for an empty list. */
  method BuildRows(types: seq<string>) returns (rows: seq<Row>)
    ensures rows == ListRows(types)
  {
    var previousType := if |types| != 0 then types[0] else "";
    rows := [];
    var i := 0;
    while i < |types|
      invariant 0 <= i <= |types|
      invariant rows == SeparatedRows(types[..i], StartKey(types))
      invariant previousType == KeyBefore(types, StartKey(types), i)
    {
      assert types[..i + 1][..i] == types[..i];
      if previousType != types[i] {
        rows := rows + [Separator];
      }
      previousType := types[i];
      rows := rows + [Item(i)];
      i := i + 1;
    }
    assert types[..i] == types;
    SeparatedRowsShape(types, StartKey(types));
    if |rows| == 0 {
      rows := rows + [EmptyNotice];
    }
  }

  /** The starting key of the separator loop. */
  function StartKey(types: seq<string>): string {
    if |types| != 0 then types[0] else ""
  }
}
