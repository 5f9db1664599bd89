/** The recovery buffer: a bounded history of the messages already sent to
    the server, each numbered by a running sequence counter, kept so that
    they can be replayed after a reconnection. Putting into a full buffer
    evicts the oldest entry, so the buffer always holds the newest ones. */
module RecoveryBuffers {
  import opened Wrappers

  datatype Entry<T> = Entry(seqnum: int, data: T)

  /** The last `n` elements of `s`, or all of them when there are fewer. */
  function Window<T>(s: seq<T>, n: nat): (w: seq<T>)
    ensures |w| == if |s| <= n then |s| else n
    ensures forall i :: 0 <= i < |w| ==> w[i] == s[|s| - |w| + i]
  {
    if |s| <= n then s else s[|s| - n..]
  }

  /** The sequence numbers run consecutively up to `newest`. */
  ghost predicate Consecutive<T>(entries: seq<Entry<T>>, newest: int) {
    forall i :: 0 <= i < |entries| ==> entries[i].seqnum == newest - |entries| + 1 + i
  }

  /** The entries after a put: the new entry, numbered one past the
      counter, appended, the oldest dropped when there is no room. */
  function PutEntries<T>(entries: seq<Entry<T>>, seqnum: int, maxSize: nat, data: T): seq<Entry<T>> {
    Window(entries + [Entry(seqnum + 1, data)], maxSize)
  }

  /** The entries after putting `ds` in order into a fresh buffer. */
  function Puts<T>(ds: seq<T>, maxSize: nat): seq<Entry<T>>
    decreases |ds|
  {
    if |ds| == 0 then [] else PutEntries(Puts(ds[..|ds| - 1], maxSize), |ds| - 1, maxSize, ds[|ds| - 1])
  }

  /** Every message put, numbered from 1 in the order of the puts. */
  function Numbered<T>(ds: seq<T>): (r: seq<Entry<T>>)
    ensures |r| == |ds| && forall i :: 0 <= i < |ds| ==> r[i] == Entry(i + 1, ds[i])
  {
    seq(|ds|, i requires 0 <= i < |ds| => Entry(i + 1, ds[i]))
  }

  /** Keeping the newest entries and then appending and keeping the newest
      again is keeping the newest of everything. */
  lemma WindowSnoc<T>(s: seq<T>, x: T, n: nat)
    requires n >= 1
    ensures Window(Window(s, n) + [x], n) == Window(s + [x], n)
  {
    if |s| > n {
      assert Window(s, n) + [x] == s[|s| - n..] + [x];
      assert (s[|s| - n..] + [x])[1..] == (s + [x])[|s| + 1 - n..];
    }
  }

  /** Putting messages into a fresh buffer of maximum size `n` leaves exactly
      the `n` most recent ones (all of them when there are fewer), numbered
      by their position in the order of the puts. */
  lemma {:induction false} PutsKeepNewest<T>(ds: seq<T>, n: nat)
    requires n >= 1
    ensures Puts(ds, n) == Window(Numbered(ds), n)
    decreases |ds|
  {
    if |ds| > 0 {
      var m := |ds| - 1;
      var e := Entry(m + 1, ds[m]);
      PutsKeepNewest(ds[..m], n);
      NumberedSnoc(ds);
      WindowSnoc(Numbered(ds[..m]), e, n);
      assert Puts(ds, n) == Window(Window(Numbered(ds[..m]), n) + [e], n);
    }
  }

  /** Numbering all messages is numbering all but the last, then the last. */
  lemma NumberedSnoc<T>(ds: seq<T>)
    requires |ds| > 0
    ensures Numbered(ds) == Numbered(ds[..|ds| - 1]) + [Entry(|ds|, ds[|ds| - 1])]
  {
    var m := |ds| - 1;
    assert forall i :: 0 <= i < m ==> Numbered(ds)[i] == Numbered(ds[..m])[i];
  }

  /** After `M` puts into a fresh buffer of maximum size `N`, it holds
      min(M, N) entries; the newest is numbered M and the oldest
      M - min(M, N) + 1, and each carries the message of its put. */
  lemma PutsWindow<T>(ds: seq<T>, n: nat)
    requires n >= 1
    ensures |Puts(ds, n)| == if |ds| <= n then |ds| else n
    ensures |Puts(ds, n)| > 0 ==> Puts(ds, n)[|Puts(ds, n)| - 1].seqnum == |ds|
    ensures |Puts(ds, n)| > 0 ==> Puts(ds, n)[0].seqnum == |ds| - |Puts(ds, n)| + 1
    ensures forall i :: 0 <= i < |Puts(ds, n)| ==>
              Puts(ds, n)[i] == Entry(|ds| - |Puts(ds, n)| + 1 + i, ds[|ds| - |Puts(ds, n)| + i])
  {
    PutsKeepNewest(ds, n);
  }

  /** A buffer of size 3 given the messages 1, 2, 3 and 4 holds 2, 3 and 4,
      numbered 2 to 4. */
  lemma FourIntoThree()
    ensures Puts([1, 2, 3, 4], 3) == [Entry(2, 2), Entry(3, 3), Entry(4, 4)]
  {
    PutsKeepNewest([1, 2, 3, 4], 3);
    assert Numbered([1, 2, 3, 4]) == [Entry(1, 1), Entry(2, 2), Entry(3, 3), Entry(4, 4)];
  }

  class RecoveryBuffer<T> {
    var seqnum: int
    var size: int
    var maxSize: int
    var entries: seq<Entry<T>>

    /** `size` counts the entries, which never exceed the maximum, and their
        numbers run consecutively up to the counter. */
    ghost predicate Valid()
      reads this
    {
      && size == |entries|
      && 1 <= maxSize
      && size <= maxSize
      && Consecutive(entries, seqnum)
    }

    /** `recovery_buffer_create`: empty, counter at 0. */
    constructor(defaultSize: int)
      requires defaultSize >= 1
      ensures Valid()
      ensures seqnum == 0 && entries == [] && maxSize == defaultSize
    {
      seqnum := 0;
      size := 0;
      maxSize := defaultSize;
      entries := [];
    }

    /** `recovery_buffer_put`: numbers the message with the next sequence
        number and appends it, first removing the oldest entry when the
        buffer is full. */
    method Put(data: T)
      requires Valid()
      modifies this
      ensures Valid()
      ensures seqnum == old(seqnum) + 1 && maxSize == old(maxSize)
      ensures entries == PutEntries(old(entries), old(seqnum), maxSize, data)
      ensures entries[|entries| - 1] == Entry(seqnum, data)
    {
      seqnum := seqnum + 1;
      if size >= maxSize {
        entries := entries[1..];
        size := size - 1;
      }
      entries := entries + [Entry(seqnum, data)];
      size := size + 1;
    }

    /** `recovery_buffer_get`: removes and returns the oldest entry with its
        number; on an empty buffer returns nothing and changes nothing. */
    method Get() returns (r: Option<Entry<T>>)
      requires Valid()
      modifies this
      ensures Valid()
      ensures seqnum == old(seqnum) && maxSize == old(maxSize)
      ensures old(entries) == [] ==> r.None? && entries == []
      ensures old(entries) != [] ==> r == Some(old(entries)[0]) && entries == old(entries)[1..]
    {
      if size == 0 {
        return None;
      }
      r := Some(entries[0]);
      entries := entries[1..];
      size := size - 1;
    }

    /** `recovery_buffer_peek`: the entry `offset` places after the oldest,
        numbered `offset` past the oldest, without removing anything; nothing
        for an empty buffer or an offset outside it. */
    function Peek(offset: int): (r: Option<Entry<T>>)
      requires Valid()
      reads this
      ensures r.Some? <==> 0 <= offset < |entries|
      ensures r.Some? ==> r.value.seqnum == entries[0].seqnum + offset && r.value == entries[offset]
    {
      if 0 <= offset < size then Some(entries[offset]) else None
    }

    /** `recovery_buffer_count_entries`. */
    function CountEntries(): (n: int)
      requires Valid()
      reads this
      ensures n == |entries| && 0 <= n <= maxSize
    {
      size
    }

    /** `recovery_buffer_clear`: no entries; the counter keeps running. */
    method Clear()
      requires Valid()
      modifies this
      ensures Valid()
      ensures entries == [] && seqnum == old(seqnum) && maxSize == old(maxSize)
    {
      entries := [];
      size := 0;
    }

    /** `recovery_buffer_reset`: back to the state after creation, keeping
        the maximum size. */
    method Reset()
      requires Valid()
      modifies this
      ensures Valid()
      ensures entries == [] && seqnum == 0 && maxSize == old(maxSize)
    {
      entries := [];
      size := 0;
      seqnum := 0;
    }

    /** `recovery_buffer_set_size`: a new maximum; when shrinking below the
        number of entries, the oldest are discarded first. */
    method SetSize(n: int)
      requires Valid() && n >= 1
      modifies this
      ensures Valid()
      ensures maxSize == n && seqnum == old(seqnum)
      ensures entries == Window(old(entries), n)
    {
      maxSize := n;
      if size > n {
        entries := entries[size - n..];
        size := n;
      }
    }

    /** `recovery_buffer_get_oldest_seq`. */
    function OldestSeq(): (s: int)
      requires Valid() && |entries| > 0
      reads this
      ensures s == entries[0].seqnum && s == seqnum - |entries| + 1
    {
      entries[0].seqnum
    }

    /** `recovery_buffer_get_newest_seq`: the counter. */
    function NewestSeq(): (s: int)
      requires Valid() && |entries| > 0
      reads this
      ensures s == entries[|entries| - 1].seqnum && s == seqnum
    {
      entries[size - 1].seqnum
    }
  }
}
