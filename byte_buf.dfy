/** The SDK's growable byte buffer: appends, concatenation, duplication,
    discarding from the front, the NUL-terminated view, and the readers that
    return the position just past the item they consumed. Only the unencoded
    items are modelled; the packed-integer, string and IEEE-754 encodings are
    not part of this model. */
module ByteBufs {
  newtype byte = x: int | 0 <= x < 256

  /** The length of the C string starting at `s[0]`: the index of the first
      NUL, or the whole length when there is none. */
  function CStringLength(s: seq<byte>): (n: nat)
    ensures n <= |s|
    ensures forall i :: 0 <= i < n ==> s[i] != 0
    ensures n < |s| ==> s[n] == 0
  {
    if |s| == 0 || s[0] == 0 then 0 else 1 + CStringLength(s[1..])
  }

  /** `buf_as_string`: the contents followed by a NUL terminator. */
  function AsString(data: seq<byte>): (s: seq<byte>)
    ensures |s| == |data| + 1 && s[|data|] == 0
    ensures forall i :: 0 <= i < |data| ==> s[i] == data[i]
  {
    data + [0]
  }

  /** The C string read from `buf_as_string` is the whole buffer exactly when
      the buffer holds no NUL; otherwise it ends at the first embedded NUL. */
  lemma AsStringCLength(data: seq<byte>)
    ensures CStringLength(AsString(data)) <= |data|
    ensures CStringLength(AsString(data)) == |data| <==> forall i :: 0 <= i < |data| ==> data[i] != 0
  {
    var s := AsString(data);
    var n := CStringLength(s);
    if n == |data| {
      assert forall i :: 0 <= i < |data| ==> data[i] == s[i];
    } else {
      assert s[n] == 0 && data[n] == s[n];
    }
  }

  /** `buf_read_byte`: the byte at `pos` and the position after it. */
  function ReadByte(data: seq<byte>, pos: nat): (r: (byte, nat))
    requires pos < |data|
    ensures r.0 == data[pos] && r.1 == pos + 1
  {
    (data[pos], pos + 1)
  }

  /** An unencoded item of `width` bytes at `pos` and the position after it;
      the byte order of the integer it holds is not modelled. */
  function ReadFixed(data: seq<byte>, pos: nat, width: nat): (r: (seq<byte>, nat))
    requires pos + width <= |data|
    ensures |r.0| == width && r.1 == pos + width
    ensures forall i :: 0 <= i < width ==> r.0[i] == data[pos + i]
  {
    (data[pos..pos + width], pos + width)
  }

  /** `buf_read_uint32`: four bytes. */
  function ReadUint32(data: seq<byte>, pos: nat): (r: (seq<byte>, nat))
    requires pos + 4 <= |data|
    ensures |r.0| == 4 && r.1 == pos + 4
  {
    ReadFixed(data, pos, 4)
  }

  /** `buf_read_uint64`: eight bytes. */
  function ReadUint64(data: seq<byte>, pos: nat): (r: (seq<byte>, nat))
    requires pos + 8 <= |data|
    ensures |r.0| == 8 && r.1 == pos + 8
  {
    ReadFixed(data, pos, 8)
  }

  /** Reading back what was appended: after any prefix, a byte then a
      four-byte item then an eight-byte item come back in order, each read
      starting where the previous one stopped. */
  lemma ReadsFollowWrites(prefix: seq<byte>, b: byte, word: seq<byte>, long: seq<byte>)
    requires |word| == 4 && |long| == 8
    ensures var data := prefix + [b] + word + long;
            var (v, p1) := ReadByte(data, |prefix|);
            var (w, p2) := ReadUint32(data, p1);
            var (l, p3) := ReadUint64(data, p2);
            v == b && w == word && l == long && p3 == |data|
  {
    var data := prefix + [b] + word + long;
    assert data[|prefix| + 1..|prefix| + 5] == word;
    assert data[|prefix| + 5..|prefix| + 13] == long;
  }

  class Buf {
    var data: seq<byte>

    /** `buf_create`: an empty buffer. */
    constructor()
      ensures data == []
    {
      data := [];
    }

    /** `buf_write_byte`: appends exactly one byte. */
    method WriteByte(b: byte)
      modifies this
      ensures data == old(data) + [b]
    {
      data := data + [b];
    }

    /** `buf_write_bytes`: appends exactly the first `len` of `bytes`. */
    method WriteBytes(bytes: seq<byte>, len: nat)
      requires len <= |bytes|
      modifies this
      ensures data == old(data) + bytes[..len]
    {
      data := data + bytes[..len];
    }

    /** `buf_write_buf`: `dst` becomes `dst ++ src`; a distinct `src` is
        left as it was. */
    method WriteBuf(src: Buf)
      modifies this
      ensures data == old(data) + old(src.data)
      ensures src != this ==> src.data == old(src.data)
    {
      data := data + src.data;
    }

    /** `buf_dup`: a new buffer with identical contents. */
    method Dup() returns (copy: Buf)
      ensures fresh(copy) && copy.data == data
    {
      copy := new Buf();
      copy.data := data;
    }

    /** `buf_discard_front`: keeps the bytes after the first `n`. */
    method DiscardFront(n: int)
      requires 0 <= n <= |data|
      modifies this
      ensures data == old(data)[n..]
      ensures |data| == old(|data|) - n
    {
      data := data[n..];
    }
  }

  /** Discarding from a buffer the bytes it held and the bytes written first
      leaves exactly the bytes written after them. */
  method DiscardWritten(b: Buf, first: seq<byte>, rest: seq<byte>)
    modifies b
    ensures b.data == rest
  {
    var held := |b.data|;
    b.WriteBytes(first, |first|);
    b.WriteBytes(rest, |rest|);
    assert b.data == old(b.data) + first + rest;
    b.DiscardFront(held + |first|);
  }
}
