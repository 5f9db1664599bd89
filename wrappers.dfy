/** Optional values: the model's stand-in for a C/C++ pointer that may be NULL
    and for std::optional. */
module Wrappers {

  datatype Option<+T> = None | Some(value: T) {

    /** True if this is None; lets `:-` propagate an absent value. */
    predicate IsFailure() {
      None?
    }

    function PropagateFailure<U>(): Option<U>
      requires None?
    {
      None
    }

    function Extract(): T
      requires Some?
    {
      value
    }

    /** The value held, or `default` when there is none. */
    function GetOr(default: T): T {
      match this
      case Some(v) => v
      case None => default
    }
  }

  /** The values of the present elements, in order. */
  function Somes<T>(xs: seq<Option<T>>): (r: seq<T>)
    ensures |r| <= |xs|
  {
    if |xs| == 0 then []
    else
      var n := |xs| - 1;
      Somes(xs[..n]) + (match xs[n] case Some(v) => [v] case None => [])
  }

  /** A value is kept exactly when some element holds it. */
  lemma {:induction false} SomesMembers<T>(xs: seq<Option<T>>, x: T)
    ensures x in Somes(xs) <==> Some(x) in xs
  {
    if |xs| > 0 {
      var n := |xs| - 1;
      SomesMembers(xs[..n], x);
      assert xs == xs[..n] + [xs[n]];
    }
  }

  /** Keeping the present values distributes over concatenation. */
  lemma {:induction false} SomesConcat<T>(a: seq<Option<T>>, b: seq<Option<T>>)
    ensures Somes(a + b) == Somes(a) + Somes(b)
  {
    if |b| > 0 {
      var n := |b| - 1;
      assert (a + b)[..|a + b| - 1] == a + b[..n];
      SomesConcat(a, b[..n]);
    } else {
      assert a + b == a;
    }
  }
}
