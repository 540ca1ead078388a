/** Small vocabulary shared by the other modules. */
module Common {
  datatype Option<+T> = None | Some(value: T)

  /** The sequence without its element at index i. */
  function Remove<T>(s: seq<T>, i: nat): seq<T>
    requires i < |s|
  {
    s[..i] + s[i + 1..]
  }

  function Max(a: int, b: int): int {
    if a >= b then a else b
  }

  function Min(a: int, b: int): int {
    if a <= b then a else b
  }
}

/** Weighted sums over a pool of concurrent activities, independent of their order. */
module Pools {
  import opened Common

  function Sum<T>(s: seq<T>, w: T -> nat): nat {
    if s == [] then 0 else w(s[0]) + Sum(s[1..], w)
  }

  lemma {:induction false} SumConcat<T>(a: seq<T>, b: seq<T>, w: T -> nat)
    ensures Sum(a + b, w) == Sum(a, w) + Sum(b, w)
  {
    if a == [] {
      assert a + b == b;
    } else {
      assert (a + b)[1..] == a[1..] + b;
      SumConcat(a[1..], b, w);
    }
  }

  lemma SumAppend<T>(a: seq<T>, x: T, w: T -> nat)
    ensures Sum(a + [x], w) == Sum(a, w) + w(x)
  {
    SumConcat(a, [x], w);
    assert [x][1..] == [];
  }

  lemma SumSplit<T>(s: seq<T>, i: nat, w: T -> nat)
    requires i < |s|
    ensures Sum(s, w) == Sum(s[..i], w) + w(s[i]) + Sum(s[i + 1..], w)
  {
    assert s == s[..i] + s[i..];
    SumConcat(s[..i], s[i..], w);
    assert s[i..][1..] == s[i + 1..];
  }

  lemma SumRemove<T>(s: seq<T>, i: nat, w: T -> nat)
    requires i < |s|
    ensures Sum(Remove(s, i), w) + w(s[i]) == Sum(s, w)
  {
    SumSplit(s, i, w);
    SumConcat(s[..i], s[i + 1..], w);
  }

  lemma SumReplace<T>(s: seq<T>, i: nat, x: T, w: T -> nat)
    requires i < |s|
    ensures Sum(s[i := x], w) + w(s[i]) == Sum(s, w) + w(x)
  {
    SumSplit(s, i, w);
    var t := s[i := x];
    SumSplit(t, i, w);
    assert t[..i] == s[..i] && t[i + 1..] == s[i + 1..];
  }
}
