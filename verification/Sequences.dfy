/** Helpers on sequences shared by the component models. */
module Sequences {

  datatype Option<+T> = None | Some(value: T)

  /** The first position of `x`. */
  function IndexOf<T(==)>(xs: seq<T>, x: T): (i: Option<nat>)
    ensures i.None? <==> x !in xs
    ensures i.Some? ==> i.value < |xs| && xs[i.value] == x && x !in xs[..i.value]
  {
    if xs == [] then None
    else if xs[0] == x then Some(0)
    else
      var rest := IndexOf(xs[1..], x);
      if rest.None? then None
      else
        assert xs[..rest.value + 1] == [xs[0]] + xs[1..][..rest.value];
        Some(rest.value + 1)
  }

  lemma IndexIs<T>(xs: seq<T>, i: nat, x: T)
    requires i < |xs| && xs[i] == x && x !in xs[..i]
    ensures IndexOf(xs, x) == Some(i)
  {
  }

  /** All the parts, one after the other. */
  function Concat<T>(parts: seq<seq<T>>): seq<T> {
    if parts == [] then [] else parts[0] + Concat(parts[1..])
  }

  /** The number of elements that satisfy `p`. */
  function CountIf<T>(s: seq<T>, p: T -> bool): (n: nat)
    ensures n <= |s|
  {
    if s == [] then 0
    else CountIf(s[..|s| - 1], p) + if p(s[|s| - 1]) then 1 else 0
  }

  /** The sequence without the element at `i`. */
  function RemoveAt<T>(s: seq<T>, i: nat): (r: seq<T>)
    requires i < |s|
    ensures |r| == |s| - 1
  {
    s[..i] + s[i + 1..]
  }

  lemma CountAppend<T>(s: seq<T>, x: T, p: T -> bool)
    ensures CountIf(s + [x], p) == CountIf(s, p) + if p(x) then 1 else 0
  {
  }

  lemma {:induction false} CountRemove<T>(s: seq<T>, i: nat, p: T -> bool)
    requires i < |s|
    ensures CountIf(s, p) == CountIf(RemoveAt(s, i), p) + if p(s[i]) then 1 else 0
  {
    var n := |s| - 1;
    if i == n {
      assert RemoveAt(s, i) == s[..n];
    } else {
      CountRemove(s[..n], i, p);
      assert RemoveAt(s, i) == RemoveAt(s[..n], i) + [s[n]];
      CountAppend(RemoveAt(s[..n], i), s[n], p);
    }
  }

  lemma {:induction false} CountHead<T>(s: seq<T>, p: T -> bool)
    requires s != []
    ensures CountIf(s, p) == CountIf(s[1..], p) + if p(s[0]) then 1 else 0
  {
    CountRemove(s, 0, p);
    assert RemoveAt(s, 0) == s[1..];
  }
}
