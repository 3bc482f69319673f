/**
  Small helpers shared by the animation model: the Option type, Java's
  List.remove(Object) (remove the first equal element) and jME's
  FastMath.clamp.
 */
module Seqs {

  datatype Option<+T> = None | Some(value: T)

  /** Index of the first occurrence of x in s. */
  function IndexOf<T(==)>(s: seq<T>, x: T): (i: nat)
    requires x in s
    ensures i < |s| && s[i] == x
    ensures forall k :: 0 <= k < i ==> s[k] != x
  {
    if s[0] == x then 0 else 1 + IndexOf(s[1..], x)
  }

  /** List.remove(Object): drops the first element equal to x, if there is one. */
  function RemoveFirst<T(==)>(s: seq<T>, x: T): (r: seq<T>)
    ensures x !in s ==> r == s
    ensures x in s ==> |r| == |s| - 1
    ensures multiset(r) == multiset(s) - multiset{x}
  {
    if x in s then
      var i := IndexOf(s, x);
      assert s == s[..i] + [s[i]] + s[i + 1..];
      s[..i] + s[i + 1..]
    else
      assert multiset(s)[x] == 0;
      s
  }

  /** Removing an element keeps the others in their relative order: r is s with position IndexOf(s, x) cut out. */
  lemma RemoveFirstKeepsOrder<T>(s: seq<T>, x: T, k: nat)
    requires x in s && k < |s| - 1
    ensures var r := RemoveFirst(s, x);
      r[k] == if k < IndexOf(s, x) then s[k] else s[k + 1]
  {
  }

  /** Appending an element that was absent and removing it again gives back the list. */
  lemma {:induction false} RemoveFirstOfAppended<T>(s: seq<T>, x: T)
    requires x !in s
    ensures RemoveFirst(s + [x], x) == s
  {
    assert x in s + [x];
    var i := IndexOf(s + [x], x);
    assert (s + [x])[|s|] == x;
    assert i == |s|;
    assert (s + [x])[..i] == s;
  }

  /** jME FastMath.clamp: min below the range, max above it, the input otherwise. */
  function Clamp(input: real, min: real, max: real): (r: real)
    ensures min <= max ==> min <= r <= max
    ensures min <= input <= max ==> r == input
    ensures input < min ==> r == min
    ensures min <= input && max < input ==> r == max
  {
    if input < min then min else if input > max then max else input
  }
}
