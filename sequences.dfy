/**
 * The two list operations the code uses on more than one kind of sequence:
 * finding the first occurrence of an element, and joining pieces with a separator.
 */
module Sequences {

  /** The position of the first `x` in `s`, or `|s|` when there is none (the scan
      behind `str.split`, `list.remove` and `list.index`). */
  function IndexOf<T(==)>(s: seq<T>, x: T): (i: nat)
    ensures i <= |s| && x !in s[..i]
    ensures i < |s| ==> s[i] == x
    ensures i == |s| <==> x !in s
  {
    if s == [] then 0
    else if s[0] == x then 0
    else
      var k := IndexOf(s[1..], x);
      assert s[..k + 1] == [s[0]] + s[1..][..k];
      k + 1
  }

  /** `sep.join(ps)`: the pieces in order, with one separator between neighbours. */
  function Join<T>(ps: seq<seq<T>>, sep: T): seq<T>
  {
    if ps == [] then [] else if |ps| == 1 then ps[0] else ps[0] + [sep] + Join(ps[1..], sep)
  }
}
