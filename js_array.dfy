/** The JavaScript array operations the remove-by-id handlers use:
    `Array.prototype.indexOf` and `Array.prototype.splice(start, 1)`. */
module JsArray {

  /** `xs.indexOf(x)`: the first position holding `x`, or -1 when `x` does
      not occur. */
  function IndexOf<T(==)>(xs: seq<T>, x: T): (r: int)
    ensures -1 <= r < |xs|
    ensures r == -1 <==> x !in xs
    ensures 0 <= r ==> xs[r] == x && x !in xs[..r]
  {
    if xs == [] then -1
    else if xs[0] == x then 0
    else
      var i := IndexOf(xs[1..], x);
      assert xs[1..][..i + 1] == xs[1..i + 2] by {
        assert i + 1 <= |xs[1..]| + 1;
      }
      if i == -1 then -1 else i + 1
  }

  /** The position `splice` starts at, for an array of length `len`: a
      negative `start` counts back from the end (and stops at 0), a `start`
      past the end is the end. */
  function SpliceStart(len: nat, start: int): (k: nat)
    ensures k <= len
    ensures 0 <= start <= len ==> k == start
    ensures start < 0 && len + start >= 0 ==> k == len + start
    ensures len + start < 0 ==> k == 0
    ensures start > len ==> k == len
  {
    if start < 0 then (if len + start < 0 then 0 else len + start)
    else if start > len then len
    else start
  }

  /** `xs.splice(start, 1)`, as the new contents of `xs`: removes the one
      element at the normalised start position, if there is one there. */
  function SpliceOne<T>(xs: seq<T>, start: int): (ys: seq<T>)
    ensures |ys| == (if xs != [] && start < |xs| then |xs| - 1 else |xs|)
    ensures multiset(ys) <= multiset(xs)
  {
    var k := SpliceStart(|xs|, start);
    if k < |xs| then
      assert xs == xs[..k] + [xs[k]] + xs[k + 1..];
      xs[..k] + xs[k + 1..]
    else xs
  }

  /** At a position inside the array, `splice(i, 1)` removes exactly the
      element at `i` and keeps the others in their order. */
  lemma SpliceOneAt<T>(xs: seq<T>, i: int)
    requires 0 <= i < |xs|
    ensures |SpliceOne(xs, i)| == |xs| - 1
    ensures SpliceOne(xs, i)[..i] == xs[..i]
    ensures SpliceOne(xs, i)[i..] == xs[i + 1..]
    ensures multiset(SpliceOne(xs, i)) + multiset{xs[i]} == multiset(xs)
  {
    assert xs == xs[..i] + [xs[i]] + xs[i + 1..];
  }

  /** `splice(-1, 1)` removes the last element of a non-empty array. */
  lemma SpliceOneMinusOne<T>(xs: seq<T>)
    requires xs != []
    ensures SpliceOne(xs, -1) == xs[..|xs| - 1]
  {
  }

  /** `splice` on an empty array removes nothing, wherever it starts. */
  lemma SpliceOneEmpty<T>(xs: seq<T>, start: int)
    requires xs == []
    ensures SpliceOne(xs, start) == []
  {
  }
}
