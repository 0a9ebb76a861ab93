/** `Array.prototype.indexOf`, which the hosts use to find a shortcut key
    among the seat keys and the sample engine uses to find the current
    player among the sorted positions. */
module ArraySearch {
  /** `indexOf`: the first index holding x, or -1 when there is none. */
  function IndexOf<T(==)>(xs: seq<T>, x: T): (i: int)
    ensures -1 <= i < |xs|
    ensures i >= 0 ==> xs[i] == x && forall j :: 0 <= j < i ==> xs[j] != x
    ensures i == -1 <==> x !in xs
  {
    if xs == [] then -1
    else if xs[0] == x then 0
    else
      var k := IndexOf(xs[1..], x);
      if k == -1 then -1 else k + 1
  }
}
