/**
 * The two Array.prototype operations whose result the queue depends on, as
 * functions on sequences: `indexOf` and `splice(i, 1)`. (`push`, `shift` and
 * `pop` are written directly as sequence updates where they are used.)
 */
module JsArray {

  /** `s.indexOf(x)`: the first position holding x, or -1 when x does not occur. */
  function IndexOf<T(==)>(s: seq<T>, x: T): (r: int)
    ensures -1 <= r < |s|
    ensures r == -1 <==> x !in s
    ensures 0 <= r ==> s[r] == x && x !in s[..r]
  {
    if s == [] then -1
    else if s[0] == x then 0
    else
      var i := IndexOf(s[1..], x);
      if i == -1 then -1
      else
        assert s[..i + 1] == [s[0]] + s[1..][..i];
        i + 1
  }

  /**
   * `s.splice(i, 1)` for an index inside the array: exactly the element at i
   * leaves, and the others keep their order.
   */
  function RemoveAt<T>(s: seq<T>, i: nat): (r: seq<T>)
    requires i < |s|
    ensures |r| == |s| - 1
    ensures multiset(r) + multiset{s[i]} == multiset(s)
    ensures r[..i] == s[..i] && r[i..] == s[i + 1..]
  {
    assert s == s[..i] + [s[i]] + s[i + 1..];
    s[..i] + s[i + 1..]
  }
}
