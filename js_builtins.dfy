/** The two JavaScript built-ins the client's logic depends on, with their
    ECMAScript meaning: `String.prototype.slice` and `Array.prototype.indexOf`.
    A JavaScript string is a sequence of UTF-16 code units; in this model each
    `char` of a `string` stands for one code unit, so `|s|` is `s.length`. */
module JsBuiltins {

  /** How `slice` turns one argument into a position in a string of length
      `len`: a negative argument counts back from the end, and the result is
      clamped to `0..len`. */
  function RelativeIndex(i: int, len: nat): (k: nat)
    ensures k <= len
  {
    if i < 0 then (if len + i < 0 then 0 else len + i)
    else if i > len then len
    else i
  }

  /** `s.slice(start, end)`: the code units from the resolved start up to the
      resolved end, or the empty string when the end does not lie after the
      start. */
  function Slice(s: string, start: int, end: int): (r: string)
    ensures |r| <= |s|
    ensures |r| == if RelativeIndex(start, |s|) < RelativeIndex(end, |s|)
                   then RelativeIndex(end, |s|) - RelativeIndex(start, |s|) else 0
    ensures forall j :: 0 <= j < |r| ==>
              RelativeIndex(start, |s|) + j < |s| && r[j] == s[RelativeIndex(start, |s|) + j]
  {
    var from, to := RelativeIndex(start, |s|), RelativeIndex(end, |s|);
    if from < to then s[from..to] else ""
  }

  /** `s.slice(start)`: with no end argument the end is `s.length`, so the
      result is the whole suffix from the resolved start. */
  function SliceFrom(s: string, start: int): (r: string)
    ensures r == s[RelativeIndex(start, |s|)..]
  {
    Slice(s, start, |s|)
  }

  /** `a.indexOf(x)`: the position of the FIRST element strictly equal to `x`,
      or -1 when there is none. */
  function IndexOf<T(==)>(a: seq<T>, x: T): (i: int)
    ensures -1 <= i < |a|
    ensures i == -1 <==> x !in a
    ensures 0 <= i ==> a[i] == x && forall j :: 0 <= j < i ==> a[j] != x
    decreases |a|
  {
    if |a| == 0 then -1
    else if a[0] == x then 0
    else
      var k := IndexOf(a[1..], x);
      if k < 0 then -1 else k + 1
  }
}
