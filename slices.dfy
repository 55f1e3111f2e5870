/**
 * `Array.prototype.slice` over sequences, with JavaScript's handling of negative and
 * out-of-range positions, and `Array.prototype.reverse`.
 */
module Slices {

  /** Where a relative position lands in a list of length `n`: negative counts from the end, then clamp. */
  function RelativeIndex(i: int, n: nat): (r: nat)
    ensures r <= n
    ensures 0 <= i <= n ==> r == i
    ensures -(n as int) <= i < 0 ==> r as int == n as int + i
    ensures i < -(n as int) ==> r == 0
    ensures i > n ==> r == n
  {
    if i < 0 then (if n + i < 0 then 0 else n + i)
    else if i > n then n
    else i
  }

  /** `s.slice(start, end)`. */
  function Slice<T>(s: seq<T>, start: int, end: int): (r: seq<T>)
    ensures |r| <= |s|
  {
    var lo := RelativeIndex(start, |s|);
    var hi := RelativeIndex(end, |s|);
    if lo < hi then s[lo..hi] else []
  }

  /** `s.slice(start)`. */
  function SliceFrom<T>(s: seq<T>, start: int): (r: seq<T>)
    ensures |r| <= |s|
  {
    Slice(s, start, |s|)
  }

  /** `s.slice(-n)` for `n > 0` is the last `n` elements, or all of `s` if it is shorter. */
  lemma SliceFromEnd<T>(s: seq<T>, n: int)
    requires n > 0
    ensures SliceFrom(s, -n) == if n <= |s| then s[|s| - n..] else s
  {
  }

  /** `s.slice(-0)` is `s.slice(0)`: the whole of `s`, not an empty tail. */
  lemma SliceFromMinusZero<T>(s: seq<T>)
    ensures SliceFrom(s, -0) == s
  {
  }

  /** `s.slice(0, n)` is the first `n` elements, or all of `s` if it is shorter. */
  lemma SlicePrefix<T>(s: seq<T>, n: int)
    requires n >= 0
    ensures Slice(s, 0, n) == if n <= |s| then s[..n] else s
  {
  }

  /** `s.reverse()`, as a value. */
  function Reverse<T>(s: seq<T>): (r: seq<T>)
    ensures |r| == |s|
  {
    if |s| == 0 then [] else [s[|s| - 1]] + Reverse(s[..|s| - 1])
  }

  /** Position `j` of the reversal holds position `|s| - 1 - j` of the original. */
  lemma {:induction false} ReverseIndex<T>(s: seq<T>)
    ensures forall j :: 0 <= j < |s| ==> Reverse(s)[j] == s[|s| - 1 - j]
  {
    if |s| > 0 {
      var p := s[..|s| - 1];
      ReverseIndex(p);
      forall j | 0 <= j < |s| ensures Reverse(s)[j] == s[|s| - 1 - j] {
        if j > 0 {
          assert Reverse(s)[j] == Reverse(p)[j - 1];
        }
      }
    }
  }
}
