/** Python's prefix slice `s[:n]`, which never fails: a count past the end
    clips to the whole sequence and a negative count drops that many
    elements from the end. */
module Slices {

  /** The length `s[:n]` has in Python. */
  function PrefixLength(len: nat, n: int): (k: nat)
    ensures k <= len
    ensures 0 <= n ==> k == (if n <= len then n else len)
    ensures n < 0 ==> k == (if len + n >= 0 then len + n else 0)
  {
    if n >= 0 then (if n <= len then n else len)
    else if len + n >= 0 then len + n
    else 0
  }

  /** `s[:n]` */
  function Prefix<T>(s: seq<T>, n: int): (r: seq<T>)
    ensures |r| == PrefixLength(|s|, n)
    ensures r <= s
  {
    s[..PrefixLength(|s|, n)]
  }

  /** Slicing a prefix never lengthens; a non-negative count bounds the result. */
  lemma PrefixBound<T>(s: seq<T>, n: int)
    ensures |Prefix(s, n)| <= |s|
    ensures 0 <= n ==> |Prefix(s, n)| <= n
    ensures 0 <= n <= |s| ==> |Prefix(s, n)| == n
    ensures n >= |s| ==> Prefix(s, n) == s
  {
  }
}
