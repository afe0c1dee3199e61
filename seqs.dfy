/** Sequence helpers shared by the front end and the back end. */
module Seqs {
  import opened Wrappers

  function Min(a: int, b: int): int { if a <= b then a else b }

  /** The last `n` elements of `s`, in order: JavaScript's `s.slice(-n)` and
      Python's `s[-n:]` for a positive `n`. */
  function Last<T>(s: seq<T>, n: nat): (r: seq<T>)
    requires 0 < n
    ensures |r| == Min(|s|, n)
    ensures forall i :: 0 <= i < |r| ==> r[i] == s[|s| - |r| + i]
  {
    if |s| <= n then s else s[|s| - n..]
  }

  /** The first `n` elements of `s`, in order: JavaScript's `s.slice(0, n)`. */
  function First<T>(s: seq<T>, n: nat): (r: seq<T>)
    ensures |r| == Min(|s|, n)
    ensures forall i :: 0 <= i < |r| ==> r[i] == s[i]
  {
    if |s| <= n then s else s[..n]
  }

  /** The index of the first occurrence of `x` in `s`, as Python's `list.index`,
      or None where `list.index` raises ValueError. */
  function IndexOf<T(==)>(s: seq<T>, x: T): (r: Option<nat>)
    ensures r.Some? ==> r.value < |s| && s[r.value] == x
    ensures r.Some? ==> forall j :: 0 <= j < r.value ==> s[j] != x
    ensures r.None? <==> x !in s
  {
    if |s| == 0 then None
    else if s[0] == x then Some(0)
    else match IndexOf(s[1..], x)
      case None => None
      case Some(i) => Some(i + 1)
  }
}
