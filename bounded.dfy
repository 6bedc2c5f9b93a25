/** Bounded histories and newest-first views, shared by every fault and data history in the engine. */
module Bounded {
  function Min(a: int, b: int): int { if a <= b then a else b }
  function Max(a: int, b: int): int { if a >= b then a else b }

  /** What is left after removeFirst() runs while the size exceeds cap: the newest cap entries. */
  function KeepLast<T>(s: seq<T>, cap: nat): (r: seq<T>)
    ensures |r| == Min(|s|, cap)
    ensures r == s[|s| - |r|..]
    ensures |s| <= cap ==> r == s
  {
    if |s| > cap then s[|s| - cap..] else s
  }

  /** Appending is associative; the loops that build a sequence in steps lean on it. */
  lemma Regrouped<T>(a: seq<T>, b: seq<T>, c: seq<T>)
    ensures a + (b + c) == (a + b) + c
  {
  }

  /** qBound(lo, v, hi) = qMax(lo, qMin(hi, v)): within [lo, hi] when the bounds are ordered. */
  function QBound(lo: real, v: real, hi: real): (r: real)
    ensures lo <= r
    ensures lo <= hi ==> r <= hi
    ensures lo <= v <= hi ==> r == v
    ensures v <= lo ==> r == lo
    ensures lo <= hi <= v ==> r == hi
  {
    var capped := if hi <= v then hi else v;
    if lo >= capped then lo else capped
  }

  /** Reverse iteration that stops after maxCount entries: newest first. */
  function NewestFirst<T>(s: seq<T>, maxCount: int): (r: seq<T>)
    ensures |r| == Min(|s|, Max(0, maxCount))
    ensures forall i :: 0 <= i < |r| ==> r[i] == s[|s| - 1 - i]
  {
    if maxCount <= 0 || |s| == 0 then []
    else [s[|s| - 1]] + NewestFirst(s[..|s| - 1], maxCount - 1)
  }

  /** Every entry of a newest-first view comes from the history it was taken from. */
  lemma NewestFirstDrawsFromHistory<T>(s: seq<T>, maxCount: int, x: T)
    requires x in NewestFirst(s, maxCount)
    ensures x in s
  {
    var r := NewestFirst(s, maxCount);
    var i :| 0 <= i < |r| && r[i] == x;
    assert s[|s| - 1 - i] == x;
  }
}
