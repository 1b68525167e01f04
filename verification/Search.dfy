/** Looking for a byte string in a buffer (`swoole_strnpos` in include/swoole.h). */
module Search {
  import opened Prelude

  predicate MatchAt(s: seq<byte>, i: int, needle: seq<byte>) {
    0 <= i && i + |needle| <= |s| && s[i..i + |needle|] == needle
  }

  ghost predicate NoMatch(s: seq<byte>, needle: seq<byte>) {
    forall i :: !MatchAt(s, i, needle)
  }

  /** What follows does not change a match. */
  lemma MatchInPrefix(s: seq<byte>, more: seq<byte>, i: int, needle: seq<byte>)
    requires 0 <= i && i + |needle| <= |s|
    ensures MatchAt(s + more, i, needle) <==> MatchAt(s, i, needle)
  {
    assert (s + more)[i..i + |needle|] == s[i..i + |needle|];
  }

  /** Nor does what comes before. */
  lemma MatchInSuffix(s: seq<byte>, from: nat, i: int, needle: seq<byte>)
    requires from <= |s| && from <= i
    ensures MatchAt(s, i, needle) <==> MatchAt(s[from..], i - from, needle)
  {
    if i + |needle| <= |s| {
      assert s[from..][i - from..i - from + |needle|] == s[i..i + |needle|];
    }
  }

  lemma SliceOfSlice(a: array<byte>, lo: nat, hi: nat, i: nat, n: nat)
    requires lo <= hi <= a.Length && i + n <= hi - lo
    ensures a[lo..hi][i..i + n] == a[lo + i..lo + i + n]
  {
    var s, t := a[lo..hi][i..i + n], a[lo + i..lo + i + n];
    forall k | 0 <= k < n ensures s[k] == t[k] {
      assert s[k] == a[lo..hi][i + k] == a[lo + i + k];
    }
  }

  /** The leftmost occurrence of `needle` in `a[lo..hi]`, counted from `lo`, or -1. */
  method StrnPos(a: array<byte>, lo: nat, hi: nat, needle: seq<byte>) returns (pos: int)
    requires lo <= hi <= a.Length && needle != []
    ensures pos == -1 ==> NoMatch(a[lo..hi], needle)
    ensures pos != -1 ==> MatchAt(a[lo..hi], pos, needle) && forall i :: i < pos ==> !MatchAt(a[lo..hi], i, needle)
  {
    pos := -1;
    if |needle| <= hi - lo {
      var i := 0;
      while i < hi - lo - |needle| + 1
        invariant 0 <= i <= hi - lo - |needle| + 1
        invariant forall k :: k < i ==> !MatchAt(a[lo..hi], k, needle)
      {
        SliceOfSlice(a, lo, hi, i, |needle|);
        if a[lo + i] == needle[0] && a[lo + i..lo + i + |needle|] == needle {
          return i;
        }
        i := i + 1;
      }
    }
  }
}
