/** Optional values: a missing dictionary key, an absent provider. */
module Wrappers {
  datatype Option<+T> = None | Some(value: T) {
    function GetOr(default: T): T {
      match this
      case Some(v) => v
      case None => default
    }
  }
}

/**
  Sequence helpers with Python's meaning: `s[:n]` slicing, `sep.join(parts)`
  and `s.split(sep)`, plus the notion of a contiguous slice.
 */
module Sequences {

  /** `r` is a contiguous piece `s[i..j]` of `s`. */
  ghost predicate IsSlice<T>(r: seq<T>, s: seq<T>) {
    exists i, j :: 0 <= i <= j <= |s| && r == s[i..j]
  }

  lemma SliceOfSelf<T>(s: seq<T>)
    ensures IsSlice(s, s)
  {
    assert s == s[0..|s|];
  }

  lemma SliceOfSlice<T>(s: seq<T>, i: int, j: int)
    requires 0 <= i <= j <= |s|
    ensures IsSlice(s[i..j], s)
  {
  }

  lemma SliceLength<T>(r: seq<T>, s: seq<T>)
    requires IsSlice(r, s)
    ensures |r| <= |s|
  {
  }

  /** A slice of a slice is a slice. */
  lemma {:induction false} IsSliceTransitive<T>(a: seq<T>, b: seq<T>, c: seq<T>)
    requires IsSlice(a, b) && IsSlice(b, c)
    ensures IsSlice(a, c)
  {
    var i, j :| 0 <= i <= j <= |b| && a == b[i..j];
    var i', j' :| 0 <= i' <= j' <= |c| && b == c[i'..j'];
    assert |a| == j - i;
    forall k | 0 <= k < |a| ensures a[k] == c[i' + i + k] {
      assert a[k] == b[i + k];
    }
    assert a == c[i' + i..i' + j];
  }

  predicate IsSuffix<T(==)>(a: seq<T>, b: seq<T>) {
    |a| <= |b| && b[|b| - |a|..] == a
  }

  /** Python's `s[:n]`, including a negative `n` that counts from the end. */
  function Prefix<T>(s: seq<T>, n: int): (r: seq<T>)
    ensures |r| <= |s| && r == s[..|r|]
    ensures 0 <= n ==> |r| == if n < |s| then n else |s|
    ensures n < 0 ==> |r| == if -n < |s| then |s| + n else 0
  {
    if 0 <= n then (if n < |s| then s[..n] else s)
    else (if -n < |s| then s[..|s| + n] else [])
  }

  lemma PrefixOfShort<T>(s: seq<T>, n: int)
    requires |s| <= n
    ensures Prefix(s, n) == s
  {
  }

  /** Python's `sep.join(parts)`. */
  function Join<T>(parts: seq<seq<T>>, sep: seq<T>): seq<T> {
    if parts == [] then []
    else if |parts| == 1 then parts[0]
    else parts[0] + sep + Join(parts[1..], sep)
  }

  /** Index of the first `x` in `s`, or `|s|` when there is none. */
  function IndexOf<T(==)>(s: seq<T>, x: T): (k: nat)
    ensures k <= |s|
    ensures k < |s| ==> s[k] == x
    ensures forall m :: 0 <= m < k ==> s[m] != x
  {
    if s == [] then 0
    else if s[0] == x then 0
    else 1 + IndexOf(s[1..], x)
  }

  /** Python's `s.split(sep)` for a one-element separator. */
  function Split<T(==)>(s: seq<T>, sep: T): (r: seq<seq<T>>)
    ensures |r| >= 1
    ensures forall p :: p in r ==> sep !in p
    ensures forall p :: p in r ==> IsSlice(p, s)
    decreases |s|
  {
    var k := IndexOf(s, sep);
    if k == |s| then
      SliceOfSelf(s);
      [s]
    else
      var rest := Split(s[k + 1..], sep);
      assert forall p :: p in rest ==> IsSlice(p, s) by {
        forall p | p in rest ensures IsSlice(p, s) {
          SliceOfSlice(s, k + 1, |s|);
          IsSliceTransitive(p, s[k + 1..], s);
        }
      }
      SliceOfSlice(s, 0, k);
      [s[..k]] + rest
  }

  /** Joining the pieces of a split with the separator gives back the input. */
  lemma {:induction false} JoinSplit<T>(s: seq<T>, sep: T)
    ensures Join(Split(s, sep), [sep]) == s
    decreases |s|
  {
    var k := IndexOf(s, sep);
    if k < |s| {
      var rest := Split(s[k + 1..], sep);
      JoinSplit(s[k + 1..], sep);
      assert Split(s, sep) == [s[..k]] + rest;
      assert s == s[..k] + [sep] + s[k + 1..];
    }
  }
}
