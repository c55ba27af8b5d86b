/** The nullable-pointer idiom of the source: a handle or pointer field is
    either not yet set (None, the C++ NULL) or holds a value. */
module Wrappers {
  datatype Option<+T> = None | Some(value: T)

  /** Concatenation regrouped, for proofs that append to a growing log. */
  lemma AppendAssoc<T>(a: seq<T>, b: seq<T>, c: seq<T>)
    ensures (a + b) + c == a + (b + c)
  {
  }

  /** A slice that ends within the left operand of a concatenation is a slice of it. */
  lemma SliceAppendLeft<T>(a: seq<T>, b: seq<T>, lo: nat, hi: nat)
    requires lo <= hi <= |a|
    ensures (a + b)[lo..hi] == a[lo..hi]
  {
  }

  /** A slice within the middle operand of a three-way concatenation is a slice of it. */
  lemma SliceAppendMiddle<T>(a: seq<T>, b: seq<T>, c: seq<T>, lo: nat, hi: nat)
    requires lo <= hi <= |b|
    ensures (a + b + c)[|a| + lo..|a| + hi] == b[lo..hi]
  {
    assert (a + b + c)[|a| + lo..|a| + hi] == (a + b)[|a| + lo..|a| + hi];
  }

  /** A slice of a slice is a slice of the whole, shifted by the outer start. */
  lemma SliceOfSlice<T>(s: seq<T>, lo: nat, hi: nat, a: nat, b: nat)
    requires lo <= hi <= |s|
    requires a <= b <= hi - lo
    ensures s[lo..hi][a..b] == s[lo + a..lo + b]
  {
    forall k | 0 <= k < b - a
      ensures s[lo..hi][a..b][k] == s[lo + a..lo + b][k]
    {
    }
  }

  /** Inside a slice that is one element followed by s, a slice of s sits one
      place after the slice's start. */
  lemma SliceAfterHead<T>(c: seq<T>, lo: nat, hi: nat, x: T, s: seq<T>, a: nat, b: nat)
    requires lo <= hi <= |c|
    requires c[lo..hi] == [x] + s
    requires a <= b <= |s|
    ensures c[lo] == x
    ensures c[lo + 1 + a..lo + 1 + b] == s[a..b]
  {
    assert c[lo] == c[lo..hi][0];
    SliceOfSlice(c, lo, hi, 1 + a, 1 + b);
    assert ([x] + s)[1 + a..1 + b] == s[a..b];
  }
}
