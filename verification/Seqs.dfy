/** Sequence identities, stated once so that larger proofs need not rediscover them. */
module Seqs {
  lemma Assoc<T>(a: seq<T>, b: seq<T>, c: seq<T>)
    ensures a + b + c == a + (b + c)
  {
  }

  lemma AppendNil<T>(a: seq<T>)
    ensures a + [] == a
    ensures [] + a == a
  {
  }

  /** A sequence around its element at n. */
  lemma Around<T>(s: seq<T>, n: nat)
    requires n < |s|
    ensures s == s[..n] + ([s[n]] + s[n + 1..])
  {
  }

  /** A sequence as its front and its last element. */
  lemma Snoc<T>(s: seq<T>, x: T)
    ensures (s + [x])[..|s + [x]| - 1] == s
    ensures (s + [x])[|s + [x]| - 1] == x
  {
  }

  lemma FrontLast<T>(s: seq<T>)
    requires s != []
    ensures s == s[..|s| - 1] + [s[|s| - 1]]
  {
  }

  lemma TakeSnoc<T>(s: seq<T>, n: nat)
    requires n < |s|
    ensures s[..n + 1] == s[..n] + [s[n]]
  {
  }

  lemma TakeAll<T>(s: seq<T>)
    ensures s[..|s|] == s
  {
  }

  lemma PrefixGrows<T>(a: seq<T>, b: seq<T>, more: seq<T>)
    requires a <= b
    ensures a <= b + more
  {
  }

  lemma ConsSlices<T>(x: T, s: seq<T>, n: nat)
    requires n <= |s|
    ensures ([x] + s)[..n + 1] == [x] + s[..n]
    ensures ([x] + s)[n + 1..] == s[n..]
    ensures n < |s| ==> ([x] + s)[n + 1] == s[n]
    ensures ([x] + s)[0] == x && ([x] + s)[1..] == s
  {
  }

  /** A concatenation around the element where its parts meet. */
  lemma Seam<T>(a: seq<T>, x: T, b: seq<T>)
    ensures |a + ([x] + b)| == |a| + 1 + |b|
    ensures (a + ([x] + b))[|a|] == x && (a + ([x] + b))[|a| + 1..] == b
  {
  }

  lemma Uncons<T>(s: seq<T>)
    requires s != []
    ensures s == [s[0]] + s[1..]
  {
  }
}
