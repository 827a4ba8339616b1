/** Order-preserving sub-lists: what is left after some elements are removed. */
module Subsequences {
  import opened Strings

  /** `a` is `b` with some elements removed, order kept. */
  predicate IsSubsequence<T(==)>(a: seq<T>, b: seq<T>)
    decreases |b|
  {
    if |a| == 0 then true
    else if |b| == 0 then false
    else (a[0] == b[0] && IsSubsequence(a[1..], b[1..])) || IsSubsequence(a, b[1..])
  }

  /** Keeping the head of `b` and a sub-list of its tail. */
  lemma KeepHead<T>(x: T, a: seq<T>, b: seq<T>)
    requires IsSubsequence(a, b)
    ensures IsSubsequence([x] + a, [x] + b)
  {
    ConsParts(x, a);
    ConsParts(x, b);
  }

  /** Dropping the head of `b`. */
  lemma DropHead<T>(x: T, a: seq<T>, b: seq<T>)
    requires IsSubsequence(a, b)
    ensures IsSubsequence(a, [x] + b)
  {
    ConsParts(x, b);
  }

  lemma {:induction false} SubsequenceReflexive<T>(b: seq<T>)
    ensures IsSubsequence(b, b)
    decreases |b|
  {
    if |b| > 0 {
      SubsequenceReflexive(b[1..]);
    }
  }

  lemma {:induction false} SubsequenceOfPrefix<T>(b: seq<T>, n: nat)
    requires n <= |b|
    ensures IsSubsequence(b[..n], b)
    decreases n
  {
    if n > 0 {
      SubsequenceOfPrefix(b[1..], n - 1);
      assert b[..n][1..] == b[1..][..n - 1];
    }
  }

  lemma {:induction false} SubsequenceOfSuffix<T>(b: seq<T>, n: nat)
    requires n <= |b|
    ensures IsSubsequence(b[n..], b)
    decreases n
  {
    if n == 0 {
      SubsequenceReflexive(b);
      assert b[0..] == b;
    } else {
      SubsequenceOfSuffix(b[1..], n - 1);
      assert b[1..][n - 1..] == b[n..];
    }
  }

  lemma {:induction false} SubsequenceTransitive<T>(a: seq<T>, b: seq<T>, c: seq<T>)
    requires IsSubsequence(a, b) && IsSubsequence(b, c)
    ensures IsSubsequence(a, c)
    decreases |c|
  {
    if |a| > 0 {
      if IsSubsequence(b, c[1..]) {
        SubsequenceTransitive(a, b, c[1..]);
      } else if a[0] == b[0] && IsSubsequence(a[1..], b[1..]) {
        SubsequenceTransitive(a[1..], b[1..], c[1..]);
      } else {
        SubsequenceTransitive(a, b[1..], c[1..]);
      }
    }
  }

  /** Every element of a sub-list is an element of the list. */
  lemma {:induction false} SubsequenceElements<T>(a: seq<T>, b: seq<T>, i: nat)
    requires IsSubsequence(a, b) && i < |a|
    ensures a[i] in b
    decreases |b|
  {
    if a[0] == b[0] && IsSubsequence(a[1..], b[1..]) {
      if i > 0 {
        SubsequenceElements(a[1..], b[1..], i - 1);
      }
    } else {
      SubsequenceElements(a, b[1..], i);
    }
  }

  /** A sub-list is no longer than the list. */
  lemma {:induction false} SubsequenceLength<T>(a: seq<T>, b: seq<T>)
    requires IsSubsequence(a, b)
    ensures |a| <= |b|
    decreases |b|
  {
    if |a| > 0 {
      if a[0] == b[0] && IsSubsequence(a[1..], b[1..]) {
        SubsequenceLength(a[1..], b[1..]);
      } else {
        SubsequenceLength(a, b[1..]);
      }
    }
  }
}
