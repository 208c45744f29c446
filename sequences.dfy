/** Order-preserving selections from sequences. */
module Sequences {

  /** `a` is obtained from `b` by deleting elements, keeping the order of the rest. */
  predicate Subsequence<T(==)>(a: seq<T>, b: seq<T>)
    decreases |b|
  {
    a == [] || (b != [] && if a[0] == b[0] then Subsequence(a[1..], b[1..]) else Subsequence(a, b[1..]))
  }

  /** Every element of a subsequence is an element of the whole. */
  lemma {:induction false} SubsequenceMembers<T>(a: seq<T>, b: seq<T>, x: T)
    requires Subsequence(a, b) && x in a
    ensures x in b
    decreases |b|
  {
    if a[0] == b[0] {
      if x != a[0] {
        assert x in a[1..];
        SubsequenceMembers(a[1..], b[1..], x);
      }
    } else {
      SubsequenceMembers(a, b[1..], x);
    }
  }

  /** Dropping the front of the whole keeps a subsequence of what is left, once its head is matched. */
  lemma {:induction false} SubsequenceCons<T>(x: T, a: seq<T>, b: seq<T>)
    requires Subsequence(a, b)
    ensures Subsequence([x] + a, [x] + b)
  {
    assert ([x] + a)[1..] == a && ([x] + b)[1..] == b;
  }

  /** A prefix of a subsequence is a subsequence. */
  lemma {:induction false} SubsequencePrefix<T>(a: seq<T>, b: seq<T>, n: nat)
    requires Subsequence(a, b) && n <= |a|
    ensures Subsequence(a[..n], b)
    decreases |b|
  {
    if n > 0 {
      assert a[..n][0] == a[0];
      if a[0] == b[0] {
        SubsequencePrefix(a[1..], b[1..], n - 1);
        assert a[..n][1..] == a[1..][..n - 1];
      } else {
        SubsequencePrefix(a, b[1..], n);
      }
    }
  }

  /** Anything is a subsequence of itself with more elements in front. */
  lemma {:induction false} SubsequenceSkip<T>(x: T, a: seq<T>, b: seq<T>)
    requires Subsequence(a, b)
    ensures Subsequence(a, [x] + b)
    decreases |b|, 1
  {
    var xb := [x] + b;
    assert xb[1..] == b;
    if a != [] && a[0] == x {
      // matching x against a[0] instead must still succeed on the rest
      SubsequenceTail(a, b);
    }
  }

  /** Dropping the head of a subsequence keeps a subsequence. */
  lemma {:induction false} SubsequenceTail<T>(a: seq<T>, b: seq<T>)
    requires Subsequence(a, b) && a != []
    ensures Subsequence(a[1..], b)
    decreases |b|, 0
  {
    if a[0] == b[0] {
      SubsequenceSkip(b[0], a[1..], b[1..]);
      assert [b[0]] + b[1..] == b;
    } else {
      SubsequenceTail(a, b[1..]);
      SubsequenceSkip(b[0], a[1..], b[1..]);
      assert [b[0]] + b[1..] == b;
    }
  }
}
