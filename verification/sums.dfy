/**
  Weighted sums over sequences. Every report of the engine (a position, a
  running balance, a debit or credit total) is one `Total` with a different
  weight, so the facts about sums are proved once, here.
*/
module Sums {

  /** The sum of `w` over `s`, accumulated from the left as a query scans rows. */
  function Total<T>(s: seq<T>, w: T -> int): int
  {
    if |s| == 0 then 0 else Total(s[..|s| - 1], w) + w(s[|s| - 1])
  }

  /** Sums split over concatenation. */
  lemma {:induction false} TotalAppend<T>(a: seq<T>, b: seq<T>, w: T -> int)
    ensures Total(a + b, w) == Total(a, w) + Total(b, w)
    decreases |b|
  {
    if |b| == 0 {
      assert a + b == a;
    } else {
      assert (a + b)[..|a + b| - 1] == a + b[..|b| - 1];
      TotalAppend(a, b[..|b| - 1], w);
    }
  }

  /** Adding one more row adds its weight. */
  lemma TotalSnoc<T>(s: seq<T>, x: T, w: T -> int)
    ensures Total(s + [x], w) == Total(s, w) + w(x)
  {
    assert (s + [x])[..|s + [x]| - 1] == s;
  }

  /** A prefix sum grows by the weight of the next row. */
  lemma TotalPrefixStep<T>(s: seq<T>, i: nat, w: T -> int)
    requires i < |s|
    ensures Total(s[..i + 1], w) == Total(s[..i], w) + w(s[i])
  {
    assert s[..i + 1][..i] == s[..i];
  }

  /** Rows that all weigh nothing sum to nothing. */
  lemma {:induction false} TotalZero<T>(s: seq<T>, w: T -> int)
    requires forall i :: 0 <= i < |s| ==> w(s[i]) == 0
    ensures Total(s, w) == 0
    decreases |s|
  {
    if |s| > 0 {
      TotalZero(s[..|s| - 1], w);
    }
  }

  /** A sum depends only on the multiset of rows, never on their order. */
  lemma {:induction false} TotalPermutation<T>(a: seq<T>, b: seq<T>, w: T -> int)
    requires multiset(a) == multiset(b)
    ensures Total(a, w) == Total(b, w)
    decreases |a|
  {
    if |a| == 0 {
      assert |multiset(b)| == 0;
      assert b == [];
    } else {
      var x := a[|a| - 1];
      var a' := a[..|a| - 1];
      assert a == a' + [x];
      assert x in multiset(b);
      var i :| 0 <= i < |b| && b[i] == x;
      var b' := b[..i] + b[i + 1..];
      assert b == b[..i] + [x] + b[i + 1..];
      assert multiset(b') == multiset(b) - multiset{x};
      assert multiset(a') == multiset(a) - multiset{x};
      TotalPermutation(a', b', w);
      TotalAppend(b[..i] + [x], b[i + 1..], w);
      TotalSnoc(b[..i], x, w);
      TotalAppend(b[..i], b[i + 1..], w);
      TotalSnoc(a', x, w);
    }
  }
}
