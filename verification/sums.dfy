/** Sums over sequences that depend only on the multiset of their elements. */
module Sums {

  function SumOf<T>(s: seq<T>, f: T -> int): int {
    if s == [] then 0 else f(s[0]) + SumOf(s[1..], f)
  }

  lemma {:induction false} SumConcat<T>(a: seq<T>, b: seq<T>, f: T -> int)
    ensures SumOf(a + b, f) == SumOf(a, f) + SumOf(b, f)
  {
    if a == [] {
      assert a + b == b;
    } else {
      assert (a + b)[1..] == a[1..] + b;
      SumConcat(a[1..], b, f);
    }
  }

  lemma SumRemove<T>(s: seq<T>, k: nat, f: T -> int)
    requires k < |s|
    ensures SumOf(s, f) == f(s[k]) + SumOf(s[..k] + s[k + 1..], f)
  {
    assert s == s[..k] + ([s[k]] + s[k + 1..]);
    SumConcat(s[..k], [s[k]] + s[k + 1..], f);
    SumConcat(s[..k], s[k + 1..], f);
  }

  lemma SumSplitAt<T>(s: seq<T>, k: nat, x: T, f: T -> int)
    requires k < |s|
    ensures SumOf(s[k := x], f) == SumOf(s, f) - f(s[k]) + f(x)
  {
    SumRemove(s, k, f);
    SumRemove(s[k := x], k, f);
    assert s[k := x][..k] + s[k := x][k + 1..] == s[..k] + s[k + 1..];
  }

  /** Removing one occurrence of an element from both sides of a permutation keeps a permutation. */
  lemma RemoveOne<T>(s: seq<T>, k: nat)
    requires k < |s|
    ensures multiset(s[..k] + s[k + 1..]) == multiset(s) - multiset{s[k]}
  {
    assert s == s[..k] + ([s[k]] + s[k + 1..]);
  }

  /** The sum is a function of the multiset alone. */
  lemma {:induction false} SumPermutation<T>(a: seq<T>, b: seq<T>, f: T -> int)
    requires multiset(a) == multiset(b)
    ensures SumOf(a, f) == SumOf(b, f)
  {
    if a == [] {
      assert |multiset(b)| == 0;
      assert b == [];
    } else {
      assert a[0] in multiset(b);
      var k :| 0 <= k < |b| && b[k] == a[0];
      RemoveOne(b, k);
      RemoveOne(a, 0);
      assert a[..0] + a[1..] == a[1..];
      SumPermutation(a[1..], b[..k] + b[k + 1..], f);
      SumRemove(b, k, f);
    }
  }

  lemma {:induction false} SumBounds<T>(s: seq<T>, f: T -> int)
    requires forall x | x in s :: f(x) >= 0
    ensures SumOf(s, f) >= 0
    ensures forall x | x in s :: f(x) <= SumOf(s, f)
  {
    if s != [] {
      SumBounds(s[1..], f);
      assert forall x | x in s :: x == s[0] || x in s[1..];
    }
  }

  function BagOf<T, U>(s: seq<T>, f: T -> multiset<U>): multiset<U> {
    if s == [] then multiset{} else f(s[0]) + BagOf(s[1..], f)
  }

  lemma {:induction false} BagConcat<T, U>(a: seq<T>, b: seq<T>, f: T -> multiset<U>)
    ensures BagOf(a + b, f) == BagOf(a, f) + BagOf(b, f)
  {
    if a == [] {
      assert a + b == b;
    } else {
      assert (a + b)[1..] == a[1..] + b;
      BagConcat(a[1..], b, f);
    }
  }

  lemma BagRemove<T, U>(s: seq<T>, k: nat, f: T -> multiset<U>)
    requires k < |s|
    ensures BagOf(s, f) == f(s[k]) + BagOf(s[..k] + s[k + 1..], f)
  {
    assert s == s[..k] + ([s[k]] + s[k + 1..]);
    BagConcat(s[..k], [s[k]] + s[k + 1..], f);
    BagConcat(s[..k], s[k + 1..], f);
    assert BagOf([s[k]] + s[k + 1..], f) == f(s[k]) + BagOf(s[k + 1..], f);
  }

  /** The gathered bag is a function of the multiset alone. */
  lemma {:induction false} BagPermutation<T, U>(a: seq<T>, b: seq<T>, f: T -> multiset<U>)
    requires multiset(a) == multiset(b)
    ensures BagOf(a, f) == BagOf(b, f)
  {
    if a == [] {
      assert |multiset(b)| == 0;
      assert b == [];
    } else {
      assert a[0] in multiset(b);
      var k :| 0 <= k < |b| && b[k] == a[0];
      RemoveOne(b, k);
      RemoveOne(a, 0);
      assert a[..0] + a[1..] == a[1..];
      BagPermutation(a[1..], b[..k] + b[k + 1..], f);
      BagRemove(b, k, f);
    }
  }

  lemma {:induction false} BagMember<T, U>(s: seq<T>, f: T -> multiset<U>, u: U)
    ensures u in BagOf(s, f) <==> exists x :: x in s && u in f(x)
  {
    if s != [] {
      BagMember(s[1..], f, u);
      assert forall x | x in s :: x == s[0] || x in s[1..];
    }
  }

  /** Gathering one element more. */
  lemma BagLast<T, U>(s: seq<T>, f: T -> multiset<U>)
    requires s != []
    ensures BagOf(s, f) == BagOf(s[..|s| - 1], f) + f(s[|s| - 1])
  {
    var x := s[|s| - 1];
    assert s == s[..|s| - 1] + [x];
    BagConcat(s[..|s| - 1], [x], f);
    assert [x][1..] == [];
  }

  /** Adding one element more. */
  lemma SumLast<T>(s: seq<T>, f: T -> int)
    requires s != []
    ensures SumOf(s, f) == SumOf(s[..|s| - 1], f) + f(s[|s| - 1])
  {
    var x := s[|s| - 1];
    assert s == s[..|s| - 1] + [x];
    SumConcat(s[..|s| - 1], [x], f);
    assert [x][1..] == [];
  }
}
