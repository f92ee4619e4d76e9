/** Sums of integer weights over sequences. */
module Sums {

  function Sum<T>(f: T -> int, q: seq<T>): int
  {
    if q == [] then 0 else f(q[0]) + Sum(f, q[1..])
  }

  lemma {:induction false} SumAppend<T>(f: T -> int, a: seq<T>, b: seq<T>)
    ensures Sum(f, a + b) == Sum(f, a) + Sum(f, b)
  {
    if a == [] {
      assert a + b == b;
    } else {
      assert (a + b)[1..] == a[1..] + b;
      SumAppend(f, a[1..], b);
    }
  }

  lemma SumSnoc<T>(f: T -> int, a: seq<T>, x: T)
    ensures Sum(f, a + [x]) == Sum(f, a) + f(x)
  {
    SumAppend(f, a, [x]);
  }

  lemma SumWithout<T>(f: T -> int, q: seq<T>, i: nat)
    requires i < |q|
    ensures Sum(f, q) == Sum(f, q[..i] + q[i + 1..]) + f(q[i])
  {
    assert q == q[..i] + ([q[i]] + q[i + 1..]);
    SumAppend(f, q[..i], [q[i]] + q[i + 1..]);
    SumAppend(f, q[..i], q[i + 1..]);
    SumAppend(f, [q[i]], q[i + 1..]);
  }

  lemma {:induction false} SumBounds<T>(f: T -> int, q: seq<T>, lo: int, hi: int)
    requires forall m :: m in q ==> lo <= f(m) <= hi
    ensures lo * |q| <= Sum(f, q) <= hi * |q|
  {
    if q != [] {
      var n := |q| - 1;
      SumBounds(f, q[1..], lo, hi);
      assert q[0] in q;
      assert lo * (n + 1) == lo * n + lo && hi * (n + 1) == hi * n + hi;
    }
  }

  lemma {:induction false} SumIsNat<T(!new)>(f: T -> int, q: seq<T>)
    requires forall m :: f(m) >= 0
    ensures Sum(f, q) >= 0
  {
    if q != [] {
      SumIsNat(f, q[1..]);
    }
  }

  ghost predicate Distinct<T>(q: seq<T>)
  {
    forall i, j :: 0 <= i < j < |q| ==> q[i] != q[j]
  }

  /** Two repetition-free sequences with the same members have the same sum. */
  lemma {:induction false} SumOfSameMembers<T>(f: T -> int, a: seq<T>, b: seq<T>)
    requires Distinct(a) && Distinct(b)
    requires forall m :: m in a <==> m in b
    ensures Sum(f, a) == Sum(f, b) && |a| == |b|
  {
    assert b != [] ==> b[0] in b;
    if a != [] {
      assert a[0] in b;
      var i :| 0 <= i < |b| && b[i] == a[0];
      var c := b[..i] + b[i + 1..];
      SumWithout(f, b, i);
      forall m ensures m in a[1..] <==> m in c {
        if m in a[1..] { assert m in b; }
        if m in c { assert m in b; assert m in a; }
      }
      SumOfSameMembers(f, a[1..], c);
    }
  }
}
