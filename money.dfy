/**
 * Amounts and the `reduce((s, x) => s + f(x), 0)` totals every tab computes.
 * Amounts are whole cents, so sums and differences are exact.
 */
module Money {

  /** An amount of money in cents. */
  type Money = int

  function Dollars(d: int): Money {
    d * 100
  }

  /**
   * `s.reduce((acc, x) => acc + f(x), 0)`: a left fold, last element added
   * last. A total of amounts none of which is negative is not negative.
   */
  function Sum<T>(s: seq<T>, f: T -> int): (r: int)
    ensures (forall x :: x in s ==> f(x) >= 0) ==> r >= 0
    decreases |s|
  {
    if s == [] then 0
    else
      assert forall x :: x in s[..|s| - 1] ==> x in s;
      Sum(s[..|s| - 1], f) + f(s[|s| - 1])
  }

  lemma {:induction false} SumAppend<T>(a: seq<T>, b: seq<T>, f: T -> int)
    ensures Sum(a + b, f) == Sum(a, f) + Sum(b, f)
    decreases |b|
  {
    if b != [] {
      assert (a + b)[..|a + b| - 1] == a + b[..|b| - 1];
      SumAppend(a, b[..|b| - 1], f);
    } else {
      assert a + b == a;
    }
  }

  /** Extending a prefix by one element adds that element's amount. */
  lemma SumPrefix<T>(s: seq<T>, f: T -> int, k: nat)
    requires k < |s|
    ensures Sum(s[..k + 1], f) == Sum(s[..k], f) + f(s[k])
  {
    assert s[..k + 1][..k] == s[..k];
  }

  /** Prepending adds the first element's amount. */
  lemma SumCons<T>(x: T, s: seq<T>, f: T -> int)
    ensures Sum([x] + s, f) == f(x) + Sum(s, f)
  {
    SumAppend([x], s, f);
    assert [x][..0] == [];
  }

  /** Taking one element out of a list takes its amount out of the total. */
  lemma {:induction false} SumRemoveAt<T>(b: seq<T>, i: nat, f: T -> int)
    requires i < |b|
    ensures multiset(b[..i] + b[i + 1..]) == multiset(b) - multiset{b[i]}
    ensures Sum(b, f) == Sum(b[..i] + b[i + 1..], f) + f(b[i])
  {
    var l, r := b[..i], b[i + 1..];
    assert b == l + ([b[i]] + r);
    assert multiset(b) == multiset(l) + multiset{b[i]} + multiset(r);
    assert multiset(l + r) == multiset(l) + multiset(r);
    SumAppend(b[..i], [b[i]] + b[i + 1..], f);
    SumCons(b[i], b[i + 1..], f);
    SumAppend(b[..i], b[i + 1..], f);
  }

  /** A total does not depend on the order of the list. */
  lemma {:induction false} SumPermutation<T>(a: seq<T>, b: seq<T>, f: T -> int)
    requires multiset(a) == multiset(b)
    ensures Sum(a, f) == Sum(b, f)
    decreases |a|
  {
    if a == [] {
      assert |b| == |multiset(b)| == 0;
    } else {
      var x := a[|a| - 1];
      var p := a[..|a| - 1];
      assert a == p + [x];
      assert multiset(p) == multiset(a) - multiset{x};
      assert x in multiset(b);
      var i :| 0 <= i < |b| && b[i] == x;
      SumRemoveAt(b, i, f);
      SumPermutation(p, b[..i] + b[i + 1..], f);
    }
  }
}
