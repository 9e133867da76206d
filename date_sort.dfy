/**
 * The descending date sort `xs.sort((a, b) => b.date.localeCompare(a.date))`.
 * `Array.prototype.sort` is stable, so the model is a stable insertion sort,
 * generic in the element type and in the key (the date string) it compares.
 */
module DateSort {
  import opened Text

  /** Keys never increase from left to right. */
  predicate SortedDesc<T>(s: seq<T>, key: T -> string) {
    forall i, j :: 0 <= i < j < |s| ==> !Lt(key(s[i]), key(s[j]))
  }

  lemma SortedDescCons<T>(x: T, s: seq<T>, key: T -> string)
    ensures SortedDesc([x] + s, key) <==>
      SortedDesc(s, key) && forall y :: y in s ==> !Lt(key(x), key(y))
  {
    var xs := [x] + s;
    if SortedDesc(s, key) && forall y :: y in s ==> !Lt(key(x), key(y)) {
      forall i, j | 0 <= i < j < |xs| ensures !Lt(key(xs[i]), key(xs[j])) {
        if i == 0 {
          assert xs[j] == s[j - 1];
        } else {
          assert xs[i] == s[i - 1] && xs[j] == s[j - 1];
        }
      }
    }
    if SortedDesc(xs, key) {
      forall y | y in s ensures !Lt(key(x), key(y)) {
        var m :| 0 <= m < |s| && s[m] == y;
        assert xs[0] == x && xs[m + 1] == y;
        assert !Lt(key(xs[0]), key(xs[m + 1]));
      }
      forall i, j | 0 <= i < j < |s| ensures !Lt(key(s[i]), key(s[j])) {
        assert xs[i + 1] == s[i] && xs[j + 1] == s[j];
      }
    }
  }

  /** Places `x` after every element whose key is strictly later, before the rest. */
  function Insert<T>(x: T, t: seq<T>, key: T -> string): (r: seq<T>)
    ensures multiset(r) == multiset(t) + multiset{x}
    ensures |r| == |t| + 1
    decreases |t|
  {
    if t != [] && Lt(key(x), key(t[0])) then
      assert t == [t[0]] + t[1..];
      [t[0]] + Insert(x, t[1..], key)
    else [x] + t
  }

  lemma {:induction false} InsertSorted<T>(x: T, t: seq<T>, key: T -> string)
    requires SortedDesc(t, key)
    ensures SortedDesc(Insert(x, t, key), key)
    decreases |t|
  {
    if t == [] {
    } else if Lt(key(x), key(t[0])) {
      var rest := Insert(x, t[1..], key);
      assert t == [t[0]] + t[1..];
      SortedDescCons(t[0], t[1..], key);
      InsertSorted(x, t[1..], key);
      forall y | y in rest ensures !Lt(key(t[0]), key(y)) {
        assert y in multiset(rest);
        if y == x {
          LtAsymmetric(key(x), key(t[0]));
        }
      }
      SortedDescCons(t[0], rest, key);
    } else {
      assert t == [t[0]] + t[1..];
      SortedDescCons(t[0], t[1..], key);
      forall y | y in t ensures !Lt(key(x), key(y)) {
        if y != t[0] {
          assert y in t[1..];
          NotLtTransitive(key(x), key(t[0]), key(y));
        }
      }
      SortedDescCons(x, t, key);
    }
  }

  /** The stable descending sort. */
  function SortDesc<T>(s: seq<T>, key: T -> string): (r: seq<T>)
    ensures |r| == |s| && multiset(r) == multiset(s)
    decreases |s|
  {
    if s == [] then []
    else
      var t := SortDesc(s[1..], key);
      assert s == [s[0]] + s[1..];
      assert multiset(s) == multiset(s[1..]) + multiset{s[0]};
      Insert(s[0], t, key)
  }

  lemma {:induction false} SortDescSorted<T>(s: seq<T>, key: T -> string)
    ensures SortedDesc(SortDesc(s, key), key)
    decreases |s|
  {
    if s != [] {
      SortDescSorted(s[1..], key);
      InsertSorted(s[0], SortDesc(s[1..], key), key);
    }
  }

  /** The elements whose key is `k`, in their original order. */
  function FilterKey<T>(s: seq<T>, key: T -> string, k: string): (r: seq<T>)
    ensures forall i :: 0 <= i < |r| ==> key(r[i]) == k
    ensures |r| <= |s|
    decreases |s|
  {
    if s == [] then []
    else (if key(s[0]) == k then [s[0]] else []) + FilterKey(s[1..], key, k)
  }

  lemma {:induction false} FilterKeyAppend<T>(a: seq<T>, b: seq<T>, key: T -> string, k: string)
    ensures FilterKey(a + b, key, k) == FilterKey(a, key, k) + FilterKey(b, key, k)
    decreases |a|
  {
    if a == [] {
      assert a + b == b;
    } else {
      assert (a + b)[1..] == a[1..] + b;
      FilterKeyAppend(a[1..], b, key, k);
    }
  }

  /** Inserting moves `x` only past elements with other keys. */
  lemma {:induction false} InsertFilterKey<T>(x: T, t: seq<T>, key: T -> string, k: string)
    ensures FilterKey(Insert(x, t, key), key, k) == FilterKey([x] + t, key, k)
    decreases |t|
  {
    if t != [] && Lt(key(x), key(t[0])) {
      var t0, u := t[0], t[1..];
      assert t == [t0] + u;
      assert key(x) != key(t0) by {
        if key(x) == key(t0) {
          LtIrreflexive(key(x));
        }
      }
      assert Insert(x, t, key) == [t0] + Insert(x, u, key);
      InsertFilterKey(x, u, key, k);
      FilterKeyCons(t0, Insert(x, u, key), key, k);
      FilterKeyCons(x, u, key, k);
      FilterKeyCons(t0, u, key, k);
      FilterKeyCons(x, t, key, k);
      SwapKept(x, t0, key, k, FilterKey(u, key, k));
    }
  }

  /** Two elements with different keys cannot both be kept, so their order does not matter. */
  lemma SwapKept<T>(x: T, y: T, key: T -> string, k: string, rest: seq<T>)
    requires key(x) != key(y)
    ensures (if key(y) == k then [y] else []) + ((if key(x) == k then [x] else []) + rest)
         == (if key(x) == k then [x] else []) + ((if key(y) == k then [y] else []) + rest)
  {
  }

  lemma FilterKeyCons<T>(y: T, s: seq<T>, key: T -> string, k: string)
    ensures FilterKey([y] + s, key, k) == (if key(y) == k then [y] else []) + FilterKey(s, key, k)
  {
    assert ([y] + s)[1..] == s;
  }

  /** Stability: the elements with any one key keep their relative order. */
  lemma {:induction false} SortDescStable<T>(s: seq<T>, key: T -> string, k: string)
    ensures FilterKey(SortDesc(s, key), key, k) == FilterKey(s, key, k)
    decreases |s|
  {
    if s != [] {
      var t := SortDesc(s[1..], key);
      InsertFilterKey(s[0], t, key, k);
      SortDescStable(s[1..], key, k);
      assert ([s[0]] + t)[1..] == t;
    }
  }

  /** A list already in descending order is left as it is. */
  lemma {:induction false} SortDescOfSorted<T>(s: seq<T>, key: T -> string)
    requires SortedDesc(s, key)
    ensures SortDesc(s, key) == s
    decreases |s|
  {
    if s != [] {
      assert s == [s[0]] + s[1..];
      SortedDescCons(s[0], s[1..], key);
      SortDescOfSorted(s[1..], key);
    }
  }
}
