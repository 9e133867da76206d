/**
 * Grouping a list into a dictionary keyed by a string field, as
 * `grouped[key].push(x)` does over a list, and the facts about such groups:
 * each group is the sublist with its key, and the groups partition the list.
 */
module Grouping {
  import opened Text
  import opened DateSort

  predicate Distinct<T(==)>(s: seq<T>) {
    forall i, j :: 0 <= i < j < |s| ==> s[i] != s[j]
  }

  /** The keys of `s` in order of first appearance: `Object.keys` of the dictionary. */
  function FirstKeys<T>(s: seq<T>, key: T -> string): (r: seq<string>)
    ensures Distinct(r)
    ensures forall k :: k in r <==> exists i :: 0 <= i < |s| && key(s[i]) == k
    decreases |s|
  {
    if s == [] then []
    else
      var p := s[..|s| - 1];
      var r := FirstKeys(p, key);
      assert forall i :: 0 <= i < |p| ==> s[i] == p[i];
      if key(s[|s| - 1]) in r then r else r + [key(s[|s| - 1])]
  }

  /** A distinct list holds each value at most once. */
  lemma {:induction false} DistinctCount<T>(s: seq<T>, x: T)
    requires Distinct(s)
    ensures multiset(s)[x] <= 1
    decreases |s|
  {
    if s != [] {
      assert s == [s[0]] + s[1..];
      DistinctTail(s);
      DistinctCount(s[1..], x);
    }
  }

  /** Reordering a distinct list keeps it distinct. */
  lemma DistinctPermutation<T>(s: seq<T>, r: seq<T>)
    requires Distinct(s) && multiset(r) == multiset(s)
    ensures Distinct(r)
  {
    forall i, j | 0 <= i < j < |r| ensures r[i] != r[j] {
      if r[i] == r[j] {
        var x := r[i];
        assert r == r[..j] + r[j..];
        assert x in r[..j] && x in r[j..] by {
          assert r[..j][i] == x && r[j..][0] == x;
        }
        assert multiset(r)[x] == multiset(r[..j])[x] + multiset(r[j..])[x];
        DistinctCount(s, x);
      }
    }
  }

  /** Sorting distinct keys newest first puts them in strictly decreasing order. */
  lemma StrictlyDescending(keys: seq<string>, sorted: seq<string>)
    requires Distinct(keys) && multiset(sorted) == multiset(keys)
    requires SortedDesc(sorted, Same)
    ensures forall i, j :: 0 <= i < j < |sorted| ==> Lt(sorted[j], sorted[i])
  {
    DistinctPermutation(keys, sorted);
    forall i, j | 0 <= i < j < |sorted| ensures Lt(sorted[j], sorted[i]) {
      assert !Lt(Same(sorted[i]), Same(sorted[j]));
      LtTotal(sorted[i], sorted[j]);
    }
  }

  /** The key function of a list of keys. */
  function Same(s: string): string { s }

  /** The groups of `keys`, one after the other. */
  function GroupsOf<T>(keys: seq<string>, s: seq<T>, key: T -> string): seq<T>
    decreases |keys|
  {
    if keys == [] then [] else FilterKey(s, key, keys[0]) + GroupsOf(keys[1..], s, key)
  }

  lemma {:induction false} GroupsOfEmpty<T>(keys: seq<string>, key: T -> string)
    ensures GroupsOf(keys, [], key) == []
    decreases |keys|
  {
    if keys != [] {
      GroupsOfEmpty(keys[1..], key);
    }
  }

  /** A new first element lands in the group of its key, if that key is listed. */
  lemma {:induction false} GroupsOfCons<T>(keys: seq<string>, x: T, rest: seq<T>, key: T -> string)
    requires Distinct(keys)
    ensures multiset(GroupsOf(keys, [x] + rest, key))
         == multiset(GroupsOf(keys, rest, key)) + (if key(x) in keys then multiset{x} else multiset{})
    decreases |keys|
  {
    if keys != [] {
      var k0, ks := keys[0], keys[1..];
      DistinctTail(keys);
      GroupsOfCons(ks, x, rest, key);
      FilterKeyCons(x, rest, key, k0);
      assert keys == [k0] + ks;
      var gx, g := GroupsOf(ks, [x] + rest, key), GroupsOf(ks, rest, key);
      assert GroupsOf(keys, [x] + rest, key) == FilterKey([x] + rest, key, k0) + gx;
      assert GroupsOf(keys, rest, key) == FilterKey(rest, key, k0) + g;
      ConsStep(x, keys, key(x), FilterKey([x] + rest, key, k0), FilterKey(rest, key, k0), gx, g);
    }
  }

  /** One step of `GroupsOfCons`, on the parts it is made of. */
  lemma ConsStep<T>(x: T, keys: seq<string>, kx: string, fx: seq<T>, f: seq<T>, gx: seq<T>, g: seq<T>)
    requires keys != [] && keys[0] !in keys[1..]
    requires fx == (if kx == keys[0] then [x] else []) + f
    requires multiset(gx) == multiset(g) + (if kx in keys[1..] then multiset{x} else multiset{})
    ensures multiset(fx + gx) == multiset(f + g) + (if kx in keys then multiset{x} else multiset{})
  {
    assert keys == [keys[0]] + keys[1..];
  }

  /** The tail of a distinct list is distinct and misses the head. */
  lemma DistinctTail<T>(s: seq<T>)
    requires Distinct(s) && s != []
    ensures Distinct(s[1..]) && s[0] !in s[1..]
  {
    forall i, j | 0 <= i < j < |s[1..]| ensures s[1..][i] != s[1..][j] {
      assert s[1..][i] == s[i + 1] && s[1..][j] == s[j + 1];
    }
    forall m | 0 <= m < |s[1..]| ensures s[1..][m] != s[0] {
      assert s[1..][m] == s[m + 1];
    }
  }

  /** With distinct keys covering every element, the groups together are the list, reordered. */
  lemma {:induction false} GroupsPartition<T>(keys: seq<string>, s: seq<T>, key: T -> string)
    requires Distinct(keys)
    requires forall i :: 0 <= i < |s| ==> key(s[i]) in keys
    ensures multiset(GroupsOf(keys, s, key)) == multiset(s)
    decreases |s|
  {
    if s == [] {
      GroupsOfEmpty(keys, key);
    } else {
      assert s == [s[0]] + s[1..];
      assert forall i :: 0 <= i < |s[1..]| ==> s[1..][i] == s[i + 1];
      GroupsPartition(keys, s[1..], key);
      GroupsOfCons(keys, s[0], s[1..], key);
    }
  }
}
