/**
 * Drag-to-reorder within one category list
 * (src/components/SortableCategoryList.tsx). Each item gets a position key
 * scoped to its container; a drop resolves the dragged and the target key to
 * positions and moves the dragged item there. The drag library itself is not
 * modelled: the resolved `active` and `over` keys are inputs.
 */
module SortableCategoryList {
  import opened Wrappers
  import opened Text
  import Decimal
  import opened BudgetData

  /** The key `${containerId}-${i}` of the item at position `i`. */
  function Key(containerId: string, i: nat): string {
    containerId + "-" + Decimal.Digits(i)
  }

  /** `items.map((_, i) => key)`: one key per position. */
  function Ids(containerId: string, n: nat): (ids: seq<string>)
    ensures |ids| == n
    ensures forall i :: 0 <= i < n ==> ids[i] == Key(containerId, i)
  {
    seq(n, i requires 0 <= i < n => Key(containerId, i))
  }

  /** In a key, the separator is the last '-': the position digits contain none. */
  lemma KeyLastDash(a: string, i: nat)
    ensures Key(a, i)[|a|] == '-'
    ensures forall k :: |a| < k < |Key(a, i)| ==> Key(a, i)[k] != '-'
  {
    var d := Decimal.Digits(i);
    assert forall k :: |a| < k < |Key(a, i)| ==> Key(a, i)[k] == d[k - |a| - 1];
  }

  /** Two keys are equal only for the same container and the same position. */
  lemma KeyInjective(a: string, i: nat, b: string, j: nat)
    requires Key(a, i) == Key(b, j)
    ensures a == b && i == j
  {
    var s := Key(a, i);
    KeyLastDash(a, i);
    KeyLastDash(b, j);
    assert |a| == |b|;
    assert a == s[..|a|] == b;
    assert Decimal.Digits(i) == s[|a| + 1..] == Decimal.Digits(j);
    Decimal.DigitsInjective(i, j);
  }

  /** Keys within one list are pairwise distinct. */
  lemma IdsDistinct(containerId: string, n: nat)
    ensures forall i, j :: 0 <= i < j < n ==> Ids(containerId, n)[i] != Ids(containerId, n)[j]
  {
    forall i, j | 0 <= i < j < n ensures Ids(containerId, n)[i] != Ids(containerId, n)[j] {
      if Key(containerId, i) == Key(containerId, j) {
        KeyInjective(containerId, i, containerId, j);
      }
    }
  }

  /** Looking a key of this list up finds its own position. */
  lemma IndexOfKey(containerId: string, n: nat, i: nat)
    requires i < n
    ensures IndexOf(Ids(containerId, n), Key(containerId, i)) == i
  {
    var ids := Ids(containerId, n);
    var k := IndexOf(ids, Key(containerId, i));
    assert ids[i] == Key(containerId, i);
    KeyInjective(containerId, k, containerId, i);
  }

  /** A key of another container is not a key of this list. */
  lemma ForeignKeyNotInIds(containerId: string, n: nat, other: string, j: nat)
    requires other != containerId
    ensures Key(other, j) !in Ids(containerId, n)
  {
    if Key(other, j) in Ids(containerId, n) {
      var i :| 0 <= i < n && Ids(containerId, n)[i] == Key(other, j);
      KeyInjective(containerId, i, other, j);
    }
  }

  /**
   * `arrayMove(copy, from, to)`: the item at `from` is taken out and put back
   * in at `to`. The argument is a value, so the caller's list is untouched.
   */
  function ArrayMove<T>(s: seq<T>, from: nat, to: nat): (r: seq<T>)
    requires from < |s| && to < |s|
    ensures |r| == |s| && multiset(r) == multiset(s)
    ensures r[to] == s[from]
    ensures from < to ==> forall i :: from <= i < to ==> r[i] == s[i + 1]
    ensures to < from ==> forall i :: to < i <= from ==> r[i] == s[i - 1]
    ensures forall i :: 0 <= i < |s| && (i < from || i > to) && (i < to || i > from) ==> r[i] == s[i]
  {
    var t := RemoveAt(s, from);
    assert multiset(t) + multiset{s[from]} == multiset(s);
    InsertAt(t, to, s[from])
  }

  /** `splice(from, 1)`: the list without the element at `from`. */
  function RemoveAt<T>(s: seq<T>, from: nat): (t: seq<T>)
    requires from < |s|
    ensures |t| == |s| - 1
    ensures multiset(t) == multiset(s) - multiset{s[from]}
    ensures forall i :: 0 <= i < from ==> t[i] == s[i]
    ensures forall i :: from <= i < |t| ==> t[i] == s[i + 1]
  {
    assert s == s[..from] + [s[from]] + s[from + 1..];
    assert multiset(s) == multiset(s[..from]) + multiset{s[from]} + multiset(s[from + 1..]);
    s[..from] + s[from + 1..]
  }

  /** `splice(to, 0, x)`: `x` inserted before position `to`. */
  function InsertAt<T>(t: seq<T>, to: nat, x: T): (r: seq<T>)
    requires to <= |t|
    ensures |r| == |t| + 1
    ensures multiset(r) == multiset(t) + multiset{x}
    ensures r[to] == x
    ensures forall i :: 0 <= i < to ==> r[i] == t[i]
    ensures forall i :: to < i < |r| ==> r[i] == t[i - 1]
  {
    assert t == t[..to] + t[to..];
    t[..to] + [x] + t[to..]
  }

  /** Moving back undoes a move. */
  lemma ArrayMoveInverse<T>(s: seq<T>, from: nat, to: nat)
    requires from < |s| && to < |s|
    ensures ArrayMove(ArrayMove(s, from, to), to, from) == s
  {
    var m := ArrayMove(s, from, to);
    var r := ArrayMove(m, to, from);
    forall i | 0 <= i < |s| ensures r[i] == s[i] {
      if i == from {
        assert r[i] == m[to];
      } else if from < i <= to {
        assert r[i] == m[i - 1];
      } else if to <= i < from {
        assert r[i] == m[i + 1];
      }
    }
  }

  /** Moving an item onto its own position changes nothing. */
  lemma ArrayMoveSame<T>(s: seq<T>, i: nat)
    requires i < |s|
    ensures ArrayMove(s, i, i) == s
  {
    assert forall k :: 0 <= k < |s| ==> ArrayMove(s, i, i)[k] == s[k];
  }

  /**
   * The list `onReorder` receives at the end of a drag, or `None` when it is
   * not called: no target, the target is the dragged item's own key, or
   * either key is not one of this list's keys.
   */
  function DragEndOutcome(items: seq<BudgetCategory>, containerId: string, active: string, over: Option<string>)
    : (r: Option<seq<BudgetCategory>>)
    ensures over.None? || over.value == active ==> r.None?
    ensures active !in Ids(containerId, |items|) ==> r.None?
    ensures over.Some? && over.value !in Ids(containerId, |items|) ==> r.None?
    ensures r.Some? ==> |r.value| == |items| && multiset(r.value) == multiset(items)
  {
    if over.None? || active == over.value then None
    else
      var ids := Ids(containerId, |items|);
      var oldIndex := IndexOf(ids, active);
      var newIndex := IndexOf(ids, over.value);
      if oldIndex == -1 || newIndex == -1 then None
      else Some(ArrayMove(items, oldIndex, newIndex))
  }

  /** Dropping the item at `i` on the item at `j` of the same list moves it from `i` to `j`. */
  lemma DropOnItem(items: seq<BudgetCategory>, containerId: string, i: nat, j: nat)
    requires i < |items| && j < |items| && i != j
    ensures DragEndOutcome(items, containerId, Key(containerId, i), Some(Key(containerId, j)))
         == Some(ArrayMove(items, i, j))
  {
    if Key(containerId, i) == Key(containerId, j) {
      KeyInjective(containerId, i, containerId, j);
    }
    IndexOfKey(containerId, |items|, i);
    IndexOfKey(containerId, |items|, j);
  }

  /** Dropping on an item of another list never reorders this one. */
  lemma DropOnForeignItem(items: seq<BudgetCategory>, containerId: string, active: string, other: string, j: nat)
    requires other != containerId
    ensures DragEndOutcome(items, containerId, active, Some(Key(other, j))).None?
  {
    ForeignKeyNotInIds(containerId, |items|, other, j);
  }

  /** The list's own state: the key of the item being dragged, if any. */
  class DragState {
    var activeId: Option<string>

    constructor ()
      ensures activeId.None?
    {
      activeId := None;
    }

    /** `handleDragStart`: remember the dragged key. */
    method HandleDragStart(active: string)
      modifies this
      ensures activeId == Some(active)
    {
      activeId := Some(active);
    }

    /** `handleDragEnd`: forget the dragged key whatever happens, then report the reorder, if any. */
    method HandleDragEnd(items: seq<BudgetCategory>, containerId: string, active: string, over: Option<string>)
      returns (reorder: Option<seq<BudgetCategory>>)
      modifies this
      ensures activeId.None?
      ensures reorder == DragEndOutcome(items, containerId, active, over)
    {
      activeId := None;
      reorder := DragEndOutcome(items, containerId, active, over);
    }

    /** `activeIndex`: -1 unless a non-empty key is active; otherwise its position, or -1. */
    function ActiveIndex(containerId: string, n: nat): (k: int)
      reads this
      ensures -1 <= k < n
      ensures k >= 0 <==> activeId.Some? && activeId.value in Ids(containerId, n)
      ensures k >= 0 ==> Ids(containerId, n)[k] == activeId.value
    {
      match activeId
      case None => -1
      case Some(id) =>
        if id == "" then
          assert forall i :: 0 <= i < n ==> |Ids(containerId, n)[i]| > 0;
          -1
        else IndexOf(Ids(containerId, n), id)
    }

    /** The drag overlay: the active item and its position while a drag of one of these items runs. */
    function Overlay(items: seq<BudgetCategory>, containerId: string): (r: Option<(BudgetCategory, nat)>)
      reads this
      ensures r.Some? <==> activeId.Some? && activeId.value in Ids(containerId, |items|)
      ensures r.Some? ==>
        r.value.1 < |items| && r.value.0 == items[r.value.1] && Key(containerId, r.value.1) == activeId.value
    {
      var k := ActiveIndex(containerId, |items|);
      if k >= 0 then Some((items[k], k)) else None
    }
  }
}
