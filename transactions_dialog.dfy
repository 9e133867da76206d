/**
 * The per-category transaction dialog (src/components/TransactionsDialog.tsx):
 * an add form guarded against incomplete input, delete with confirmation, and
 * the newest-first listing. `Date.now()`, today's date and the numeric value
 * of the amount text are supplied by the caller.
 */
module TransactionsDialog {
  import opened Wrappers
  import opened Text
  import Decimal
  import opened Money
  import opened Dates
  import opened DateSort
  import opened BudgetData

  /**
   * The form may be submitted: a date is chosen, the amount is not empty and
   * the merchant is not blank, that is, `merchant.trim()` is not empty.
   */
  predicate AddAllowed(date: Option<CalendarDate>, amount: string, merchant: string) {
    date.Some? && amount != "" && !Blank(merchant)
  }

  /** The guard `!date || !amount || !merchant.trim()`, negated. */
  lemma AddAllowedIsTrimTest(date: Option<CalendarDate>, amount: string, merchant: string)
    ensures AddAllowed(date, amount, merchant) <==> date.Some? && amount != "" && Trim(merchant) != ""
  {
  }

  /** The transaction an accepted form creates. */
  function NewTransaction(now: nat, date: CalendarDate, parsedAmount: Money, merchant: string): (t: Transaction)
    ensures t.id == Decimal.Digits(now) && t.date == IsoDate(date) && t.amount == parsedAmount
    ensures t.merchant == Trim(merchant)
  {
    Transaction(Decimal.Digits(now), IsoDate(date), parsedAmount, Trim(merchant))
  }

  /** What `handleAdd` passes to `onUpdate`: the list with the new transaction appended, or nothing. */
  function AddOutcome(
    transactions: seq<Transaction>, date: Option<CalendarDate>, amount: string, merchant: string,
    now: nat, parsedAmount: Money): (r: Option<seq<Transaction>>)
    ensures r.Some? <==> AddAllowed(date, amount, merchant)
    ensures r.Some? ==> r.value == transactions + [NewTransaction(now, date.value, parsedAmount, merchant)]
  {
    if AddAllowed(date, amount, merchant) then
      Some(transactions + [NewTransaction(now, date.value, parsedAmount, merchant)])
    else None
  }

  /** `transactions.filter((t) => t.id !== id)`. */
  function DeleteById(s: seq<Transaction>, id: string): (r: seq<Transaction>)
    ensures |r| <= |s|
    ensures forall t :: t in r <==> t in s && t.id != id
    decreases |s|
  {
    if s == [] then []
    else
      assert forall t :: t in s <==> t == s[0] || t in s[1..];
      (if s[0].id == id then [] else [s[0]]) + DeleteById(s[1..], id)
  }

  /** Deleting an id no transaction has returns the same list. */
  lemma {:induction false} DeleteAbsent(s: seq<Transaction>, id: string)
    requires forall t :: t in s ==> t.id != id
    ensures DeleteById(s, id) == s
    decreases |s|
  {
    if s != [] {
      assert s[0] in s;
      assert forall t :: t in s[1..] ==> t in s;
      DeleteAbsent(s[1..], id);
      assert s == [s[0]] + s[1..];
    }
  }

  lemma {:induction false} DeleteAppend(a: seq<Transaction>, b: seq<Transaction>, id: string)
    ensures DeleteById(a + b, id) == DeleteById(a, id) + DeleteById(b, id)
    decreases |a|
  {
    if a == [] {
      assert a + b == b;
    } else {
      assert (a + b)[1..] == a[1..] + b;
      DeleteAppend(a[1..], b, id);
    }
  }

  /** The kept transactions are the others, each as often as before. */
  lemma {:induction false} DeleteMultiset(s: seq<Transaction>, id: string, t: Transaction)
    ensures multiset(DeleteById(s, id))[t] == if t.id == id then 0 else multiset(s)[t]
    decreases |s|
  {
    if s != [] {
      DeleteMultiset(s[1..], id, t);
      assert s == [s[0]] + s[1..];
    }
  }

  /** Deleting a freshly added transaction by its new id restores the list it was added to. */
  lemma AddThenDelete(s: seq<Transaction>, t: Transaction)
    requires forall u :: u in s ==> u.id != t.id
    ensures DeleteById(s + [t], t.id) == s
  {
    DeleteAppend(s, [t], t.id);
    DeleteAbsent(s, t.id);
    assert DeleteById([t], t.id) == [] by {
      assert [t][1..] == [];
    }
  }

  function TxDate(t: Transaction): string { t.date }

  /** `[...transactions].sort(newest first)`: a sorted copy; the list passed in is not changed. */
  function Sorted(transactions: seq<Transaction>): (r: seq<Transaction>)
    ensures |r| == |transactions| && multiset(r) == multiset(transactions)
    ensures SortedDesc(r, TxDate)
  {
    SortDescSorted(transactions, TxDate);
    SortDesc(transactions, TxDate)
  }

  /** The dialog's own state: the add form and the pending delete. */
  class Dialog {
    var showAdd: bool
    var date: Option<CalendarDate>
    var amount: string
    var merchant: string
    var deletingId: Option<string>

    constructor (today: CalendarDate)
      ensures !showAdd && date == Some(today) && amount == "" && merchant == "" && deletingId.None?
    {
      showAdd, date, amount, merchant, deletingId := false, Some(today), "", "", None;
    }

    /** "Add Transaction": open the form. */
    method OpenAdd()
      modifies this
      ensures showAdd
      ensures date == old(date) && amount == old(amount) && merchant == old(merchant) && deletingId == old(deletingId)
    {
      showAdd := true;
    }

    /** The form's Cancel button hides it and keeps what was typed. */
    method CancelAdd()
      modifies this
      ensures !showAdd
      ensures date == old(date) && amount == old(amount) && merchant == old(merchant) && deletingId == old(deletingId)
    {
      showAdd := false;
    }

    method SetMerchant(text: string)
      modifies this
      ensures merchant == text
      ensures showAdd == old(showAdd) && date == old(date) && amount == old(amount) && deletingId == old(deletingId)
    {
      merchant := text;
    }

    method SetAmount(text: string)
      modifies this
      ensures amount == text
      ensures showAdd == old(showAdd) && date == old(date) && merchant == old(merchant) && deletingId == old(deletingId)
    {
      amount := text;
    }

    /** The calendar selects a date, or clears it when the chosen day is clicked again. */
    method SetDate(d: Option<CalendarDate>)
      modifies this
      ensures date == d
      ensures showAdd == old(showAdd) && amount == old(amount) && merchant == old(merchant) && deletingId == old(deletingId)
    {
      date := d;
    }

    /**
     * `handleAdd`: the list passed to `onUpdate` and the form reset (hidden,
     * emptied, dated today), or nothing at all and no change when the form is
     * incomplete. `parsedAmount` is `Number(amount)`.
     */
    method HandleAdd(transactions: seq<Transaction>, now: nat, today: CalendarDate, parsedAmount: Money)
      returns (update: Option<seq<Transaction>>)
      modifies this
      ensures update == AddOutcome(transactions, old(date), old(amount), old(merchant), now, parsedAmount)
      ensures deletingId == old(deletingId)
      ensures update.Some? ==> !showAdd && amount == "" && merchant == "" && date == Some(today)
      ensures update.None? ==>
        showAdd == old(showAdd) && amount == old(amount) && merchant == old(merchant) && date == old(date)
    {
      if AddAllowed(date, amount, merchant) {
        update := Some(transactions + [NewTransaction(now, date.value, parsedAmount, merchant)]);
        showAdd, amount, merchant, date := false, "", "", Some(today);
      } else {
        update := None;
      }
    }

    /** The trash button asks for confirmation of one transaction's deletion. */
    method RequestDelete(id: string)
      modifies this
      ensures deletingId == Some(id)
      ensures ConfirmOpen() <==> id != ""
      ensures showAdd == old(showAdd) && date == old(date) && amount == old(amount) && merchant == old(merchant)
    {
      deletingId := Some(id);
    }

    /**
     * The confirmation's Delete button: with a non-empty pending id, the
     * list without that id goes to `onUpdate`. The confirmation closes either way.
     */
    method ConfirmDelete(transactions: seq<Transaction>) returns (update: Option<seq<Transaction>>)
      modifies this
      ensures old(deletingId).Some? && old(deletingId).value != "" ==>
        update == Some(DeleteById(transactions, old(deletingId).value))
      ensures old(deletingId).None? || old(deletingId).value == "" ==> update.None?
      ensures update.Some? <==> old(ConfirmOpen())
      ensures deletingId.None? && !ConfirmOpen()
      ensures showAdd == old(showAdd) && date == old(date) && amount == old(amount) && merchant == old(merchant)
    {
      update := None;
      if deletingId.Some? && deletingId.value != "" {
        update := Some(DeleteById(transactions, deletingId.value));
      }
      deletingId := None;
    }

    /** The confirmation's Cancel button, or dismissing it, forgets the pending id. */
    method CancelDelete()
      modifies this
      ensures deletingId.None? && !ConfirmOpen()
      ensures showAdd == old(showAdd) && date == old(date) && amount == old(amount) && merchant == old(merchant)
    {
      deletingId := None;
    }

    /** The confirmation is open while a non-empty id is pending. */
    predicate ConfirmOpen()
      reads this
    {
      deletingId.Some? && deletingId.value != ""
    }

    /** "No transactions yet." shows only for an empty list while the form is hidden. */
    function ShowsEmptyNotice(transactions: seq<Transaction>): (shown: bool)
      reads this
      ensures shown <==> |Sorted(transactions)| == 0 && !showAdd
    {
      |transactions| == 0 && !showAdd
    }
  }
}
