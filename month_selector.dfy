/**
 * The month selector (src/components/MonthSelector.tsx): the months one
 * before and one after the selection, and the two buttons that choose them.
 * Months are (year, month) pairs; the day of month is not modelled.
 */
module MonthSelector {

  /** A calendar month; `month` runs from 1 (January) to 12 (December). */
  datatype YearMonth = YearMonth(year: int, month: int)

  predicate Valid(ym: YearMonth) {
    1 <= ym.month <= 12
  }

  /** Months counted from January of year 0: consecutive months differ by one. */
  function MonthIndex(ym: YearMonth): int {
    ym.year * 12 + (ym.month - 1)
  }

  function FromIndex(n: int): (ym: YearMonth)
    ensures Valid(ym) && MonthIndex(ym) == n
  {
    YearMonth(n / 12, n % 12 + 1)
  }

  /** A valid month is determined by its index. */
  lemma FromIndexOfMonthIndex(ym: YearMonth)
    requires Valid(ym)
    ensures FromIndex(MonthIndex(ym)) == ym
  {
    var n := MonthIndex(ym);
    assert n == ym.year * 12 + (ym.month - 1) && 0 <= ym.month - 1 < 12;
    assert n / 12 == ym.year && n % 12 == ym.month - 1;
  }

  lemma MonthIndexInjective(a: YearMonth, b: YearMonth)
    requires Valid(a) && Valid(b) && MonthIndex(a) == MonthIndex(b)
    ensures a == b
  {
    FromIndexOfMonthIndex(a);
    FromIndexOfMonthIndex(b);
  }

  /** `subMonths(selectedMonth, 1)`. */
  function Prev(ym: YearMonth): (r: YearMonth)
    requires Valid(ym)
    ensures Valid(r) && MonthIndex(r) == MonthIndex(ym) - 1
    ensures ym.month == 1 ==> r.year == ym.year - 1 && r.month == 12
    ensures ym.month > 1 ==> r.year == ym.year && r.month == ym.month - 1
  {
    if ym.month == 1 then YearMonth(ym.year - 1, 12) else YearMonth(ym.year, ym.month - 1)
  }

  /** `addMonths(selectedMonth, 1)`. */
  function Next(ym: YearMonth): (r: YearMonth)
    requires Valid(ym)
    ensures Valid(r) && MonthIndex(r) == MonthIndex(ym) + 1
    ensures ym.month == 12 ==> r.year == ym.year + 1 && r.month == 1
    ensures ym.month < 12 ==> r.year == ym.year && r.month == ym.month + 1
  {
    if ym.month == 12 then YearMonth(ym.year + 1, 1) else YearMonth(ym.year, ym.month + 1)
  }

  /** Going back a month and then forward again returns to the same month, and the reverse. */
  lemma PrevNextRoundTrip(ym: YearMonth)
    requires Valid(ym)
    ensures Next(Prev(ym)) == ym && Prev(Next(ym)) == ym
  {
    MonthIndexInjective(Next(Prev(ym)), ym);
    MonthIndexInjective(Prev(Next(ym)), ym);
  }

  /** `Prev` and `Next` are the month before and after by the independent month count. */
  lemma PrevNextByIndex(ym: YearMonth)
    requires Valid(ym)
    ensures Prev(ym) == FromIndex(MonthIndex(ym) - 1)
    ensures Next(ym) == FromIndex(MonthIndex(ym) + 1)
  {
    MonthIndexInjective(Prev(ym), FromIndex(MonthIndex(ym) - 1));
    MonthIndexInjective(Next(ym), FromIndex(MonthIndex(ym) + 1));
  }

  datatype Button = Left | Right

  /** The month a button click passes to `setSelectedMonth`. */
  function OnClick(selected: YearMonth, b: Button): (r: YearMonth)
    requires Valid(selected)
    ensures Valid(r)
    ensures MonthIndex(r) == MonthIndex(selected) + (if b == Left then -1 else 1)
    ensures b == Left ==> r == Prev(selected)
    ensures b == Right ==> r == Next(selected)
  {
    match b
    case Left => Prev(selected)
    case Right => Next(selected)
  }

  /** A Left click undone by a Right click, or the reverse, leaves the selection as it was. */
  lemma ClicksCancel(selected: YearMonth)
    requires Valid(selected)
    ensures OnClick(OnClick(selected, Left), Right) == selected
    ensures OnClick(OnClick(selected, Right), Left) == selected
  {
    PrevNextRoundTrip(selected);
  }
}
