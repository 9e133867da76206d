/**
 * Calendar dates and their `yyyy-MM-dd` form, the form in which transactions
 * store their date. For years below 10000 the string order of that form is
 * the calendar order, which is why sorting date strings sorts by date.
 */
module Dates {
  import opened Text
  import opened Decimal

  datatype CalendarDate = CalendarDate(year: nat, month: nat, day: nat)

  predicate LeapYear(y: nat) {
    (y % 4 == 0 && y % 100 != 0) || y % 400 == 0
  }

  function DaysInMonth(y: nat, m: nat): (n: nat)
    requires 1 <= m <= 12
    ensures 28 <= n <= 31
  {
    if m == 2 then (if LeapYear(y) then 29 else 28)
    else if m == 4 || m == 6 || m == 9 || m == 11 then 30
    else 31
  }

  predicate ValidDate(d: CalendarDate) {
    1 <= d.month <= 12 && 1 <= d.day <= DaysInMonth(d.year, d.month)
  }

  /**
   * `format(date, "yyyy-MM-dd")`. For a valid date before the year 10000 the
   * fields are written at exactly four, two and two digits.
   */
  function IsoDate(d: CalendarDate): (s: string)
    ensures ValidDate(d) && d.year < 10000 ==>
      s == FixedWidth(d.year, 4) + ("-" + (FixedWidth(d.month, 2) + ("-" + FixedWidth(d.day, 2))))
  {
    var y, m, dd := ZeroPad(d.year, 4), ZeroPad(d.month, 2), ZeroPad(d.day, 2);
    JoinThree(y, m, dd, '-');
    if ValidDate(d) && d.year < 10000 then
      assert Pow10(2) == 100 && Pow10(4) == 10000;
      ZeroPadIsFixedWidth(d.year, 4);
      ZeroPadIsFixedWidth(d.month, 2);
      ZeroPadIsFixedWidth(d.day, 2);
      Join([y, m, dd], '-')
    else
      Join([y, m, dd], '-')
  }

  /** Three fields joined by a separator. */
  lemma JoinThree(a: string, b: string, c: string, sep: char)
    ensures Join([a, b, c], sep) == a + ([sep] + (b + ([sep] + c)))
  {
    assert [a, b, c][1..] == [b, c];
    assert [b, c][1..] == [c];
    assert Join([c], sep) == c;
  }

  /** Calendar order. */
  predicate Before(a: CalendarDate, b: CalendarDate) {
    a.year < b.year
    || (a.year == b.year && (a.month < b.month || (a.month == b.month && a.day < b.day)))
  }

  /** Two strings behind the same one-character separator compare as the strings. */
  lemma LtAfterDash(x: string, y: string)
    ensures Lt("-" + x, "-" + y) <==> Lt(x, y)
    ensures "-" + x == "-" + y <==> x == y
  {
    LtAppend("-", x, "-", y);
    LtIrreflexive("-");
    if "-" + x == "-" + y {
      assert x == ("-" + x)[1..];
    }
  }

  /** Field-wise comparison of two strings whose first parts have the same length. */
  lemma EqAppend(p: string, x: string, q: string, y: string)
    requires |p| == |q|
    ensures p + x == q + y <==> p == q && x == y
  {
    if p + x == q + y {
      assert p == (p + x)[..|p|] && q == (q + y)[..|q|];
      assert x == (p + x)[|p|..] && y == (q + y)[|q|..];
    }
  }

  /** For years below 10000, `yyyy-MM-dd` strings order exactly as the dates do. */
  lemma IsoDateOrder(a: CalendarDate, b: CalendarDate)
    requires ValidDate(a) && ValidDate(b) && a.year < 10000 && b.year < 10000
    ensures Lt(IsoDate(a), IsoDate(b)) <==> Before(a, b)
    ensures IsoDate(a) == IsoDate(b) <==> a == b
  {
    assert Pow10(2) == 100 && Pow10(4) == 10000;
    var ya, yb := FixedWidth(a.year, 4), FixedWidth(b.year, 4);
    var ma, mb := FixedWidth(a.month, 2), FixedWidth(b.month, 2);
    var da, db := FixedWidth(a.day, 2), FixedWidth(b.day, 2);
    FixedWidthOrder(a.year, b.year, 4);
    FixedWidthOrder(a.month, b.month, 2);
    FixedWidthOrder(a.day, b.day, 2);
    LtAfterDash(da, db);
    var ta, tb := "-" + da, "-" + db;
    LtAppend(ma, ta, mb, tb);
    EqAppend(ma, ta, mb, tb);
    LtAfterDash(ma + ta, mb + tb);
    var ra, rb := "-" + (ma + ta), "-" + (mb + tb);
    LtAppend(ya, ra, yb, rb);
    EqAppend(ya, ra, yb, rb);
  }
}
