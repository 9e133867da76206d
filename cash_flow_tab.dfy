/**
 * The Cash Flow tab (src/components/CashFlowTab.tsx): six-month totals, the
 * net cash flow, the latest month and a newest-first monthly breakdown.
 */
module CashFlowTab {
  import opened Wrappers
  import opened Money
  import opened BudgetData

  function Income(m: CashFlowItem): Money { m.income }

  function Expenses(m: CashFlowItem): Money { m.expenses }

  /** What one month kept: its income less its expenses. */
  function MonthNet(m: CashFlowItem): Money { m.income - m.expenses }

  /** The period's income; never negative when no month's income is. */
  function TotalIncome(data: seq<CashFlowItem>): (t: Money)
    ensures (forall m :: m in data ==> m.income >= 0) ==> t >= 0
  {
    Sum(data, Income)
  }

  /** The period's expenses; never negative when no month's expenses are. */
  function TotalExpenses(data: seq<CashFlowItem>): (t: Money)
    ensures (forall m :: m in data ==> m.expenses >= 0) ==> t >= 0
  {
    Sum(data, Expenses)
  }

  /** `cashFlowData[cashFlowData.length - 1]`, which is `undefined` on an empty list. */
  function LatestMonth(data: seq<CashFlowItem>): (r: Option<CashFlowItem>)
    ensures r.Some? <==> |data| > 0
    ensures r.Some? ==> r.value == data[|data| - 1]
  {
    if |data| == 0 then None else Some(data[|data| - 1])
  }

  /** The net cash flow: what the months kept, added up. */
  function NetCashFlow(data: seq<CashFlowItem>): (n: Money)
    ensures n == Sum(data, MonthNet)
  {
    TotalsDifference(data);
    TotalIncome(data) - TotalExpenses(data)
  }

  /** Total income less total expenses is the sum of the monthly nets. */
  lemma {:induction false} TotalsDifference(data: seq<CashFlowItem>)
    ensures TotalIncome(data) - TotalExpenses(data) == Sum(data, MonthNet)
    decreases |data|
  {
    if data != [] {
      TotalsDifference(data[..|data| - 1]);
    }
  }

  /** `[...xs].reverse()`: a reversed copy; `xs` itself is a value and stays as it was. */
  function Reverse<T>(s: seq<T>): (r: seq<T>)
    ensures |r| == |s|
    ensures forall i :: 0 <= i < |s| ==> r[i] == s[|s| - 1 - i]
    decreases |s|
  {
    if s == [] then [] else [s[|s| - 1]] + Reverse(s[..|s| - 1])
  }

  lemma ReverseReverse<T>(s: seq<T>)
    ensures Reverse(Reverse(s)) == s
  {
  }

  lemma {:induction false} ReverseMultiset<T>(s: seq<T>)
    ensures multiset(Reverse(s)) == multiset(s)
    decreases |s|
  {
    if s != [] {
      var p, x := s[..|s| - 1], s[|s| - 1];
      ReverseMultiset(p);
      assert Reverse(s) == [x] + Reverse(p);
      assert s == p + [x];
    }
  }

  /** Listing the months in the other order does not change a total. */
  lemma {:induction false} SumReverse<T>(s: seq<T>, f: T -> int)
    ensures Sum(Reverse(s), f) == Sum(s, f)
    decreases |s|
  {
    if s != [] {
      SumReverse(s[..|s| - 1], f);
      SumCons(s[|s| - 1], Reverse(s[..|s| - 1]), f);
    }
  }

  /** One line of the monthly breakdown. */
  datatype BreakdownRow = BreakdownRow(month: string, income: Money, expenses: Money, net: Money, netTone: Tone)

  function BreakdownLine(m: CashFlowItem): (r: BreakdownRow)
    ensures r.month == m.month && r.income == m.income && r.expenses == m.expenses
    ensures r.net == m.income - m.expenses
    ensures r.netTone == IncomeTone <==> r.net >= 0
  {
    BreakdownRow(m.month, m.income, m.expenses, MonthNet(m), SignTone(MonthNet(m)))
  }

  function RowNet(r: BreakdownRow): Money { r.net }

  /** The breakdown: newest month first, one line per month. */
  function Breakdown(data: seq<CashFlowItem>): (r: seq<BreakdownRow>)
    ensures |r| == |data|
    ensures forall i :: 0 <= i < |data| ==> r[i] == BreakdownLine(data[|data| - 1 - i])
  {
    var rev := Reverse(data);
    seq(|rev|, i requires 0 <= i < |rev| => BreakdownLine(rev[i]))
  }

  /** The breakdown's nets add up to the net cash flow card. */
  lemma BreakdownNetsSumToNetCashFlow(data: seq<CashFlowItem>)
    ensures Sum(Breakdown(data), RowNet) == NetCashFlow(data)
  {
    var rev := Reverse(data);
    BreakdownSum(rev);
    assert Breakdown(data) == seq(|rev|, i requires 0 <= i < |rev| => BreakdownLine(rev[i]));
    SumReverse(data, MonthNet);
  }

  lemma {:induction false} BreakdownSum(s: seq<CashFlowItem>)
    ensures Sum(seq(|s|, i requires 0 <= i < |s| => BreakdownLine(s[i])), RowNet) == Sum(s, MonthNet)
    decreases |s|
  {
    if s != [] {
      var rows := seq(|s|, i requires 0 <= i < |s| => BreakdownLine(s[i]));
      var p := s[..|s| - 1];
      assert rows[..|rows| - 1] == seq(|p|, i requires 0 <= i < |p| => BreakdownLine(p[i]));
      BreakdownSum(p);
    }
  }

  /** The cards and the breakdown together. */
  datatype View = View(
    latest: Option<CashFlowItem>,
    totalIncome: Money,
    totalExpenses: Money,
    net: Money,
    netTone: Tone,
    breakdown: seq<BreakdownRow>)

  function Render(data: seq<CashFlowItem>): (v: View)
    ensures v.latest == LatestMonth(data)
    ensures v.totalIncome == TotalIncome(data) && v.totalExpenses == TotalExpenses(data)
    ensures v.net == v.totalIncome - v.totalExpenses
    ensures v.netTone == IncomeTone <==> v.net >= 0
    ensures v.breakdown == Breakdown(data)
  {
    var net := NetCashFlow(data);
    View(LatestMonth(data), TotalIncome(data), TotalExpenses(data), net, SignTone(net), Breakdown(data))
  }

  /** On the seed data: $41,645 in, $32,335 out, $9,310 kept, Feb shown first. */
  lemma SeedCashFlow()
    ensures Render(cashFlowData).totalIncome == Dollars(41645)
    ensures Render(cashFlowData).totalExpenses == Dollars(32335)
    ensures Render(cashFlowData).net == Dollars(9310)
    ensures Render(cashFlowData).netTone == IncomeTone
    ensures Render(cashFlowData).latest == Some(CashFlowItem("Feb", Dollars(6645), Dollars(4635)))
    ensures Render(cashFlowData).breakdown[0].month == "Feb"
    ensures Render(cashFlowData).breakdown[5].month == "Sep"
  {
    assert cashFlowData[..0] == [];
    SumPrefix(cashFlowData, Income, 0);
    SumPrefix(cashFlowData, Income, 1);
    SumPrefix(cashFlowData, Income, 2);
    SumPrefix(cashFlowData, Income, 3);
    SumPrefix(cashFlowData, Income, 4);
    SumPrefix(cashFlowData, Income, 5);
    SumPrefix(cashFlowData, Expenses, 0);
    SumPrefix(cashFlowData, Expenses, 1);
    SumPrefix(cashFlowData, Expenses, 2);
    SumPrefix(cashFlowData, Expenses, 3);
    SumPrefix(cashFlowData, Expenses, 4);
    SumPrefix(cashFlowData, Expenses, 5);
    assert cashFlowData[..6] == cashFlowData;
  }
}
