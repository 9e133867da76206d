/**
 * The Budget tab (src/components/BudgetTab.tsx): three summary cards over the
 * income and expense categories, then one progress row per category. The tab
 * renders whichever category lists it is given; the app passes the seed lists.
 */
module BudgetTab {
  import opened Wrappers
  import opened Money
  import opened BudgetData

  /**
   * A summary card; `budgeted` is the optional "of $X budgeted" figure, and
   * the card shows that line exactly when it is `Some`.
   */
  datatype SummaryCard = SummaryCard(title: string, amount: Money, budgeted: Option<Money>, variant: Variant)

  /** The card's amount is in the income colour exactly for the income variant. */
  function CardTone(card: SummaryCard): (t: Tone)
    ensures t == IncomeTone <==> card.variant == IncomeVariant
    ensures t == IncomeTone || t == ExpenseTone
  {
    if card.variant == IncomeVariant then IncomeTone else ExpenseTone
  }

  function SummaryCards(income: seq<BudgetCategory>, expenses: seq<BudgetCategory>): (r: seq<SummaryCard>)
    ensures |r| == 3
    ensures r[0].title == "Income" && r[1].title == "Expenses" && r[2].title == "Remaining"
    ensures r[0].amount == TotalSpent(income) && r[0].budgeted == Some(TotalBudgeted(income))
    ensures r[1].amount == TotalSpent(expenses) && r[1].budgeted == Some(TotalBudgeted(expenses))
    ensures r[0].variant == IncomeVariant && r[1].variant == ExpenseVariant
    ensures r[2].amount == r[0].amount - r[1].amount
    ensures r[2].variant == IncomeVariant <==> r[2].amount >= 0
    ensures r[2].budgeted.None?
  {
    var remaining := TotalSpent(income) - TotalSpent(expenses);
    [ SummaryCard("Income", TotalSpent(income), Some(TotalBudgeted(income)), IncomeVariant),
      SummaryCard("Expenses", TotalSpent(expenses), Some(TotalBudgeted(expenses)), ExpenseVariant),
      SummaryCard("Remaining", remaining, None, if remaining >= 0 then IncomeVariant else ExpenseVariant) ]
  }

  /**
   * The progress value `Math.min(spent / budgeted * 100, 100)`. The ratio is
   * the same in cents as in dollars.
   */
  function Pct(spent: Money, budgeted: Money): (p: real)
    requires budgeted > 0
    ensures p <= 100.0
    ensures p == 100.0 <==> spent >= budgeted
    ensures p < 100.0 ==> p * (budgeted as real) == (spent as real) * 100.0
    ensures spent >= 0 ==> p >= 0.0
  {
    var b := budgeted as real;
    var q := (spent as real / b) * 100.0;
    ScaledRatio(spent as real, b);
    if q < 100.0 then q else 100.0
  }

  /** The facts about `s / b * 100` the clamp relies on, for a positive `b`. */
  lemma ScaledRatio(s: real, b: real)
    requires b > 0.0
    ensures (s / b) * 100.0 * b == s * 100.0
    ensures (s / b) * 100.0 < 100.0 <==> s < b
    ensures s >= 0.0 ==> (s / b) * 100.0 >= 0.0
  {
    var r := s / b;
    assert r * b == s;
    assert (r * 100.0) * b == (r * b) * 100.0;
    SignOfScaled(r - 1.0, b);
    assert r * b - b == (r - 1.0) * b;
    SignOfScaled(r, b);
  }

  lemma SignOfScaled(d: real, b: real)
    requires b > 0.0
    ensures d < 0.0 <==> d * b < 0.0
    ensures d >= 0.0 <==> d * b >= 0.0
  {
  }

  /** One category row: icon, name, amounts, progress bar and colours. */
  datatype CategoryRow = CategoryRow(
    name: string,
    icon: string,
    spent: Money,
    budgeted: Money,
    pct: real,
    over: bool,
    amountTone: Tone,
    barTone: Tone)

  function Row(c: BudgetCategory, variant: Variant): (r: CategoryRow)
    requires c.budgeted > 0
    ensures r.name == c.name && r.icon == c.icon && r.spent == c.spent && r.budgeted == c.budgeted
    ensures r.over <==> c.spent > c.budgeted
    ensures r.over ==> r.pct == 100.0
    ensures r.pct <= 100.0 && (r.pct == 100.0 <==> c.spent >= c.budgeted)
    ensures r.pct == Pct(c.spent, c.budgeted)
    ensures r.amountTone == (if r.over then ExpenseTone else ForegroundTone)
    ensures r.barTone == ExpenseTone <==> r.over
    ensures r.barTone == IncomeTone <==> !r.over && variant == IncomeVariant
    ensures r.barTone == PrimaryTone <==> !r.over && variant == ExpenseVariant
  {
    var over := c.spent > c.budgeted;
    CategoryRow(
      c.name, c.icon, c.spent, c.budgeted, Pct(c.spent, c.budgeted), over,
      if over then ExpenseTone else ForegroundTone,
      if over then ExpenseTone else if variant == IncomeVariant then IncomeTone else PrimaryTone)
  }

  /** One row per category, in list order. */
  function Rows(cs: seq<BudgetCategory>, variant: Variant): (r: seq<CategoryRow>)
    requires forall i :: 0 <= i < |cs| ==> cs[i].budgeted > 0
    ensures |r| == |cs|
    ensures forall i :: 0 <= i < |cs| ==> r[i] == Row(cs[i], variant)
  {
    seq(|cs|, i requires 0 <= i < |cs| => Row(cs[i], variant))
  }

  /** The rows that show over budget are exactly the over-budget categories, in order. */
  lemma {:induction false} OverRowsAreOverBudget(cs: seq<BudgetCategory>, variant: Variant)
    requires forall i :: 0 <= i < |cs| ==> cs[i].budgeted > 0
    ensures OverRowNames(Rows(cs, variant)) == OverBudgetNames(cs)
    decreases |cs|
  {
    if cs != [] {
      OverRowsAreOverBudget(cs[1..], variant);
      assert Rows(cs, variant)[1..] == Rows(cs[1..], variant);
    }
  }

  function OverRowNames(rows: seq<CategoryRow>): seq<string>
    decreases |rows|
  {
    if rows == [] then []
    else (if rows[0].over then [rows[0].name] else []) + OverRowNames(rows[1..])
  }

  /** The tab as a whole: the three cards, the income rows, the expense rows. */
  datatype View = View(cards: seq<SummaryCard>, incomeRows: seq<CategoryRow>, expenseRows: seq<CategoryRow>)

  function Render(income: seq<BudgetCategory>, expenses: seq<BudgetCategory>): (v: View)
    requires forall i :: 0 <= i < |income| ==> income[i].budgeted > 0
    requires forall i :: 0 <= i < |expenses| ==> expenses[i].budgeted > 0
    ensures v.cards == SummaryCards(income, expenses)
    ensures |v.incomeRows| == |income| && |v.expenseRows| == |expenses|
    ensures forall i :: 0 <= i < |income| ==> v.incomeRows[i] == Row(income[i], IncomeVariant)
    ensures forall i :: 0 <= i < |expenses| ==> v.expenseRows[i] == Row(expenses[i], ExpenseVariant)
  {
    View(SummaryCards(income, expenses), Rows(income, IncomeVariant), Rows(expenses, ExpenseVariant))
  }

  /** On the seed data: $6,645 of $7,000 income, $4,635 of $4,700 spent, $2,010 remaining. */
  lemma SeedSummary()
    ensures SummaryCards(incomeCategories, expenseCategories)[0].amount == Dollars(6645)
    ensures SummaryCards(incomeCategories, expenseCategories)[0].budgeted == Some(Dollars(7000))
    ensures SummaryCards(incomeCategories, expenseCategories)[1].amount == Dollars(4635)
    ensures SummaryCards(incomeCategories, expenseCategories)[1].budgeted == Some(Dollars(4700))
    ensures SummaryCards(incomeCategories, expenseCategories)[2].amount == Dollars(2010)
    ensures SummaryCards(incomeCategories, expenseCategories)[2].variant == IncomeVariant
  {
    SeedIncomeTotals();
    SeedExpenseTotals();
  }

  /** On the seed data, the red rows are Investments, Entertainment and Shopping. */
  lemma SeedOverRows()
    ensures OverRowNames(Rows(incomeCategories, IncomeVariant)) + OverRowNames(Rows(expenseCategories, ExpenseVariant))
         == ["Investments", "Entertainment", "Shopping"]
  {
    OverRowsAreOverBudget(incomeCategories, IncomeVariant);
    OverRowsAreOverBudget(expenseCategories, ExpenseVariant);
    OverBudgetNamesAppend(incomeCategories, expenseCategories);
    SeedOverBudget();
  }
}
