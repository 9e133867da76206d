/**
 * The budget's entities and the seed data the app starts from
 * (src/data/budgetData.ts). Amounts are in cents.
 */
module BudgetData {
  import opened Wrappers
  import opened Money

  /** A dated entry in a category's log; `date` is a `yyyy-MM-dd` string. */
  datatype Transaction = Transaction(id: string, date: string, amount: Money, merchant: string)

  /** A budget line; `transactions` is absent for categories that carry no log. */
  datatype BudgetCategory = BudgetCategory(
    name: string,
    budgeted: Money,
    spent: Money,
    icon: string,
    transactions: Option<seq<Transaction>>)

  /** A user-named group of categories beside Income and Expenses. */
  datatype CustomSection = CustomSection(name: string, items: seq<BudgetCategory>)

  datatype CashFlowItem = CashFlowItem(month: string, income: Money, expenses: Money)

  datatype AssetItem = AssetItem(name: string, value: Money)

  datatype LiabilityItem = LiabilityItem(name: string, value: Money)

  /** A category as the seed lists write it: no transaction log. */
  function Seed(name: string, budgeted: int, spent: int, icon: string): BudgetCategory {
    BudgetCategory(name, Dollars(budgeted), Dollars(spent), icon, None)
  }

  const incomeCategories: seq<BudgetCategory> := [
    Seed("Salary", 5500, 5500, "\U{1F4BC}"),
    Seed("Freelance", 1200, 800, "\U{1F4BB}"),
    Seed("Investments", 300, 345, "\U{1F4C8}")
  ]

  const expenseCategories: seq<BudgetCategory> := [
    Seed("Housing", 1800, 1800, "\U{1F3E0}"),
    Seed("Food & Dining", 600, 520, "\U{1F37D}\U{FE0F}"),
    Seed("Transportation", 400, 380, "\U{1F697}"),
    Seed("Utilities", 250, 230, "\U{26A1}"),
    Seed("Entertainment", 200, 275, "\U{1F3AC}"),
    Seed("Healthcare", 150, 90, "\U{1F3E5}"),
    Seed("Savings", 1000, 1000, "\U{1F3E6}"),
    Seed("Shopping", 300, 340, "\U{1F6CD}\U{FE0F}")
  ]

  const cashFlowData: seq<CashFlowItem> := [
    CashFlowItem("Sep", Dollars(6800), Dollars(5100)),
    CashFlowItem("Oct", Dollars(7100), Dollars(5400)),
    CashFlowItem("Nov", Dollars(6600), Dollars(5800)),
    CashFlowItem("Dec", Dollars(7500), Dollars(6200)),
    CashFlowItem("Jan", Dollars(7000), Dollars(5200)),
    CashFlowItem("Feb", Dollars(6645), Dollars(4635))
  ]

  const assets: seq<AssetItem> := [
    AssetItem("Checking Account", Dollars(8500)),
    AssetItem("Savings Account", Dollars(25000)),
    AssetItem("Investment Portfolio", Dollars(42000)),
    AssetItem("Retirement (401k)", Dollars(78000)),
    AssetItem("Home Equity", Dollars(120000)),
    AssetItem("Vehicle", Dollars(18000))
  ]

  const liabilities: seq<LiabilityItem> := [
    LiabilityItem("Mortgage", Dollars(185000)),
    LiabilityItem("Auto Loan", Dollars(12000)),
    LiabilityItem("Student Loans", Dollars(28000)),
    LiabilityItem("Credit Card", Dollars(3200))
  ]

  /** The text and bar colours the tabs choose between. */
  datatype Tone = IncomeTone | ExpenseTone | ForegroundTone | PrimaryTone | DestructiveTone

  /** The `variant` a summary card or category row is given. */
  datatype Variant = IncomeVariant | ExpenseVariant

  /** The tone of a figure that is good when it is not negative. */
  function SignTone(x: Money): (t: Tone)
    ensures t == IncomeTone <==> x >= 0
    ensures t == ExpenseTone <==> x < 0
  {
    if x >= 0 then IncomeTone else ExpenseTone
  }

  function Spent(c: BudgetCategory): Money { c.spent }

  function Budgeted(c: BudgetCategory): Money { c.budgeted }

  function AssetValue(a: AssetItem): Money { a.value }

  function LiabilityValue(l: LiabilityItem): Money { l.value }

  function TotalSpent(cs: seq<BudgetCategory>): Money {
    Sum(cs, Spent)
  }

  function TotalBudgeted(cs: seq<BudgetCategory>): Money {
    Sum(cs, Budgeted)
  }

  function TotalAssets(items: seq<AssetItem>): Money {
    Sum(items, AssetValue)
  }

  function TotalLiabilities(items: seq<LiabilityItem>): Money {
    Sum(items, LiabilityValue)
  }

  /** The names of the categories that spent more than they budgeted, in list order. */
  function OverBudgetNames(cs: seq<BudgetCategory>): (r: seq<string>)
    ensures forall n :: n in r <==> exists c :: c in cs && c.name == n && c.spent > c.budgeted
    decreases |cs|
  {
    if cs == [] then []
    else
      assert forall c :: c in cs <==> c == cs[0] || c in cs[1..];
      (if cs[0].spent > cs[0].budgeted then [cs[0].name] else []) + OverBudgetNames(cs[1..])
  }

  lemma {:induction false} OverBudgetNamesAppend(a: seq<BudgetCategory>, b: seq<BudgetCategory>)
    ensures OverBudgetNames(a + b) == OverBudgetNames(a) + OverBudgetNames(b)
    decreases |a|
  {
    if a == [] {
      assert a + b == b;
    } else {
      assert (a + b)[1..] == a[1..] + b;
      OverBudgetNamesAppend(a[1..], b);
    }
  }

  /** Names serve as render keys, so within one list they must differ. */
  predicate DistinctNames(names: seq<string>) {
    forall i, j :: 0 <= i < j < |names| ==> names[i] != names[j]
  }

  function CategoryNames(cs: seq<BudgetCategory>): seq<string> {
    seq(|cs|, i requires 0 <= i < |cs| => cs[i].name)
  }

  lemma SeedIncomeTotals()
    ensures |incomeCategories| == 3
    ensures TotalSpent(incomeCategories) == Dollars(6645)
    ensures TotalBudgeted(incomeCategories) == Dollars(7000)
  {
    assert incomeCategories[..0] == [];
    SumPrefix(incomeCategories, Spent, 0);
    assert TotalSpent(incomeCategories[..1]) == Dollars(5500);
    SumPrefix(incomeCategories, Spent, 1);
    assert TotalSpent(incomeCategories[..2]) == Dollars(6300);
    SumPrefix(incomeCategories, Spent, 2);
    assert TotalSpent(incomeCategories[..3]) == Dollars(6645);
    assert incomeCategories[..3] == incomeCategories;
    assert incomeCategories[..0] == [];
    SumPrefix(incomeCategories, Budgeted, 0);
    assert TotalBudgeted(incomeCategories[..1]) == Dollars(5500);
    SumPrefix(incomeCategories, Budgeted, 1);
    assert TotalBudgeted(incomeCategories[..2]) == Dollars(6700);
    SumPrefix(incomeCategories, Budgeted, 2);
    assert TotalBudgeted(incomeCategories[..3]) == Dollars(7000);
    assert incomeCategories[..3] == incomeCategories;
  }

  lemma SeedExpenseTotals()
    ensures |expenseCategories| == 8
    ensures TotalSpent(expenseCategories) == Dollars(4635)
    ensures TotalBudgeted(expenseCategories) == Dollars(4700)
  {
    assert expenseCategories[..0] == [];
    SumPrefix(expenseCategories, Spent, 0);
    assert TotalSpent(expenseCategories[..1]) == Dollars(1800);
    SumPrefix(expenseCategories, Spent, 1);
    assert TotalSpent(expenseCategories[..2]) == Dollars(2320);
    SumPrefix(expenseCategories, Spent, 2);
    assert TotalSpent(expenseCategories[..3]) == Dollars(2700);
    SumPrefix(expenseCategories, Spent, 3);
    assert TotalSpent(expenseCategories[..4]) == Dollars(2930);
    SumPrefix(expenseCategories, Spent, 4);
    assert TotalSpent(expenseCategories[..5]) == Dollars(3205);
    SumPrefix(expenseCategories, Spent, 5);
    assert TotalSpent(expenseCategories[..6]) == Dollars(3295);
    SumPrefix(expenseCategories, Spent, 6);
    assert TotalSpent(expenseCategories[..7]) == Dollars(4295);
    SumPrefix(expenseCategories, Spent, 7);
    assert TotalSpent(expenseCategories[..8]) == Dollars(4635);
    assert expenseCategories[..8] == expenseCategories;
    assert expenseCategories[..0] == [];
    SumPrefix(expenseCategories, Budgeted, 0);
    assert TotalBudgeted(expenseCategories[..1]) == Dollars(1800);
    SumPrefix(expenseCategories, Budgeted, 1);
    assert TotalBudgeted(expenseCategories[..2]) == Dollars(2400);
    SumPrefix(expenseCategories, Budgeted, 2);
    assert TotalBudgeted(expenseCategories[..3]) == Dollars(2800);
    SumPrefix(expenseCategories, Budgeted, 3);
    assert TotalBudgeted(expenseCategories[..4]) == Dollars(3050);
    SumPrefix(expenseCategories, Budgeted, 4);
    assert TotalBudgeted(expenseCategories[..5]) == Dollars(3250);
    SumPrefix(expenseCategories, Budgeted, 5);
    assert TotalBudgeted(expenseCategories[..6]) == Dollars(3400);
    SumPrefix(expenseCategories, Budgeted, 6);
    assert TotalBudgeted(expenseCategories[..7]) == Dollars(4400);
    SumPrefix(expenseCategories, Budgeted, 7);
    assert TotalBudgeted(expenseCategories[..8]) == Dollars(4700);
    assert expenseCategories[..8] == expenseCategories;
  }

  /** The latest cash-flow month repeats the seed categories' actual totals. */
  lemma SeedLatestMonthMatchesCategories()
    ensures cashFlowData[|cashFlowData| - 1].month == "Feb"
    ensures cashFlowData[|cashFlowData| - 1].income == TotalSpent(incomeCategories)
    ensures cashFlowData[|cashFlowData| - 1].expenses == TotalSpent(expenseCategories)
  {
    SeedIncomeTotals();
    SeedExpenseTotals();
  }

  lemma SeedNetWorth()
    ensures TotalAssets(assets) == Dollars(291500)
    ensures TotalLiabilities(liabilities) == Dollars(228200)
    ensures TotalAssets(assets) - TotalLiabilities(liabilities) == Dollars(63300)
  {
    assert assets[..0] == [];
    SumPrefix(assets, AssetValue, 0);
    assert TotalAssets(assets[..1]) == Dollars(8500);
    SumPrefix(assets, AssetValue, 1);
    assert TotalAssets(assets[..2]) == Dollars(33500);
    SumPrefix(assets, AssetValue, 2);
    assert TotalAssets(assets[..3]) == Dollars(75500);
    SumPrefix(assets, AssetValue, 3);
    assert TotalAssets(assets[..4]) == Dollars(153500);
    SumPrefix(assets, AssetValue, 4);
    assert TotalAssets(assets[..5]) == Dollars(273500);
    SumPrefix(assets, AssetValue, 5);
    assert TotalAssets(assets[..6]) == Dollars(291500);
    assert assets[..6] == assets;
    assert liabilities[..0] == [];
    SumPrefix(liabilities, LiabilityValue, 0);
    assert TotalLiabilities(liabilities[..1]) == Dollars(185000);
    SumPrefix(liabilities, LiabilityValue, 1);
    assert TotalLiabilities(liabilities[..2]) == Dollars(197000);
    SumPrefix(liabilities, LiabilityValue, 2);
    assert TotalLiabilities(liabilities[..3]) == Dollars(225000);
    SumPrefix(liabilities, LiabilityValue, 3);
    assert TotalLiabilities(liabilities[..4]) == Dollars(228200);
    assert liabilities[..4] == liabilities;
  }

  lemma SeedNamesDistinct()
    ensures DistinctNames(CategoryNames(incomeCategories))
    ensures DistinctNames(CategoryNames(expenseCategories))
    ensures DistinctNames(seq(|assets|, i requires 0 <= i < |assets| => assets[i].name))
    ensures DistinctNames(seq(|liabilities|, i requires 0 <= i < |liabilities| => liabilities[i].name))
  {
  }

  /** Exactly three seed categories are over budget. */
  lemma SeedOverBudget()
    ensures OverBudgetNames(incomeCategories + expenseCategories) == ["Investments", "Entertainment", "Shopping"]
  {
    var all := incomeCategories + expenseCategories;
    assert OverBudgetNames(all[10..]) == ["Shopping"];
    assert OverBudgetNames(all[9..]) == ["Shopping"];
    assert OverBudgetNames(all[8..]) == ["Shopping"];
    assert OverBudgetNames(all[7..]) == ["Entertainment", "Shopping"];
    assert OverBudgetNames(all[6..]) == ["Entertainment", "Shopping"];
    assert OverBudgetNames(all[5..]) == ["Entertainment", "Shopping"];
    assert OverBudgetNames(all[4..]) == ["Entertainment", "Shopping"];
    assert OverBudgetNames(all[3..]) == ["Entertainment", "Shopping"];
    assert OverBudgetNames(all[2..]) == ["Investments", "Entertainment", "Shopping"];
    assert OverBudgetNames(all[1..]) == ["Investments", "Entertainment", "Shopping"];
    assert OverBudgetNames(all[0..]) == ["Investments", "Entertainment", "Shopping"];
    assert all[0..] == all;
  }
}
