/**
 * The Profile tab (src/components/ProfileTab.tsx): two quick figures read from
 * the budget store, and the fixed settings menu.
 */
module ProfileTab {
  import opened Wrappers
  import opened Money
  import opened BudgetData
  import BudgetContext
  import BudgetTab
  import NetWorthTab

  /**
   * Monthly savings: budgeted income, not received income, less actual
   * spending. On the Budget tab's cards that is the Income card's budgeted
   * figure less the Expenses card's amount, and it exceeds the Remaining card
   * by the budgeted income not yet received.
   */
  function MonthlySavings(income: seq<BudgetCategory>, expenses: seq<BudgetCategory>): (s: Money)
    ensures var cards := BudgetTab.SummaryCards(income, expenses);
      s == cards[0].budgeted.value - cards[1].amount
      && s == cards[2].amount + (TotalBudgeted(income) - TotalSpent(income))
  {
    TotalBudgeted(income) - TotalSpent(expenses)
  }

  /** The net worth figure, computed here on its own, agrees with the Net Worth tab's. */
  function NetWorth(assets: seq<AssetItem>, liabilities: seq<LiabilityItem>): (nw: Money)
    ensures nw == NetWorthTab.NetWorth(assets, liabilities)
  {
    TotalAssets(assets) - TotalLiabilities(liabilities)
  }

  /** A quick figure is in the expense colour when negative, the plain colour otherwise. */
  function StatTone(x: Money): (t: Tone)
    ensures t == ExpenseTone <==> x < 0
    ensures t == ForegroundTone <==> x >= 0
  {
    if x >= 0 then ForegroundTone else ExpenseTone
  }

  datatype QuickStats = QuickStats(savings: Money, savingsTone: Tone, netWorth: Money, netWorthTone: Tone)

  /** The two figures, computed from the collections the store holds at the time. */
  function Stats(store: BudgetContext.BudgetStore): (s: QuickStats)
    reads store
    ensures s.savings == TotalBudgeted(store.income) - TotalSpent(store.expenses)
    ensures s.netWorth == TotalAssets(store.assets) - TotalLiabilities(store.liabilities)
    ensures s.savingsTone == ExpenseTone <==> s.savings < 0
    ensures s.netWorthTone == ExpenseTone <==> s.netWorth < 0
  {
    var savings := MonthlySavings(store.income, store.expenses);
    var nw := NetWorth(store.assets, store.liabilities);
    QuickStats(savings, StatTone(savings), nw, StatTone(nw))
  }

  /** Income actually received does not move the savings figure: only budgeted income does. */
  lemma SavingsIgnoresReceivedIncome(a: seq<BudgetCategory>, b: seq<BudgetCategory>, expenses: seq<BudgetCategory>)
    requires |a| == |b|
    requires forall i :: 0 <= i < |a| ==> a[i].budgeted == b[i].budgeted
    ensures MonthlySavings(a, expenses) == MonthlySavings(b, expenses)
  {
    SumSameValues(a, b, Budgeted);
  }

  lemma {:induction false} SumSameValues<T>(a: seq<T>, b: seq<T>, f: T -> int)
    requires |a| == |b|
    requires forall i :: 0 <= i < |a| ==> f(a[i]) == f(b[i])
    ensures Sum(a, f) == Sum(b, f)
    decreases |a|
  {
    if a != [] {
      SumSameValues(a[..|a| - 1], b[..|b| - 1], f);
    }
  }

  /** A freshly mounted store shows $2,365 of savings and $63,300 of net worth. */
  method SeedStats() returns (s: QuickStats)
    ensures s == QuickStats(Dollars(2365), ForegroundTone, Dollars(63300), ForegroundTone)
  {
    var store := new BudgetContext.BudgetStore();
    SeedIncomeTotals();
    SeedExpenseTotals();
    SeedNetWorth();
    s := Stats(store);
  }

  datatype MenuItem = MenuItem(title: string, detail: Option<string>, destructive: bool)

  const menuItems: seq<MenuItem> := [
    MenuItem("Appearance", Some("Dark"), false),
    MenuItem("Notifications", Some("On"), false),
    MenuItem("Privacy & Security", None, false),
    MenuItem("Help & Support", None, false),
    MenuItem("Sign Out", None, true)
  ]

  /** Five entries in fixed order, distinct titles, and only Sign Out is destructive. */
  lemma MenuShape()
    ensures |menuItems| == 5
    ensures menuItems[0].title == "Appearance" && menuItems[4].title == "Sign Out"
    ensures forall i, j :: 0 <= i < j < |menuItems| ==> menuItems[i].title != menuItems[j].title
    ensures forall i :: 0 <= i < |menuItems| ==> (menuItems[i].destructive <==> menuItems[i].title == "Sign Out")
  {
  }

  /** A menu entry's icon: the destructive colour for a destructive entry, the primary colour otherwise. */
  function IconTone(item: MenuItem): (t: Tone)
    ensures t == DestructiveTone <==> item.destructive
    ensures t == DestructiveTone || t == PrimaryTone
  {
    if item.destructive then DestructiveTone else PrimaryTone
  }

  /** A menu entry's label: the destructive colour for a destructive entry, the foreground colour otherwise. */
  function LabelTone(item: MenuItem): (t: Tone)
    ensures t == DestructiveTone <==> item.destructive
    ensures t == DestructiveTone || t == ForegroundTone
  {
    if item.destructive then DestructiveTone else ForegroundTone
  }

  /** On the menu, Sign Out is the one entry drawn in the destructive colour, icon and label alike. */
  lemma MenuTones()
    ensures forall i :: 0 <= i < |menuItems| ==>
      (IconTone(menuItems[i]) == DestructiveTone <==> menuItems[i].title == "Sign Out")
    ensures forall i :: 0 <= i < |menuItems| ==>
      (LabelTone(menuItems[i]) == DestructiveTone <==> IconTone(menuItems[i]) == DestructiveTone)
  {
    MenuShape();
  }
}
