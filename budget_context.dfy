/**
 * The budget state holder (src/context/BudgetContext.tsx): five collections,
 * each with its own setter, seeded from the default data, and the hook that
 * refuses to run outside the provider.
 */
module BudgetContext {
  import opened Wrappers
  import opened BudgetData

  /** The provider's state: five collections, each replaced wholesale by its setter. */
  class BudgetStore {
    var income: seq<BudgetCategory>
    var expenses: seq<BudgetCategory>
    var cashFlow: seq<CashFlowItem>
    var assets: seq<AssetItem>
    var liabilities: seq<LiabilityItem>

    /** Mounting the provider: every collection starts at its seed value. */
    constructor ()
      ensures income == incomeCategories && expenses == expenseCategories
      ensures cashFlow == cashFlowData
      ensures assets == BudgetData.assets && liabilities == BudgetData.liabilities
    {
      income := incomeCategories;
      expenses := expenseCategories;
      cashFlow := cashFlowData;
      assets := BudgetData.assets;
      liabilities := BudgetData.liabilities;
    }

    method SetIncome(v: seq<BudgetCategory>)
      modifies this
      ensures income == v
      ensures expenses == old(expenses) && cashFlow == old(cashFlow)
      ensures assets == old(assets) && liabilities == old(liabilities)
    {
      income := v;
    }

    method SetExpenses(v: seq<BudgetCategory>)
      modifies this
      ensures expenses == v
      ensures income == old(income) && cashFlow == old(cashFlow)
      ensures assets == old(assets) && liabilities == old(liabilities)
    {
      expenses := v;
    }

    method SetCashFlow(v: seq<CashFlowItem>)
      modifies this
      ensures cashFlow == v
      ensures income == old(income) && expenses == old(expenses)
      ensures assets == old(assets) && liabilities == old(liabilities)
    {
      cashFlow := v;
    }

    method SetAssets(v: seq<AssetItem>)
      modifies this
      ensures assets == v
      ensures income == old(income) && expenses == old(expenses)
      ensures cashFlow == old(cashFlow) && liabilities == old(liabilities)
    {
      assets := v;
    }

    method SetLiabilities(v: seq<LiabilityItem>)
      modifies this
      ensures liabilities == v
      ensures income == old(income) && expenses == old(expenses)
      ensures cashFlow == old(cashFlow) && assets == old(assets)
    {
      liabilities := v;
    }
  }

  const OutsideProviderError: string := "useBudget must be used within BudgetProvider"

  /** `useBudget`: the store of the enclosing provider, or the error thrown when there is none. */
  function UseBudget(ctx: Option<BudgetStore>): (r: Result<BudgetStore, string>)
    ensures r.Success? <==> ctx.Some?
    ensures ctx.Some? ==> r.value == ctx.value
    ensures ctx.None? ==> r.error == OutsideProviderError
  {
    match ctx
    case Some(store) => Success(store)
    case None => Failure(OutsideProviderError)
  }
}
