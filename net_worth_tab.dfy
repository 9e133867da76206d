/**
 * The Net Worth tab (src/components/NetWorthTab.tsx): asset and liability
 * totals, the net worth, the two-slice pie and the two itemised lists.
 */
module NetWorthTab {
  import opened Money
  import opened BudgetData

  /** Assets less liabilities: what the two itemised lists add up to, one less the other. */
  function NetWorth(assets: seq<AssetItem>, liabilities: seq<LiabilityItem>): (nw: Money)
    ensures nw == Sum(ItemRows(assets, AssetName, AssetValue), RowAmount)
                - Sum(ItemRows(liabilities, LiabilityName, LiabilityValue), RowAmount)
  {
    ItemRowsSum(assets, AssetName, AssetValue);
    ItemRowsSum(liabilities, LiabilityName, LiabilityValue);
    TotalAssets(assets) - TotalLiabilities(liabilities)
  }

  datatype PieSlice = PieSlice(name: string, value: Money)

  /** `pieData`: Assets then Liabilities, carrying the two totals. */
  function PieData(assets: seq<AssetItem>, liabilities: seq<LiabilityItem>): (r: seq<PieSlice>)
    ensures |r| == 2
    ensures r[0] == PieSlice("Assets", TotalAssets(assets))
    ensures r[1] == PieSlice("Liabilities", TotalLiabilities(liabilities))
    ensures r[0].value - r[1].value == NetWorth(assets, liabilities)
  {
    [PieSlice("Assets", TotalAssets(assets)), PieSlice("Liabilities", TotalLiabilities(liabilities))]
  }

  /** A line of an itemised list; the last line of each list is its Total. */
  datatype ListRow = ListRow(name: string, amount: Money, isTotal: bool)

  function RowAmount(r: ListRow): Money { r.amount }

  function ItemRows<T>(items: seq<T>, name: T -> string, value: T -> Money): (r: seq<ListRow>)
    ensures |r| == |items|
    ensures forall i :: 0 <= i < |items| ==> r[i] == ListRow(name(items[i]), value(items[i]), false)
  {
    seq(|items|, i requires 0 <= i < |items| => ListRow(name(items[i]), value(items[i]), false))
  }

  lemma {:induction false} ItemRowsSum<T>(items: seq<T>, name: T -> string, value: T -> Money)
    ensures Sum(ItemRows(items, name, value), RowAmount) == Sum(items, value)
    decreases |items|
  {
    if items != [] {
      var p := items[..|items| - 1];
      assert ItemRows(items, name, value)[..|items| - 1] == ItemRows(p, name, value);
      ItemRowsSum(p, name, value);
    }
  }

  /** One row per item in list order, then the Total row. */
  function Listing<T>(items: seq<T>, name: T -> string, value: T -> Money): (r: seq<ListRow>)
    ensures |r| == |items| + 1
    ensures r[..|items|] == ItemRows(items, name, value)
    ensures r[|items|] == ListRow("Total", Sum(items, value), true)
  {
    ItemRows(items, name, value) + [ListRow("Total", Sum(items, value), true)]
  }

  /** The Total row is the sum of the rows above it, and only it is marked as a total. */
  lemma ListingTotal<T>(items: seq<T>, name: T -> string, value: T -> Money)
    ensures var r := Listing(items, name, value);
      r[|r| - 1].amount == Sum(r[..|r| - 1], RowAmount)
      && forall i :: 0 <= i < |r| ==> (r[i].isTotal <==> i == |r| - 1)
  {
    var r := Listing(items, name, value);
    assert r[..|r| - 1] == ItemRows(items, name, value);
    ItemRowsSum(items, name, value);
  }

  function AssetName(a: AssetItem): string { a.name }

  function LiabilityName(l: LiabilityItem): string { l.name }

  datatype View = View(
    netWorth: Money,
    netWorthTone: Tone,
    totalAssets: Money,
    totalLiabilities: Money,
    pie: seq<PieSlice>,
    assetRows: seq<ListRow>,
    liabilityRows: seq<ListRow>)

  function Render(assets: seq<AssetItem>, liabilities: seq<LiabilityItem>): (v: View)
    ensures v.netWorth == v.totalAssets - v.totalLiabilities
    ensures v.totalAssets == TotalAssets(assets) && v.totalLiabilities == TotalLiabilities(liabilities)
    ensures v.netWorthTone == IncomeTone <==> v.netWorth >= 0
    ensures v.pie == PieData(assets, liabilities)
    ensures v.assetRows == Listing(assets, AssetName, AssetValue)
    ensures v.liabilityRows == Listing(liabilities, LiabilityName, LiabilityValue)
    ensures v.assetRows[|assets|].amount == v.totalAssets
    ensures v.liabilityRows[|liabilities|].amount == v.totalLiabilities
  {
    var nw := NetWorth(assets, liabilities);
    View(nw, SignTone(nw), TotalAssets(assets), TotalLiabilities(liabilities),
      PieData(assets, liabilities),
      Listing(assets, AssetName, AssetValue),
      Listing(liabilities, LiabilityName, LiabilityValue))
  }

  /** On the seed data: $291,500 of assets, $228,200 owed, $63,300 net worth. */
  lemma SeedNetWorthTab()
    ensures Render(BudgetData.assets, BudgetData.liabilities).totalAssets == Dollars(291500)
    ensures Render(BudgetData.assets, BudgetData.liabilities).totalLiabilities == Dollars(228200)
    ensures Render(BudgetData.assets, BudgetData.liabilities).netWorth == Dollars(63300)
    ensures Render(BudgetData.assets, BudgetData.liabilities).netWorthTone == IncomeTone
  {
    SeedNetWorth();
  }
}
