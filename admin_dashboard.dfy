/** The administration dashboard's three figures. */
module AdminDashboard {
  import opened Wrappers
  import opened Sums
  import opened CartTypes
  import opened CartContext
  import opened CartPage

  datatype Stats = Stats(totalSales: int, totalOrders: int, totalFunctions: int)

  /**
   * `loadStats`: `prices` is the `total_price` column of every purchase row
   * (null when the query returned no data) and `count` the exact row count
   * of the shows table (null when unknown).
   */
  function LoadStats(prices: Option<seq<int>>, count: Option<int>): (r: Stats)
    ensures prices.None? ==> r.totalSales == 0 && r.totalOrders == 0
    ensures prices.Some? ==> r.totalSales == Sum(prices.value) && r.totalOrders == |prices.value|
    ensures count.None? ==> r.totalFunctions == 0
    ensures count.Some? ==> r.totalFunctions == count.value
  {
    var rows := prices.GetOr([]);
    Stats(Sum(rows), |rows|, count.GetOr(0))
  }

  /**
   * For the rows one checkout inserts, the dashboard's sales figure is the
   * cart total, and its "tickets sold" figure counts cart lines, not tickets:
   * it falls short of the tickets bought as soon as a line has more than one.
   */
  lemma CheckoutAsSeenByDashboard(items: seq<CartItem>, userId: string, count: Option<int>)
    requires PositiveQuantities(items)
    ensures var stats := LoadStats(Some(PriceColumn(PurchaseRecords(items, userId))), count);
      && stats.totalSales == TotalPrice(items)
      && stats.totalOrders == |items| <= TotalItems(items)
      && (stats.totalOrders == TotalItems(items) <==> forall i :: 0 <= i < |items| ==> items[i].quantity == 1)
  {
    RecordsSumToCartTotal(items, userId);
    TicketsAtLeastLines(items);
  }
}
