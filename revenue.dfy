/** The daily revenue history that seeds the per-product forecast
    (forecast_w.py, build_forecast_and_plan, lines 138-139 and 171-223). */
module RevenueGrid {
  import opened Dates
  import opened Wrappers
  import opened Adjustment

  /** One row of the history query: an order date, a product and SUM(quantity * price),
      which SQL may return as NULL. */
  datatype SalesAggregate = SalesAggregate(orderDate: Date, productId: ProductId, totalRevenue: Option<real>)

  /** sales_by_date: order date -> product id -> revenue. */
  type SalesByDate = map<Date, map<ProductId, real>>

  /** `r.total_revenue or 0`. */
  function RevenueOf(r: SalesAggregate): real {
    match r.totalRevenue
    case Some(v) => v
    case None => 0.0
  }

  /** `sales_by_date.get(d, {}).get(p, 0)`. */
  function Cell(m: SalesByDate, d: Date, p: ProductId): real {
    if d in m && p in m[d] then m[d][p] else 0.0
  }

  /** The revenue of all rows of `rs` for product `p` on day `d`, added in row order. */
  function SumRevenue(rs: seq<SalesAggregate>, d: Date, p: ProductId): real {
    if rs == [] then 0.0
    else
      var last := rs[|rs| - 1];
      SumRevenue(rs[..|rs| - 1], d, p) + (if last.orderDate == d && last.productId == p then RevenueOf(last) else 0.0)
  }

  lemma {:induction false} SumRevenueNonNegative(rs: seq<SalesAggregate>, d: Date, p: ProductId)
    requires forall i :: 0 <= i < |rs| ==> RevenueOf(rs[i]) >= 0.0
    ensures SumRevenue(rs, d, p) >= 0.0
  {
    if rs != [] {
      SumRevenueNonNegative(rs[..|rs| - 1], d, p);
    }
  }

  lemma {:induction false} SumRevenueAbsent(rs: seq<SalesAggregate>, d: Date, p: ProductId)
    requires forall i :: 0 <= i < |rs| ==> !(rs[i].orderDate == d && rs[i].productId == p)
    ensures SumRevenue(rs, d, p) == 0.0
  {
    if rs != [] {
      SumRevenueAbsent(rs[..|rs| - 1], d, p);
    }
  }

  /** Lines 198-204: group the query rows into the nested dictionary, adding revenues
      that share a (date, product) key. */
  method AccumulateSales(results: seq<SalesAggregate>) returns (sales: SalesByDate)
    ensures sales.Keys == set i | 0 <= i < |results| :: results[i].orderDate
    ensures forall d, p :: Cell(sales, d, p) == SumRevenue(results, d, p)
    ensures forall d, p :: d in sales && p in sales[d] <==>
              exists i :: 0 <= i < |results| && results[i].orderDate == d && results[i].productId == p
  {
    sales := map[];
    var i := 0;
    while i < |results|
      invariant 0 <= i <= |results|
      invariant sales.Keys == set j | 0 <= j < i :: results[j].orderDate
      invariant forall d, p :: Cell(sales, d, p) == SumRevenue(results[..i], d, p)
      invariant forall d, p :: d in sales && p in sales[d] <==>
                  exists j :: 0 <= j < i && results[j].orderDate == d && results[j].productId == p
    {
      var r := results[i];
      if r.orderDate !in sales {
        sales := sales[r.orderDate := map[]];
      }
      var row := sales[r.orderDate];
      var previous := if r.productId in row then row[r.productId] else 0.0;
      sales := sales[r.orderDate := row[r.productId := previous + RevenueOf(r)]];
      assert results[..i + 1][..i] == results[..i];
      i := i + 1;
    }
    assert results[..i] == results;
  }

  /** Lines 206-209: every day of the window missing from the dictionary gets a zero for
      every known product; days that had sales are left as they were. */
  method FillMissingDays(sales: SalesByDate, window: seq<Date>, pids: seq<ProductId>) returns (filled: SalesByDate)
    ensures filled.Keys == sales.Keys + set k | 0 <= k < |window| :: window[k]
    ensures forall d :: d in sales ==> filled[d] == sales[d]
    ensures forall d :: d in filled && d !in sales ==> filled[d] == map p | p in pids :: 0.0
    ensures forall d, p :: Cell(filled, d, p) == Cell(sales, d, p)
  {
    filled := sales;
    var k := 0;
    while k < |window|
      invariant 0 <= k <= |window|
      invariant filled.Keys == sales.Keys + set j | 0 <= j < k :: window[j]
      invariant forall d :: d in sales ==> filled[d] == sales[d]
      invariant forall d :: d in filled && d !in sales ==> filled[d] == map p | p in pids :: 0.0
      invariant forall d, p :: Cell(filled, d, p) == Cell(sales, d, p)
    {
      if window[k] !in filled {
        filled := filled[window[k] := map p | p in pids :: 0.0];
      }
      k := k + 1;
    }
  }

  /** pd.date_range(date_from, date_to): both ends included, so 366 days ending yesterday. */
  function HistoryWindow(today: Date): (w: seq<Date>)
    ensures |w| == 366
    ensures forall k :: 0 <= k < |w| ==> w[k] == AddDays(AddDays(AddDays(today, -1), -365), k)
  {
    var dateFrom := AddDays(AddDays(today, -1), -365);
    seq(366, k => AddDays(dateFrom, k))
  }

  /** The history of one product: the revenue of every window day, zero where nothing sold. */
  function Series(rs: seq<SalesAggregate>, window: seq<Date>, p: ProductId): (s: seq<real>)
    ensures |s| == |window|
    ensures forall k :: 0 <= k < |window| ==> s[k] == SumRevenue(rs, window[k], p)
  {
    seq(|window|, k requires 0 <= k < |window| => SumRevenue(rs, window[k], p))
  }

  /** df["y"].sum() over the first n days of the window. */
  function SeriesTotal(rs: seq<SalesAggregate>, window: seq<Date>, p: ProductId, n: nat): real
    requires n <= |window|
  {
    if n == 0 then 0.0 else SeriesTotal(rs, window, p, n - 1) + SumRevenue(rs, window[n - 1], p)
  }

  /** The window lies in the year before `today`: 366 distinct, consecutive days ending yesterday. */
  lemma HistoryWindowShape(today: Date)
    ensures var w := HistoryWindow(today);
            && w[365] == AddDays(today, -1)
            && (forall k :: 0 <= k < 366 ==> Lt(w[k], today))
            && (forall j, k :: 0 <= j < k < 366 ==> Lt(w[j], w[k]))
  {
    var w := HistoryWindow(today);
    var dateFrom := AddDays(AddDays(today, -1), -365);
    AddDaysCompose(AddDays(today, -1), -365, 365);
    forall k | 0 <= k < 366
      ensures Lt(w[k], today)
    {
      AddDaysCompose(dateFrom, k, 366 - k);
      AddDaysCompose(AddDays(today, -1), -365, 366);
      AddDaysCompose(today, -1, 1);
      AddDaysOrder(w[k], 366 - k);
      assert AddDays(w[k], 366 - k) == today;
      AddDaysInjective(w[k], 0, 366 - k);
    }
    forall j, k | 0 <= j < k < 366
      ensures Lt(w[j], w[k])
    {
      AddDaysCompose(dateFrom, j, k - j);
      AddDaysOrder(w[j], k - j);
      AddDaysInjective(dateFrom, j, k);
    }
  }

  /** Gap-filled completeness: every window day has a value for every product, it is the
      revenue of that day, and it is never negative when line revenues are not. */
  lemma SeriesComplete(rs: seq<SalesAggregate>, window: seq<Date>, p: ProductId, k: int)
    requires 0 <= k < |window|
    requires forall i :: 0 <= i < |rs| ==> RevenueOf(rs[i]) >= 0.0
    ensures Series(rs, window, p)[k] >= 0.0
    ensures (forall i :: 0 <= i < |rs| ==> !(rs[i].orderDate == window[k] && rs[i].productId == p))
            ==> Series(rs, window, p)[k] == 0.0
  {
    SumRevenueNonNegative(rs, window[k], p);
    if forall i :: 0 <= i < |rs| ==> !(rs[i].orderDate == window[k] && rs[i].productId == p) {
      SumRevenueAbsent(rs, window[k], p);
    }
  }

  /** A product takes part in the forecast when its history adds up to more than zero. */
  predicate IsForecastable(rs: seq<SalesAggregate>, window: seq<Date>, p: ProductId) {
    SeriesTotal(rs, window, p, |window|) > 0.0
  }

  /** Lines 213-223 without the model fit: the products, in catalogue order, whose history
      total is positive. */
  function ForecastableIds(rs: seq<SalesAggregate>, window: seq<Date>, products: seq<Product>): (ids: seq<ProductId>)
    ensures |ids| <= |products|
    ensures forall p :: p in ids <==> exists i :: 0 <= i < |products| && products[i].id == p && IsForecastable(rs, window, p)
  {
    if products == [] then []
    else
      var init := ForecastableIds(rs, window, products[..|products| - 1]);
      var last := products[|products| - 1];
      assert forall i :: 0 <= i < |products| - 1 ==> products[..|products| - 1][i] == products[i];
      if IsForecastable(rs, window, last.id) then init + [last.id] else init
  }

  /** Product ids are a primary key, so the selected ids are distinct too. */
  lemma {:induction false} ForecastableIdsDistinct(rs: seq<SalesAggregate>, window: seq<Date>, products: seq<Product>)
    requires forall i, j :: 0 <= i < j < |products| ==> products[i].id != products[j].id
    ensures DistinctIds(ForecastableIds(rs, window, products))
  {
    if products != [] {
      var init := products[..|products| - 1];
      var last := products[|products| - 1];
      assert forall i :: 0 <= i < |init| ==> init[i] == products[i];
      ForecastableIdsDistinct(rs, window, init);
      assert last.id !in ForecastableIds(rs, window, init);
    }
  }

  lemma {:induction false} SeriesTotalNonNegative(rs: seq<SalesAggregate>, window: seq<Date>, p: ProductId, n: nat)
    requires n <= |window|
    requires forall i :: 0 <= i < |rs| ==> RevenueOf(rs[i]) >= 0.0
    ensures SeriesTotal(rs, window, p, n) >= 0.0
  {
    if n > 0 {
      SeriesTotalNonNegative(rs, window, p, n - 1);
      SumRevenueNonNegative(rs, window[n - 1], p);
    }
  }

  /** Lines 213-223: walk the catalogue, add up each product's gap-filled series and keep
      the products whose total is positive. */
  method SelectForecastable(filled: SalesByDate, rs: seq<SalesAggregate>, window: seq<Date>, products: seq<Product>)
    returns (ids: seq<ProductId>)
    requires forall d, p :: Cell(filled, d, p) == SumRevenue(rs, d, p)
    ensures ids == ForecastableIds(rs, window, products)
  {
    ids := [];
    var i := 0;
    while i < |products|
      invariant 0 <= i <= |products|
      invariant ids == ForecastableIds(rs, window, products[..i])
    {
      var pid := products[i].id;
      var total := 0.0;
      var k := 0;
      while k < |window|
        invariant 0 <= k <= |window|
        invariant total == SeriesTotal(rs, window, pid, k)
      {
        total := total + Cell(filled, window[k], pid);
        k := k + 1;
      }
      assert products[..i + 1][..i] == products[..i];
      if total > 0.0 {
        ids := ids + [pid];
      }
      i := i + 1;
    }
    assert products[..i] == products;
  }
}
