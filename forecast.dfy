/** The 30-day demand forecast and sales plan of the forecast widget
    (forecast_w.py, build_forecast_and_plan and save_forecast_and_plan). */
module ForecastPlan {
  import opened Dates
  import opened Wrappers
  import opened Adjustment
  import opened RevenueGrid
  import opened PlanUpsert
  import opened ClientActivity

  /** forecast_dates: today and the 29 days after it. */
  function ForecastDates(today: Date): (ds: seq<Date>)
    ensures |ds| == 30
    ensures forall i :: 0 <= i < 30 ==> ds[i] == AddDays(today, i)
  {
    seq(30, i => AddDays(today, i))
  }

  /** The forecast days start today and are 30 distinct days in increasing order. */
  lemma ForecastDatesShape(today: Date)
    ensures var ds := ForecastDates(today);
            ds[0] == today && (forall i, j :: 0 <= i < j < 30 ==> Lt(ds[i], ds[j])) && DistinctDates(ds)
  {
    var ds := ForecastDates(today);
    forall i, j | 0 <= i < j < 30
      ensures Lt(ds[i], ds[j])
    {
      AddDaysCompose(today, i, j - i);
      AddDaysOrder(ds[i], j - i);
      AddDaysInjective(today, i, j);
    }
  }

  /** The model's yhat for a (product, day), where the fitted frame has that day. */
  type Prediction = map<(ProductId, Date), real>

  predicate DistinctProductIds(products: seq<Product>) {
    forall i, j :: 0 <= i < j < |products| ==> products[i].id != products[j].id
  }

  /** product_info: name, normalised shelf life and pH per product id; a later product
      with the same id replaces an earlier one. */
  function InfoMap(products: seq<Product>): (m: map<ProductId, ProductInfo>)
    ensures m.Keys == set i | 0 <= i < |products| :: products[i].id
  {
    if products == [] then map[]
    else
      var init := products[..|products| - 1];
      var last := products[|products| - 1];
      assert (set i | 0 <= i < |products| :: products[i].id) == (set i | 0 <= i < |init| :: init[i].id) + {last.id};
      InfoMap(init)[last.id := InfoOf(last)]
  }

  /** The entry of a product id is the normalised record of the last product with that id. */
  lemma {:induction false} InfoMapTakesLast(products: seq<Product>, i: int)
    requires 0 <= i < |products|
    requires forall j :: i < j < |products| ==> products[j].id != products[i].id
    ensures products[i].id in InfoMap(products)
    ensures InfoMap(products)[products[i].id] == InfoOf(products[i])
  {
    var init := products[..|products| - 1];
    if i < |products| - 1 {
      assert forall j :: i < j < |init| ==> init[j] == products[j];
      InfoMapTakesLast(init, i);
    }
  }

  /** Lines 152-167: the loop that fills product_info. */
  method BuildProductInfo(products: seq<Product>) returns (info: map<ProductId, ProductInfo>)
    ensures info == InfoMap(products)
  {
    info := map[];
    var i := 0;
    while i < |products|
      invariant 0 <= i <= |products|
      invariant info == InfoMap(products[..i])
    {
      assert products[..i + 1][..i] == products[..i];
      info := info[products[i].id := InfoOf(products[i])];
      i := i + 1;
    }
    assert products[..i] == products;
  }

  /** One entry of forecast_data, from the raw prediction of the day. */
  function RowFor(d: Date, pid: ProductId, info: ProductInfo, raw: real, acts: seq<MarketingActivity>, engagement: real): (r: ForecastRow)
    ensures KeyOf(r) == (d, pid) && r.productName == info.name
    ensures r.forecast >= 0.0 && r.plan >= r.forecast
  {
    var forecast := AdjustedForecast(raw, Factors(pid, info, d, acts, engagement));
    ForecastRow(d, pid, info.name, forecast, PlanValue(forecast, acts, d))
  }

  /** The forecast of a row is the clamped adjusted prediction, and its plan is that
      forecast times the plan factor. */
  lemma RowForValues(d: Date, pid: ProductId, info: ProductInfo, raw: real, acts: seq<MarketingActivity>, engagement: real)
    ensures var r := RowFor(d, pid, info, raw, acts, engagement);
            r.forecast == AdjustedForecast(raw, Factors(pid, info, d, acts, engagement))
            && r.plan == PlanValue(r.forecast, acts, d)
  {
  }

  lemma PlanValueAgrees(f: real, acts1: seq<MarketingActivity>, acts2: seq<MarketingActivity>, d: Date)
    requires PlanFactor(acts1, d) == PlanFactor(acts2, d)
    ensures PlanValue(f, acts1, d) == PlanValue(f, acts2, d)
  {
  }

  predicate HasInfo(ids: seq<ProductId>, infos: map<ProductId, ProductInfo>) {
    forall j :: 0 <= j < |ids| ==> ids[j] in infos
  }

  /** The rows of one forecast day: the products in order, each one that has a prediction
      for the day. */
  function RowsOn(d: Date, ids: seq<ProductId>, infos: map<ProductId, ProductInfo>, yhat: Prediction,
                  acts: seq<MarketingActivity>, engagement: real): (rows: seq<ForecastRow>)
    requires HasInfo(ids, infos)
    ensures |rows| <= |ids|
    ensures forall k :: 0 <= k < |rows| ==> rows[k].date == d && rows[k].productId in ids
  {
    if ids == [] then []
    else
      var init := ids[..|ids| - 1];
      var pid := ids[|ids| - 1];
      assert forall j :: 0 <= j < |init| ==> init[j] == ids[j];
      RowsOn(d, init, infos, yhat, acts, engagement)
        + (if (pid, d) in yhat then [RowFor(d, pid, infos[pid], yhat[(pid, d)], acts, engagement)] else [])
  }

  /** forecast_data: day by day, and within a day product by product. */
  function ForecastRows(dates: seq<Date>, ids: seq<ProductId>, infos: map<ProductId, ProductInfo>, yhat: Prediction,
                        acts: seq<MarketingActivity>, engagement: real): (rows: seq<ForecastRow>)
    requires HasInfo(ids, infos)
    ensures forall k :: 0 <= k < |rows| ==> rows[k].date in dates && rows[k].productId in ids
  {
    if dates == [] then []
    else
      ForecastRows(dates[..|dates| - 1], ids, infos, yhat, acts, engagement)
        + RowsOn(dates[|dates| - 1], ids, infos, yhat, acts, engagement)
  }

  lemma RowsOnSnoc(d: Date, ids: seq<ProductId>, j: int, infos: map<ProductId, ProductInfo>, yhat: Prediction,
                   acts: seq<MarketingActivity>, engagement: real)
    requires HasInfo(ids, infos) && 0 <= j < |ids|
    ensures HasInfo(ids[..j], infos) && HasInfo(ids[..j + 1], infos)
    ensures RowsOn(d, ids[..j + 1], infos, yhat, acts, engagement)
            == RowsOn(d, ids[..j], infos, yhat, acts, engagement)
               + (if (ids[j], d) in yhat then [RowFor(d, ids[j], infos[ids[j]], yhat[(ids[j], d)], acts, engagement)] else [])
  {
    assert ids[..j + 1][..j] == ids[..j];
    assert ids[..j + 1][j] == ids[j];
  }

  /** The row the loop body builds is RowFor's. */
  lemma RowForIs(d: Date, pid: ProductId, info: ProductInfo, raw: real, acts: seq<MarketingActivity>, engagement: real)
    ensures var forecast := AdjustedForecast(raw, Factors(pid, info, d, acts, engagement));
            ForecastRow(d, pid, info.name, forecast, forecast * PlanFactor(acts, d)) == RowFor(d, pid, info, raw, acts, engagement)
  {
  }

  lemma ForecastRowsSnoc(dates: seq<Date>, i: int, ids: seq<ProductId>, infos: map<ProductId, ProductInfo>, yhat: Prediction,
                         acts: seq<MarketingActivity>, engagement: real)
    requires HasInfo(ids, infos) && 0 <= i < |dates|
    ensures ForecastRows(dates[..i + 1], ids, infos, yhat, acts, engagement)
            == ForecastRows(dates[..i], ids, infos, yhat, acts, engagement) + RowsOn(dates[i], ids, infos, yhat, acts, engagement)
  {
    assert dates[..i + 1][..i] == dates[..i];
  }

  /** Lines 261-292, the inner loop: the rows of one forecast day, product by product. */
  method BuildDayRows(d: Date, ids: seq<ProductId>, infos: map<ProductId, ProductInfo>, yhat: Prediction,
                      acts: seq<MarketingActivity>, engagement: real) returns (dayRows: seq<ForecastRow>)
    requires HasInfo(ids, infos)
    ensures dayRows == RowsOn(d, ids, infos, yhat, acts, engagement)
  {
    dayRows := [];
    var j := 0;
    while j < |ids|
      invariant 0 <= j <= |ids|
      invariant dayRows == RowsOn(d, ids[..j], infos, yhat, acts, engagement)
    {
      var pid := ids[j];
      RowsOnSnoc(d, ids, j, infos, yhat, acts, engagement);
      if (pid, d) in yhat {
        var forecast := AdjustedForecast(yhat[(pid, d)], Factors(pid, infos[pid], d, acts, engagement));
        var r := ForecastRow(d, pid, infos[pid].name, forecast, forecast * PlanFactor(acts, d));
        RowForIs(d, pid, infos[pid], yhat[(pid, d)], acts, engagement);
        dayRows := dayRows + [r];
      }
      j := j + 1;
    }
    assert ids[..j] == ids;
  }

  /** Lines 258-292: the loop over forecast days; each day appends its rows to
      forecast_data. */
  method BuildRows(dates: seq<Date>, ids: seq<ProductId>, infos: map<ProductId, ProductInfo>, yhat: Prediction,
                   acts: seq<MarketingActivity>, engagement: real) returns (rows: seq<ForecastRow>)
    requires HasInfo(ids, infos)
    ensures rows == ForecastRows(dates, ids, infos, yhat, acts, engagement)
  {
    rows := [];
    var i := 0;
    while i < |dates|
      invariant 0 <= i <= |dates|
      invariant rows == ForecastRows(dates[..i], ids, infos, yhat, acts, engagement)
    {
      var dayRows := BuildDayRows(dates[i], ids, infos, yhat, acts, engagement);
      rows := rows + dayRows;
      ForecastRowsSnoc(dates, i, ids, infos, yhat, acts, engagement);
      i := i + 1;
    }
    assert dates[..i] == dates;
  }

  // ---------------------------------------------------------------------------
  // What forecast_data holds

  /** A day's rows are exactly the predicted products of that day, each adjusted by its rules. */
  lemma {:induction false} RowsOnMembers(d: Date, ids: seq<ProductId>, infos: map<ProductId, ProductInfo>, yhat: Prediction,
                                         acts: seq<MarketingActivity>, engagement: real, r: ForecastRow)
    requires HasInfo(ids, infos)
    ensures r in RowsOn(d, ids, infos, yhat, acts, engagement) <==>
            exists j :: 0 <= j < |ids| && (ids[j], d) in yhat
                        && r == RowFor(d, ids[j], infos[ids[j]], yhat[(ids[j], d)], acts, engagement)
  {
    if ids != [] {
      var init := ids[..|ids| - 1];
      var pid := ids[|ids| - 1];
      assert forall j :: 0 <= j < |init| ==> init[j] == ids[j];
      RowsOnMembers(d, init, infos, yhat, acts, engagement, r);
    }
  }

  /** forecast_data is the rows of its days, one day after the other. */
  lemma {:induction false} ForecastRowsByDay(dates: seq<Date>, ids: seq<ProductId>, infos: map<ProductId, ProductInfo>, yhat: Prediction,
                                             acts: seq<MarketingActivity>, engagement: real, r: ForecastRow)
    requires HasInfo(ids, infos)
    ensures r in ForecastRows(dates, ids, infos, yhat, acts, engagement) <==>
            exists i :: 0 <= i < |dates| && r in RowsOn(dates[i], ids, infos, yhat, acts, engagement)
  {
    if dates != [] {
      var n := |dates| - 1;
      var init := dates[..n];
      assert forall i :: 0 <= i < n ==> init[i] == dates[i];
      ForecastRowsByDay(init, ids, infos, yhat, acts, engagement, r);
      var before, last := ForecastRows(init, ids, infos, yhat, acts, engagement), RowsOn(dates[n], ids, infos, yhat, acts, engagement);
      assert ForecastRows(dates, ids, infos, yhat, acts, engagement) == before + last;
      assert r in before + last <==> r in before || r in last;
    }
  }

  /** Every row of forecast_data comes from one forecast day and one forecast product with
      a prediction, and every such pair gives a row. */
  lemma ForecastRowsMembers(dates: seq<Date>, ids: seq<ProductId>, infos: map<ProductId, ProductInfo>, yhat: Prediction,
                            acts: seq<MarketingActivity>, engagement: real, r: ForecastRow)
    requires HasInfo(ids, infos)
    ensures r in ForecastRows(dates, ids, infos, yhat, acts, engagement) <==>
            exists i, j :: 0 <= i < |dates| && 0 <= j < |ids| && (ids[j], dates[i]) in yhat
                           && r == RowFor(dates[i], ids[j], infos[ids[j]], yhat[(ids[j], dates[i])], acts, engagement)
  {
    ForecastRowsByDay(dates, ids, infos, yhat, acts, engagement, r);
    if r in ForecastRows(dates, ids, infos, yhat, acts, engagement) {
      var i :| 0 <= i < |dates| && r in RowsOn(dates[i], ids, infos, yhat, acts, engagement);
      RowsOnMembers(dates[i], ids, infos, yhat, acts, engagement, r);
    }
    if exists i, j :: 0 <= i < |dates| && 0 <= j < |ids| && (ids[j], dates[i]) in yhat
                      && r == RowFor(dates[i], ids[j], infos[ids[j]], yhat[(ids[j], dates[i])], acts, engagement) {
      var i, j :| 0 <= i < |dates| && 0 <= j < |ids| && (ids[j], dates[i]) in yhat
                  && r == RowFor(dates[i], ids[j], infos[ids[j]], yhat[(ids[j], dates[i])], acts, engagement);
      RowsOnMembers(dates[i], ids, infos, yhat, acts, engagement, r);
    }
  }

  /** With a prediction for every product on every day there is one row per pair. */
  lemma {:induction false} RowsOnComplete(d: Date, ids: seq<ProductId>, infos: map<ProductId, ProductInfo>, yhat: Prediction,
                                          acts: seq<MarketingActivity>, engagement: real)
    requires HasInfo(ids, infos)
    requires forall j :: 0 <= j < |ids| ==> (ids[j], d) in yhat
    ensures |RowsOn(d, ids, infos, yhat, acts, engagement)| == |ids|
  {
    if ids != [] {
      var init := ids[..|ids| - 1];
      assert forall j :: 0 <= j < |init| ==> init[j] == ids[j];
      RowsOnComplete(d, init, infos, yhat, acts, engagement);
    }
  }

  lemma MulStep(n: int, m: int)
    ensures n * m == (n - 1) * m + m
  {
  }

  lemma {:induction false} ForecastRowsComplete(dates: seq<Date>, ids: seq<ProductId>, infos: map<ProductId, ProductInfo>, yhat: Prediction,
                                                acts: seq<MarketingActivity>, engagement: real)
    requires HasInfo(ids, infos)
    requires forall i, j :: 0 <= i < |dates| && 0 <= j < |ids| ==> (ids[j], dates[i]) in yhat
    ensures |ForecastRows(dates, ids, infos, yhat, acts, engagement)| == |dates| * |ids|
  {
    if dates != [] {
      var init := dates[..|dates| - 1];
      assert forall i :: 0 <= i < |init| ==> init[i] == dates[i];
      ForecastRowsComplete(init, ids, infos, yhat, acts, engagement);
      RowsOnComplete(dates[|dates| - 1], ids, infos, yhat, acts, engagement);
      MulStep(|dates|, |ids|);
    }
  }

  predicate DistinctKeys(rows: seq<ForecastRow>) {
    forall i, j :: 0 <= i < j < |rows| ==> KeyOf(rows[i]) != KeyOf(rows[j])
  }

  lemma DistinctKeysConcat(a: seq<ForecastRow>, b: seq<ForecastRow>)
    requires DistinctKeys(a) && DistinctKeys(b)
    requires forall i, j :: 0 <= i < |a| && 0 <= j < |b| ==> KeyOf(a[i]) != KeyOf(b[j])
    ensures DistinctKeys(a + b)
  {
    forall i, j | 0 <= i < j < |a + b|
      ensures KeyOf((a + b)[i]) != KeyOf((a + b)[j])
    {
      if j < |a| {
        assert (a + b)[i] == a[i] && (a + b)[j] == a[j];
      } else if i < |a| {
        assert (a + b)[i] == a[i] && (a + b)[j] == b[j - |a|];
      } else {
        assert (a + b)[i] == b[i - |a|] && (a + b)[j] == b[j - |a|];
      }
    }
  }

  lemma {:induction false} RowsOnDistinct(d: Date, ids: seq<ProductId>, infos: map<ProductId, ProductInfo>, yhat: Prediction,
                                          acts: seq<MarketingActivity>, engagement: real)
    requires HasInfo(ids, infos)
    requires DistinctIds(ids)
    ensures DistinctKeys(RowsOn(d, ids, infos, yhat, acts, engagement))
  {
    if ids != [] {
      var init := ids[..|ids| - 1];
      var pid := ids[|ids| - 1];
      assert forall j :: 0 <= j < |init| ==> init[j] == ids[j];
      RowsOnDistinct(d, init, infos, yhat, acts, engagement);
      var before := RowsOn(d, init, infos, yhat, acts, engagement);
      var added := if (pid, d) in yhat then [RowFor(d, pid, infos[pid], yhat[(pid, d)], acts, engagement)] else [];
      assert pid !in init;
      DistinctKeysConcat(before, added);
    }
  }

  /** Distinct days and distinct products give rows with distinct (date, product) keys. */
  lemma {:induction false} ForecastRowsDistinct(dates: seq<Date>, ids: seq<ProductId>, infos: map<ProductId, ProductInfo>, yhat: Prediction,
                                                acts: seq<MarketingActivity>, engagement: real)
    requires HasInfo(ids, infos)
    requires DistinctDates(dates)
    requires DistinctIds(ids)
    ensures DistinctKeys(ForecastRows(dates, ids, infos, yhat, acts, engagement))
  {
    if dates != [] {
      var init := dates[..|dates| - 1];
      var d := dates[|dates| - 1];
      assert forall i :: 0 <= i < |init| ==> init[i] == dates[i];
      ForecastRowsDistinct(init, ids, infos, yhat, acts, engagement);
      RowsOnDistinct(d, ids, infos, yhat, acts, engagement);
      assert d !in init;
      DistinctKeysConcat(ForecastRows(init, ids, infos, yhat, acts, engagement), RowsOn(d, ids, infos, yhat, acts, engagement));
    }
  }

  // ---------------------------------------------------------------------------
  // A whole run

  /** What build_forecast_and_plan reads: the date, the product catalogue, the history
      query, the client query (None when it raised), all marketing activities and the
      model's predictions. */
  datatype ForecastInputs = ForecastInputs(
    today: Date,
    products: seq<Product>,
    history: seq<SalesAggregate>,
    clients: Option<seq<ClientRow>>,
    activities: seq<MarketingActivity>,
    yhat: Prediction)

  /** The four ways a run ends: rows built, or one of the early warnings. */
  datatype BuildOutcome = Built(rows: seq<ForecastRow>) | NoProducts | NoSalesHistory | NoForecastableProduct

  function ProductIds(products: seq<Product>): (ids: seq<ProductId>)
    ensures |ids| == |products|
    ensures forall i :: 0 <= i < |products| ==> ids[i] == products[i].id
  {
    seq(|products|, i requires 0 <= i < |products| => products[i].id)
  }

  /** Every forecastable product has an entry in product_info. */
  lemma ForecastableHaveInfo(rs: seq<SalesAggregate>, window: seq<Date>, products: seq<Product>)
    ensures HasInfo(ForecastableIds(rs, window, products), InfoMap(products))
  {
    var ids := ForecastableIds(rs, window, products);
    var infos := InfoMap(products);
    forall j | 0 <= j < |ids|
      ensures ids[j] in infos
    {
      assert ids[j] in ids;
      var i :| 0 <= i < |products| && products[i].id == ids[j] && IsForecastable(rs, window, ids[j]);
      assert products[i].id in infos.Keys;
    }
  }

  /** build_forecast_and_plan as a function of what it reads. */
  function ForecastRun(inputs: ForecastInputs): (outcome: BuildOutcome)
    ensures outcome.NoProducts? <==> inputs.products == []
    ensures outcome.NoSalesHistory? <==> inputs.products != [] && inputs.history == []
    ensures outcome.NoForecastableProduct? <==>
              inputs.products != [] && inputs.history != []
              && ForecastableIds(inputs.history, HistoryWindow(inputs.today), inputs.products) == []
    ensures outcome.Built? <==>
              inputs.products != [] && inputs.history != []
              && ForecastableIds(inputs.history, HistoryWindow(inputs.today), inputs.products) != []
  {
    if inputs.products == [] then NoProducts
    else if inputs.history == [] then NoSalesHistory
    else
      var ids := ForecastableIds(inputs.history, HistoryWindow(inputs.today), inputs.products);
      if ids == [] then NoForecastableProduct
      else
        ForecastableHaveInfo(inputs.history, HistoryWindow(inputs.today), inputs.products);
        var dates := ForecastDates(inputs.today);
        var acts := QueryActivities(inputs.activities, dates[0], dates[29]);
        Built(ForecastRows(dates, ids, InfoMap(inputs.products), inputs.yhat, acts, ClientActivityFactor(inputs.clients)))
  }

  /** The rows of a successful run: one per forecast day and forecastable product with a
      prediction, with the shelf-life, pH, season and marketing rules applied, a neutral
      engagement factor, and the plan marked up by 5 or 10 percent. */
  lemma ForecastRunRows(inputs: ForecastInputs, r: ForecastRow)
    requires ForecastRun(inputs).Built?
    requires r in ForecastRun(inputs).rows
    ensures r.forecast >= 0.0
    ensures Le(inputs.today, r.date) && Le(r.date, AddDays(inputs.today, 29))
    ensures IsForecastable(inputs.history, HistoryWindow(inputs.today), r.productId)
    ensures (r.productId, r.date) in inputs.yhat
    ensures var info := InfoMap(inputs.products)[r.productId];
            r.forecast == AdjustedForecast(inputs.yhat[(r.productId, r.date)], Factors(r.productId, info, r.date, inputs.activities, 1.0))
    ensures r.plan == PlanValue(r.forecast, inputs.activities, r.date)
  {
    var ids := ForecastableIds(inputs.history, HistoryWindow(inputs.today), inputs.products);
    var dates := ForecastDates(inputs.today);
    var acts := QueryActivities(inputs.activities, dates[0], dates[29]);
    var infos := InfoMap(inputs.products);
    var eng := ClientActivityFactor(inputs.clients);
    ForecastableHaveInfo(inputs.history, HistoryWindow(inputs.today), inputs.products);
    ForecastRowsMembers(dates, ids, infos, inputs.yhat, acts, eng, r);
    var i, j :| 0 <= i < |dates| && 0 <= j < |ids| && (ids[j], dates[i]) in inputs.yhat
                && r == RowFor(dates[i], ids[j], infos[ids[j]], inputs.yhat[(ids[j], dates[i])], acts, eng);
    ClientActivityIsNeutral(inputs.clients);
    ForecastDatesShape(inputs.today);
    AddDaysOrder(inputs.today, i);
    AddDaysCompose(inputs.today, i, 29 - i);
    AddDaysOrder(dates[i], 29 - i);
    PrefilterPreservesFactors(inputs.activities, dates[0], dates[29], dates[i], ids[j]);
    var info := infos[ids[j]];
    assert Factors(ids[j], info, dates[i], acts, eng) == Factors(ids[j], info, dates[i], inputs.activities, 1.0);
    RowForValues(dates[i], ids[j], info, inputs.yhat[(ids[j], dates[i])], acts, eng);
    PlanValueAgrees(r.forecast, acts, inputs.activities, dates[i]);
  }

  /** A successful run has distinct (date, product) keys, so saving it into a store
      inserts the keys that were missing and updates the ones that were there. */
  lemma SaveCountsOfRun(inputs: ForecastInputs, store: PlanStore, round2: real -> real)
    requires DistinctProductIds(inputs.products)
    requires ForecastRun(inputs).Built?
    ensures var rows := ForecastRun(inputs).rows;
            && |RowKeys(rows)| == |rows|
            && InsertCount(store, rows, round2) == |RowKeys(rows) - store.Keys|
            && UpdateCount(store, rows, round2) == |RowKeys(rows) * store.Keys|
  {
    var window := HistoryWindow(inputs.today);
    var ids := ForecastableIds(inputs.history, window, inputs.products);
    var dates := ForecastDates(inputs.today);
    var acts := QueryActivities(inputs.activities, dates[0], dates[29]);
    var infos := InfoMap(inputs.products);
    var eng := ClientActivityFactor(inputs.clients);
    ForecastableHaveInfo(inputs.history, window, inputs.products);
    var rows := ForecastRows(dates, ids, infos, inputs.yhat, acts, eng);
    ForecastDatesShape(inputs.today);
    ForecastableIdsDistinct(inputs.history, window, inputs.products);
    ForecastRowsDistinct(dates, ids, infos, inputs.yhat, acts, eng);
    var empty: PlanStore := map[];
    CountsForDistinctKeys(store, rows, round2);
    CountsForDistinctKeys(empty, rows, round2);
    CountsAddUp(empty, rows, round2);
    assert RowKeys(rows) - empty.Keys == RowKeys(rows);
    assert RowKeys(rows) * empty.Keys == {};
  }

  // ---------------------------------------------------------------------------
  // The widget

  /** The outcome of save_forecast_and_plan: the two counters of the success message,
      the "nothing to save" warning, or the error path with its rollback. */
  datatype SaveOutcome = Saved(inserted: nat, updated: nat) | NothingToSave | SaveFailed

  class ForecastWidget {
    /** self.forecast_data; None until a run has reached line 258. */
    var forecastData: Option<seq<ForecastRow>>
    /** The committed sales_plan table of the session. */
    var salesPlan: PlanStore

    /** The widget builds a forecast as soon as it is created. */
    constructor (inputs: ForecastInputs, store: PlanStore)
      requires DistinctProductIds(inputs.products)
      ensures salesPlan == store
      ensures forecastData == (if ForecastRun(inputs).Built? then Some(ForecastRun(inputs).rows) else None)
    {
      forecastData := None;
      salesPlan := store;
      new;
      var outcome := BuildForecastAndPlan(inputs);
    }

    /** build_forecast_and_plan: an early warning leaves forecast_data as it was; a
        successful run replaces it. */
    method BuildForecastAndPlan(inputs: ForecastInputs) returns (outcome: BuildOutcome)
      requires DistinctProductIds(inputs.products)
      modifies this
      ensures outcome == ForecastRun(inputs)
      ensures salesPlan == old(salesPlan)
      ensures forecastData == (if outcome.Built? then Some(outcome.rows) else old(forecastData))
    {
      if |inputs.products| == 0 {
        return NoProducts;
      }
      var info := BuildProductInfo(inputs.products);
      if |inputs.history| == 0 {
        return NoSalesHistory;
      }
      var sales := AccumulateSales(inputs.history);
      var window := HistoryWindow(inputs.today);
      var filled := FillMissingDays(sales, window, ProductIds(inputs.products));
      var ids := SelectForecastable(filled, inputs.history, window, inputs.products);
      if |ids| == 0 {
        return NoForecastableProduct;
      }
      var engagement := ClientActivityFactor(inputs.clients);
      var dates := ForecastDates(inputs.today);
      var acts := QueryActivities(inputs.activities, dates[0], dates[29]);
      ForecastableHaveInfo(inputs.history, window, inputs.products);
      var rows := BuildRows(dates, ids, info, inputs.yhat, acts, engagement);
      forecastData := Some(rows);
      outcome := Built(rows);
    }

    /** save_forecast_and_plan: each row updates the stored plan with its key or inserts a
        new one; the session autoflushes, so a later row sees an earlier row's insert.
        The single commit either stores all of it or, when it fails, is rolled back.
        Without forecast_data the attribute lookup raises and nothing is stored. */
    method SaveForecastAndPlan(round2: real -> real, commitSucceeds: bool) returns (outcome: SaveOutcome)
      modifies this
      ensures forecastData == old(forecastData)
      ensures old(forecastData).None? ==> outcome == SaveFailed && salesPlan == old(salesPlan)
      ensures old(forecastData) == Some([]) ==> outcome == NothingToSave && salesPlan == old(salesPlan)
      ensures old(forecastData).Some? && old(forecastData).value != [] ==>
                var rows := old(forecastData).value;
                if commitSucceeds then
                  outcome == Saved(InsertCount(old(salesPlan), rows, round2), UpdateCount(old(salesPlan), rows, round2))
                  && salesPlan == UpsertAll(old(salesPlan), rows, round2)
                else
                  outcome == SaveFailed && salesPlan == old(salesPlan)
    {
      if forecastData.None? {
        return SaveFailed;
      }
      var rows := forecastData.value;
      if |rows| == 0 {
        return NothingToSave;
      }
      var staged := salesPlan;
      var saved, updated := 0, 0;
      var i := 0;
      while i < |rows|
        invariant 0 <= i <= |rows|
        invariant staged == UpsertAll(salesPlan, rows[..i], round2)
        invariant saved == InsertCount(salesPlan, rows[..i], round2)
        invariant updated == UpdateCount(salesPlan, rows[..i], round2)
      {
        var r := rows[i];
        assert rows[..i + 1][..i] == rows[..i];
        if KeyOf(r) in staged {
          updated := updated + 1;
        } else {
          saved := saved + 1;
        }
        staged := staged[KeyOf(r) := EntryOf(r, round2)];
        i := i + 1;
      }
      assert rows[..i] == rows;
      if commitSucceeds {
        salesPlan := staged;
        outcome := Saved(saved, updated);
      } else {
        outcome := SaveFailed;
      }
    }
  }
}
