/** The business rules that turn a raw statistical forecast for one product on one
    day into the adjusted demand forecast and the sales plan (forecast_w.py). */
module Adjustment {
  import opened Dates
  import opened Wrappers
  import IsoDate

  type ProductId = int

  /** No product id occurs twice. */
  predicate DistinctIds(ids: seq<ProductId>) {
    forall i, j :: 0 <= i < j < |ids| ==> ids[i] != ids[j]
  }

  /** The shelf_life column as it reaches build_forecast_and_plan: a day count (the
      column is declared Integer), a text, a date, or NULL. */
  datatype ShelfLife = ShelfDays(days: int) | ShelfText(text: string) | ShelfDate(date: Date) | ShelfNone

  /** A product row: only the fields the forecast reads. */
  datatype Product = Product(id: ProductId, name: string, shelfLife: ShelfLife, ph: Option<real>)

  /** A marketing activity with its inclusive date range and the ids of its linked products. */
  datatype MarketingActivity = MarketingActivity(startDate: Date, endDate: Date, productIds: seq<ProductId>)

  /** The per-product facts kept in product_info: a text shelf life has been parsed. */
  datatype ProductInfo = ProductInfo(name: string, shelfLife: ShelfLife, ph: Option<real>)

  /** A text shelf life becomes a date when strptime accepts it and None when it does not;
      every other value is kept as it is. */
  function NormalizeShelfLife(v: ShelfLife): (r: ShelfLife)
    ensures !r.ShelfText?
    ensures v.ShelfText? ==> (r.ShelfDate? <==> IsoDate.ParseIsoDate(v.text).Some?)
    ensures v.ShelfText? && r.ShelfDate? ==> IsoDate.ParseIsoDate(v.text) == Some(r.date)
    ensures !v.ShelfText? ==> r == v
  {
    match v
    case ShelfText(t) =>
      (match IsoDate.ParseIsoDate(t)
       case Some(d) => ShelfDate(d)
       case None => ShelfNone)
    case _ => v
  }

  function InfoOf(p: Product): (i: ProductInfo)
    ensures i.name == p.name && i.ph == p.ph && i.shelfLife == NormalizeShelfLife(p.shelfLife)
  {
    ProductInfo(p.name, NormalizeShelfLife(p.shelfLife), p.ph)
  }

  predicate ActiveOn(a: MarketingActivity, d: Date) {
    Le(a.startDate, d) && Le(d, a.endDate)
  }

  predicate IsHighSeasonMonth(m: int) {
    m == 3 || m == 4 || m == 5 || m == 9 || m == 10 || m == 11
  }

  /** monthly_adj: spring and autumn months raise demand by 10%. */
  function SeasonalFactor(d: Date): (f: real)
    ensures f == 1.1 <==> IsHighSeasonMonth(d.month)
    ensures f == 1.0 <==> !IsHighSeasonMonth(d.month)
  {
    if IsHighSeasonMonth(d.month) then 1.1 else 1.0
  }

  /** Is some activity active on `d` AND linked to product `pid`? */
  predicate PromotesProduct(acts: seq<MarketingActivity>, pid: ProductId, d: Date) {
    exists i :: 0 <= i < |acts| && ActiveOn(acts[i], d) && pid in acts[i].productIds
  }

  /** Is some activity active on `d`, whatever products it lists? */
  predicate AnyActive(acts: seq<MarketingActivity>, d: Date) {
    exists i :: 0 <= i < |acts| && ActiveOn(acts[i], d)
  }

  /** The `any(...)` of the marketing factor, scanned in query order. */
  function ScanPromotes(acts: seq<MarketingActivity>, pid: ProductId, d: Date): (b: bool)
    ensures b <==> PromotesProduct(acts, pid, d)
  {
    if acts == [] then false
    else if ActiveOn(acts[0], d) && pid in acts[0].productIds then true
    else
      var rest := ScanPromotes(acts[1..], pid, d);
      assert PromotesProduct(acts, pid, d) ==> PromotesProduct(acts[1..], pid, d) by {
        if PromotesProduct(acts, pid, d) {
          var i :| 0 <= i < |acts| && ActiveOn(acts[i], d) && pid in acts[i].productIds;
          assert i > 0 && acts[1..][i - 1] == acts[i];
        }
      }
      assert PromotesProduct(acts[1..], pid, d) ==> PromotesProduct(acts, pid, d) by {
        if PromotesProduct(acts[1..], pid, d) {
          var i :| 0 <= i < |acts[1..]| && ActiveOn(acts[1..][i], d) && pid in acts[1..][i].productIds;
          assert acts[i + 1] == acts[1..][i];
        }
      }
      rest
  }

  /** The `any(...)` of the plan markup, scanned in query order. */
  function ScanActive(acts: seq<MarketingActivity>, d: Date): (b: bool)
    ensures b <==> AnyActive(acts, d)
  {
    if acts == [] then false
    else if ActiveOn(acts[0], d) then true
    else
      var rest := ScanActive(acts[1..], d);
      assert AnyActive(acts, d) ==> AnyActive(acts[1..], d) by {
        if AnyActive(acts, d) {
          var i :| 0 <= i < |acts| && ActiveOn(acts[i], d);
          assert i > 0 && acts[1..][i - 1] == acts[i];
        }
      }
      assert AnyActive(acts[1..], d) ==> AnyActive(acts, d) by {
        if AnyActive(acts[1..], d) {
          var i :| 0 <= i < |acts[1..]| && ActiveOn(acts[1..][i], d);
          assert acts[i + 1] == acts[1..][i];
        }
      }
      rest
  }

  /** marketing_adj: +10% while an activity that lists the product runs (bounds inclusive). */
  function MarketingFactor(acts: seq<MarketingActivity>, pid: ProductId, d: Date): (f: real)
    ensures f == 1.1 <==> PromotesProduct(acts, pid, d)
    ensures f == 1.0 <==> !PromotesProduct(acts, pid, d)
  {
    if ScanPromotes(acts, pid, d) then 1.1 else 1.0
  }

  /** shelf_life_adj: halves demand once a known expiry date has been reached. A day
      count is not a date, so it never triggers the rule. */
  function ShelfLifeFactor(shelf: ShelfLife, d: Date): (f: real)
    ensures f == 0.5 <==> shelf.ShelfDate? && Le(shelf.date, d)
    ensures f == 1.0 <==> !(shelf.ShelfDate? && Le(shelf.date, d))
  {
    match shelf
    case ShelfDate(e) => if Le(e, d) then 0.5 else 1.0
    case _ => 1.0
  }

  /** ph_adj: +20% for a pH that is present, non-zero (Python truthiness) and in [5.0, 6.0]. */
  function PhFactor(ph: Option<real>): (f: real)
    ensures f == 1.2 <==> ph.Some? && 5.0 <= ph.value <= 6.0
    ensures f == 1.0 <==> !(ph.Some? && 5.0 <= ph.value <= 6.0)
  {
    match ph
    case Some(v) => if v != 0.0 && 5.0 <= v <= 6.0 then 1.2 else 1.0
    case None => 1.0
  }

  // ---------------------------------------------------------------------------
  // Client engagement

  function Sum(xs: seq<real>): real {
    if xs == [] then 0.0 else xs[0] + Sum(xs[1..])
  }

  function Mean(xs: seq<real>): real
    requires |xs| > 0
  {
    Sum(xs) / (|xs| as real)
  }

  function AsReals(counts: seq<int>): (r: seq<real>)
    ensures |r| == |counts|
    ensures forall i :: 0 <= i < |counts| ==> r[i] == counts[i] as real
  {
    if counts == [] then [] else [counts[0] as real] + AsReals(counts[1..])
  }

  /** Python's `avg_order_count or 1`. */
  function Divisor(avg: real): (k: real)
    ensures k != 0.0
  {
    if avg == 0.0 then 1.0 else avg
  }

  /** client_adj[cid]: 1 + 0.05 * (count - avg) / (avg or 1). */
  function ClientAdjustment(count: real, avg: real): real {
    1.0 + 0.05 * (count - avg) / Divisor(avg)
  }

  /** client_adj: one value per client, in the order of the clients. */
  function ClientAdjustments(counts: seq<real>, avg: real): (r: seq<real>)
    ensures |r| == |counts|
    ensures forall i :: 0 <= i < |counts| ==> r[i] == ClientAdjustment(counts[i], avg)
  {
    if counts == [] then [] else [ClientAdjustment(counts[0], avg)] + ClientAdjustments(counts[1..], avg)
  }

  /** client_activity_adj, from the order count of every client active in the window. */
  function EngagementFactor(orderCounts: seq<int>): real {
    if orderCounts == [] then 1.0
    else
      var counts := AsReals(orderCounts);
      Mean(ClientAdjustments(counts, Mean(counts)))
  }

  /** The sum of the deviations count - avg. */
  function SumOfDeviations(counts: seq<real>, avg: real): real {
    if counts == [] then 0.0 else (counts[0] - avg) + SumOfDeviations(counts[1..], avg)
  }

  lemma AdjustmentStep(q: real, a: real, b: real, n: real)
    ensures (1.0 + q * a) + ((n - 1.0) + q * b) == n + q * (a + b)
  {
  }

  lemma DeviationStep(c: real, t: real, n: real, avg: real)
    ensures (c - avg) + (t - (n - 1.0) * avg) == (c + t) - n * avg
  {
  }

  lemma ClientAdjustmentLinear(count: real, avg: real)
    ensures ClientAdjustment(count, avg) == 1.0 + (0.05 / Divisor(avg)) * (count - avg)
  {
  }

  lemma {:induction false} SumOfAdjustments(counts: seq<real>, avg: real)
    ensures Sum(ClientAdjustments(counts, avg)) == (|counts| as real) + (0.05 / Divisor(avg)) * SumOfDeviations(counts, avg)
  {
    if counts != [] {
      var tail := counts[1..];
      SumOfAdjustments(tail, avg);
      assert ClientAdjustments(counts, avg)[1..] == ClientAdjustments(tail, avg);
      ClientAdjustmentLinear(counts[0], avg);
      AdjustmentStep(0.05 / Divisor(avg), counts[0] - avg, SumOfDeviations(tail, avg), |counts| as real);
    }
  }

  lemma {:induction false} DeviationsCancel(counts: seq<real>, avg: real)
    ensures SumOfDeviations(counts, avg) == Sum(counts) - (|counts| as real) * avg
  {
    if counts != [] {
      DeviationsCancel(counts[1..], avg);
      DeviationStep(counts[0], Sum(counts[1..]), |counts| as real, avg);
    }
  }

  lemma MeanTimesCount(total: real, n: real)
    requires n > 0.0
    ensures total - n * (total / n) == 0.0
  {
  }

  lemma ScaleZero(q: real, n: real)
    requires n > 0.0
    ensures (n + q * 0.0) / n == 1.0
  {
  }

  /** The deviations from the average cancel: the engagement factor is always exactly 1. */
  lemma EngagementFactorIsOne(orderCounts: seq<int>)
    ensures EngagementFactor(orderCounts) == 1.0
  {
    if orderCounts != [] {
      var counts := AsReals(orderCounts);
      var n := |counts| as real;
      var avg := Mean(counts);
      var adj := ClientAdjustments(counts, avg);
      var q := 0.05 / Divisor(avg);
      assert avg == Sum(counts) / n;
      SumOfAdjustments(counts, avg);
      DeviationsCancel(counts, avg);
      MeanTimesCount(Sum(counts), n);
      assert SumOfDeviations(counts, avg) == 0.0;
      assert Sum(adj) == n + q * 0.0;
      ScaleZero(q, n);
      assert EngagementFactor(orderCounts) == Sum(adj) / n;
    }
  }

  // ---------------------------------------------------------------------------
  // The chain

  /** The five factors for product `pid` on day `d`, in the order the source multiplies them. */
  function Factors(pid: ProductId, info: ProductInfo, d: Date, acts: seq<MarketingActivity>, engagement: real): (fs: seq<real>)
    ensures |fs| == 5
  {
    [SeasonalFactor(d), MarketingFactor(acts, pid, d), ShelfLifeFactor(info.shelfLife, d), PhFactor(info.ph), engagement]
  }

  function FactorProduct(fs: seq<real>): real {
    if fs == [] then 1.0 else fs[0] * FactorProduct(fs[1..])
  }

  lemma {:induction false} FactorProductPositive(fs: seq<real>)
    requires forall i :: 0 <= i < |fs| ==> fs[i] > 0.0
    ensures FactorProduct(fs) > 0.0
  {
    if fs != [] {
      FactorProductPositive(fs[1..]);
    }
  }

  /** Changing one neutral factor to k multiplies the whole product by k: the
      rules combine by multiplication. */
  lemma {:induction false} FactorProductUpdate(fs: seq<real>, i: nat, k: real)
    requires i < |fs| && fs[i] == 1.0
    ensures FactorProduct(fs[i := k]) == k * FactorProduct(fs)
  {
    if i == 0 {
      assert fs[i := k][1..] == fs[1..];
    } else {
      FactorProductUpdate(fs[1..], i - 1, k);
      assert fs[i := k][1..] == fs[1..][i - 1 := k];
    }
  }

  /** product_forecast: the raw value times every factor, never below zero. */
  function AdjustedForecast(raw: real, fs: seq<real>): (r: real)
    ensures r >= 0.0
    ensures raw >= 0.0 && FactorProduct(fs) >= 0.0 ==> r == raw * FactorProduct(fs)
  {
    if raw * FactorProduct(fs) > 0.0 then raw * FactorProduct(fs) else 0.0
  }

  /** plan_factor: 1.05, or 1.10 while ANY activity runs; the product link is not checked. */
  function PlanFactor(acts: seq<MarketingActivity>, d: Date): (f: real)
    ensures f == 1.10 <==> AnyActive(acts, d)
    ensures f == 1.05 <==> !AnyActive(acts, d)
  {
    1.05 + (if ScanActive(acts, d) then 0.05 else 0.0)
  }

  /** The planned value kept in forecast_data: forecast * plan_factor, without a clamp. */
  function PlanValue(forecast: real, acts: seq<MarketingActivity>, d: Date): (p: real)
    ensures forecast >= 0.0 ==> p >= forecast
  {
    forecast * PlanFactor(acts, d)
  }

  /** The factors are all positive, so for a non-negative raw value the clamp does nothing
      and the adjusted forecast is exactly raw times the product of the five factors. */
  lemma AdjustedIsProduct(raw: real, pid: ProductId, info: ProductInfo, d: Date, acts: seq<MarketingActivity>, engagement: real)
    requires engagement > 0.0
    ensures var fs := Factors(pid, info, d, acts, engagement);
            FactorProduct(fs) > 0.0
            && (raw >= 0.0 ==> AdjustedForecast(raw, fs) == raw * FactorProduct(fs))
            && (raw <= 0.0 ==> AdjustedForecast(raw, fs) == 0.0)
  {
    var fs := Factors(pid, info, d, acts, engagement);
    FactorProductPositive(fs);
  }

  /** Toggling one rule scales the adjusted forecast by exactly that rule's multiplier. */
  lemma ToggleOneFactor(raw: real, fs: seq<real>, i: nat, k: real)
    requires raw >= 0.0 && k > 0.0
    requires i < |fs| && fs[i] == 1.0
    requires forall j :: 0 <= j < |fs| ==> fs[j] > 0.0
    ensures AdjustedForecast(raw, fs[i := k]) == k * AdjustedForecast(raw, fs)
  {
    FactorProductUpdate(fs, i, k);
    FactorProductPositive(fs);
  }

  /** The plan in forecast_data (line 291) equals the clamped plan of line 285. */
  lemma PlanClampIsNeutral(forecast: real, acts: seq<MarketingActivity>, d: Date)
    requires forecast >= 0.0
    ensures PlanValue(forecast, acts, d) >= 0.0
    ensures PlanValue(forecast, acts, d) == forecast * 1.10 || PlanValue(forecast, acts, d) == forecast * 1.05
  {
  }

  /** Product-linked promotion implies the plan markup, but not conversely. */
  lemma PromotionImpliesPlanBoost(acts: seq<MarketingActivity>, pid: ProductId, d: Date)
    requires MarketingFactor(acts, pid, d) == 1.1
    ensures PlanFactor(acts, d) == 1.10
  {
  }

  lemma PlanBoostWithoutLink(d: Date, pid: ProductId)
    ensures var acts := [MarketingActivity(d, d, [])];
            MarketingFactor(acts, pid, d) == 1.0 && PlanFactor(acts, d) == 1.10
  {
    var acts := [MarketingActivity(d, d, [])];
    assert ActiveOn(acts[0], d);
  }

  /** The query prefilter (start <= last forecast day, end >= first forecast day)
      drops only activities that are inactive on every forecast day. */
  function QueryActivities(all: seq<MarketingActivity>, first: Date, last: Date): (r: seq<MarketingActivity>)
    ensures forall i :: 0 <= i < |r| ==> Le(r[i].startDate, last) && Le(first, r[i].endDate)
    ensures forall a :: a in r ==> a in all
  {
    if all == [] then []
    else
      var rest := QueryActivities(all[1..], first, last);
      if Le(all[0].startDate, last) && Le(first, all[0].endDate) then [all[0]] + rest else rest
  }

  lemma {:induction false} PrefilterKeepsActive(all: seq<MarketingActivity>, first: Date, last: Date, d: Date, a: MarketingActivity)
    requires Le(first, d) && Le(d, last)
    requires a in all && ActiveOn(a, d)
    ensures a in QueryActivities(all, first, last)
  {
    if all[0] != a {
      PrefilterKeepsActive(all[1..], first, last, d, a);
    }
  }

  /** Within the forecast horizon, both marketing rules give the same answer with or
      without the prefilter. */
  lemma PrefilterPreservesFactors(all: seq<MarketingActivity>, first: Date, last: Date, d: Date, pid: ProductId)
    requires Le(first, d) && Le(d, last)
    ensures MarketingFactor(QueryActivities(all, first, last), pid, d) == MarketingFactor(all, pid, d)
    ensures PlanFactor(QueryActivities(all, first, last), d) == PlanFactor(all, d)
  {
    var r := QueryActivities(all, first, last);
    if PromotesProduct(all, pid, d) {
      var i :| 0 <= i < |all| && ActiveOn(all[i], d) && pid in all[i].productIds;
      PrefilterKeepsActive(all, first, last, d, all[i]);
      var j :| 0 <= j < |r| && r[j] == all[i];
    }
    if PromotesProduct(r, pid, d) {
      var j :| 0 <= j < |r| && ActiveOn(r[j], d) && pid in r[j].productIds;
      assert r[j] in r;
    }
    if AnyActive(all, d) {
      var i :| 0 <= i < |all| && ActiveOn(all[i], d);
      PrefilterKeepsActive(all, first, last, d, all[i]);
      var j :| 0 <= j < |r| && r[j] == all[i];
    }
    if AnyActive(r, d) {
      var j :| 0 <= j < |r| && ActiveOn(r[j], d);
      assert r[j] in r;
    }
  }

  /** The worked example: raw 1000 in April, promoted, no expiry, pH 5.5, engagement 1.0. */
  lemma AprilPromotionExample(pid: ProductId)
    ensures var d: Date := YMD(2025, 4, 15);
            var acts := [MarketingActivity(YMD(2025, 4, 1), YMD(2025, 4, 30), [pid])];
            var info := ProductInfo("cream", ShelfDays(365), Some(5.5));
            var fc := AdjustedForecast(1000.0, Factors(pid, info, d, acts, 1.0));
            fc == 1452.0 && PlanValue(fc, acts, d) == 1597.2
  {
    var d: Date := YMD(2025, 4, 15);
    var acts := [MarketingActivity(YMD(2025, 4, 1), YMD(2025, 4, 30), [pid])];
    assert ActiveOn(acts[0], d) && pid in acts[0].productIds;
    var info := ProductInfo("cream", ShelfDays(365), Some(5.5));
    var fs := Factors(pid, info, d, acts, 1.0);
    assert fs == [1.1, 1.1, 1.0, 1.2, 1.0];
    assert FactorProduct(fs[4..]) == 1.0;
    assert FactorProduct(fs[3..]) == 1.2;
    assert FactorProduct(fs[2..]) == 1.2;
    assert FactorProduct(fs[1..]) == 1.32;
  }
}
