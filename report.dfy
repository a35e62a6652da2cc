/** The retrospective sales report of the analytics widget (analytics_w.py, build_report):
    sales per day next to the stored forecast and plan of that day, the completion
    percentage, the order lines in detail and the series of the chart. */
module Report {
  import opened Dates

  /** One row of the sales query: order date, product and client names, a quantity and
      SUM(quantity * price) of the group. */
  datatype SaleLine = SaleLine(orderDate: Date, productName: string, clientName: string, quantity: int, lineTotal: real)

  /** One row of the plan query: a plan date with the sums of forecast_quantity and
      planned_quantity. */
  datatype PlanTotal = PlanTotal(planDate: Date, forecastSum: real, planSum: real)

  /** The completion column: the percentage (sales / plan) * 100, kept as its two
      operands (see Percentage), or the "-" marker. */
  datatype Completion = Share(sales: real, plan: real) | Dash

  datatype SummaryRow = SummaryRow(date: Date, sales: real, forecast: real, plan: real, completion: Completion)
  datatype DetailRow = DetailRow(date: Date, productName: string, clientName: string, quantity: int, lineTotal: real)
  datatype ChartPoint = ChartPoint(date: Date, sales: real, forecast: real, plan: real)

  function SaleDates(results: seq<SaleLine>): set<Date> {
    set i | 0 <= i < |results| :: results[i].orderDate
  }

  function PlanDates(plans: seq<PlanTotal>): set<Date> {
    set k | 0 <= k < |plans| :: plans[k].planDate
  }

  /** The dates that get a summary row. */
  function ReportDates(results: seq<SaleLine>, plans: seq<PlanTotal>): set<Date> {
    SaleDates(results) + PlanDates(plans)
  }

  /** forecast_by_date: the dictionary comprehension over the plan rows. */
  function ForecastByDate(plans: seq<PlanTotal>): (m: map<Date, real>)
    ensures m.Keys == PlanDates(plans)
  {
    if plans == [] then map[]
    else
      var init := plans[..|plans| - 1];
      var last := plans[|plans| - 1];
      assert PlanDates(plans) == PlanDates(init) + {last.planDate} by {
        assert forall k :: 0 <= k < |init| ==> init[k] == plans[k];
      }
      ForecastByDate(init)[last.planDate := last.forecastSum]
  }

  /** plan_by_date: the dictionary comprehension over the plan rows. */
  function PlanByDate(plans: seq<PlanTotal>): (m: map<Date, real>)
    ensures m.Keys == PlanDates(plans)
  {
    if plans == [] then map[]
    else
      var init := plans[..|plans| - 1];
      var last := plans[|plans| - 1];
      assert PlanDates(plans) == PlanDates(init) + {last.planDate} by {
        assert forall k :: 0 <= k < |init| ==> init[k] == plans[k];
      }
      PlanByDate(init)[last.planDate := last.planSum]
  }

  /** The plan query groups by date; the value kept for a date is that of its last row. */
  lemma {:induction false} ByDateTakesLast(plans: seq<PlanTotal>, k: int)
    requires 0 <= k < |plans|
    requires forall j :: k < j < |plans| ==> plans[j].planDate != plans[k].planDate
    ensures ForecastByDate(plans)[plans[k].planDate] == plans[k].forecastSum
    ensures PlanByDate(plans)[plans[k].planDate] == plans[k].planSum
  {
    var init := plans[..|plans| - 1];
    if k < |plans| - 1 {
      assert forall j :: k < j < |init| ==> init[j] == plans[j];
      ByDateTakesLast(init, k);
    }
  }

  /** `m.get(d, 0)`. */
  function Get(m: map<Date, real>, d: Date): (v: real)
    ensures d !in m ==> v == 0.0
    ensures d in m ==> v == m[d]
  {
    if d in m then m[d] else 0.0
  }

  /** The line totals of the rows dated `d`, added in row order. */
  function SalesTotal(results: seq<SaleLine>, d: Date): real {
    if results == [] then 0.0
    else
      var last := results[|results| - 1];
      SalesTotal(results[..|results| - 1], d) + (if last.orderDate == d then last.lineTotal else 0.0)
  }

  /** The value the completion column displays for a share. */
  function Percentage(c: Completion): real
    requires c.Share? && c.plan != 0.0
  {
    c.sales / c.plan * 100.0
  }

  /** (sales / plan) * 100 when the plan is positive, "-" otherwise. */
  function CompletionOf(sales: real, plan: real): (c: Completion)
    ensures c.Dash? <==> plan <= 0.0
    ensures c.Share? ==> c.sales == sales && c.plan == plan
  {
    if plan > 0.0 then Share(sales, plan) else Dash
  }

  /** The percentage is the share of the plan the sales reach: it times the plan is one
      hundred times the sales, so it is 100 exactly when the plan is met. */
  lemma CompletionMeans(sales: real, plan: real)
    requires plan > 0.0
    ensures Percentage(CompletionOf(sales, plan)) * plan == 100.0 * sales
    ensures Percentage(CompletionOf(sales, plan)) == 100.0 <==> sales == plan
    ensures Percentage(CompletionOf(sales, plan)) >= 100.0 <==> sales >= plan
  {
    QuotientTimes(sales, plan);
  }

  lemma QuotientTimes(s: real, p: real)
    requires p > 0.0
    ensures (s / p * 100.0) * p == 100.0 * s
  {
    assert (s / p) * p == s;
  }

  /** A summary row for day `d` with the given sales, the day's forecast and plan (0 when
      the day has none) and the completion. */
  function SummaryOf(sales: real, d: Date, forecastByDate: map<Date, real>, planByDate: map<Date, real>): (r: SummaryRow)
    ensures r.date == d && r.sales == sales
  {
    var plan := Get(planByDate, d);
    SummaryRow(d, sales, Get(forecastByDate, d), plan, CompletionOf(sales, plan))
  }

  /** The summary row the report shows for day `d`. */
  function SummaryFor(results: seq<SaleLine>, plans: seq<PlanTotal>, d: Date): (r: SummaryRow)
    ensures r.date == d
  {
    SummaryOf(SalesTotal(results, d), d, ForecastByDate(plans), PlanByDate(plans))
  }

  function DetailOf(line: SaleLine): DetailRow {
    DetailRow(line.orderDate, line.productName, line.clientName, line.quantity, line.lineTotal)
  }

  // ---------------------------------------------------------------------------
  // Sales per day

  lemma {:induction false} SalesTotalAbsent(results: seq<SaleLine>, d: Date)
    requires d !in SaleDates(results)
    ensures SalesTotal(results, d) == 0.0
  {
    if results != [] {
      var init := results[..|results| - 1];
      assert SaleDates(init) <= SaleDates(results) by {
        forall x | x in SaleDates(init)
          ensures x in SaleDates(results)
        {
          var i :| 0 <= i < |init| && init[i].orderDate == x;
          assert results[i] == init[i];
        }
      }
      SalesTotalAbsent(init, d);
    }
  }

  lemma SalesTotalStep(before: seq<SaleLine>, line: SaleLine, d: Date)
    ensures SalesTotal(before + [line], d) == SalesTotal(before, d) + (if line.orderDate == d then line.lineTotal else 0.0)
  {
    assert (before + [line])[..|before|] == before;
  }

  /** The total of a day over two batches of rows is the sum of the two totals: the
      report does not depend on where the result rows are split. */
  lemma {:induction false} SalesTotalAppend(a: seq<SaleLine>, b: seq<SaleLine>, d: Date)
    ensures SalesTotal(a + b, d) == SalesTotal(a, d) + SalesTotal(b, d)
  {
    if b != [] {
      assert (a + b)[..|a + b| - 1] == a + b[..|b| - 1];
      SalesTotalAppend(a, b[..|b| - 1], d);
    } else {
      assert a + b == a;
    }
  }

  /** Rows never add up to a negative total when none of them is negative. */
  lemma {:induction false} SalesTotalNonNegative(results: seq<SaleLine>, d: Date)
    requires forall i :: 0 <= i < |results| ==> results[i].lineTotal >= 0.0
    ensures SalesTotal(results, d) >= 0.0
  {
    if results != [] {
      SalesTotalNonNegative(results[..|results| - 1], d);
    }
  }

  /** A day with a plan and no sales shows sales 0, its own forecast and plan, and 0%
      (or "-" when the plan is not positive). */
  lemma PlanOnlyRow(results: seq<SaleLine>, plans: seq<PlanTotal>, d: Date)
    requires d in PlanDates(plans) && d !in SaleDates(results)
    ensures var r := SummaryFor(results, plans, d);
            && r.sales == 0.0
            && r.forecast == ForecastByDate(plans)[d]
            && r.plan == PlanByDate(plans)[d]
            && (r.completion.Dash? <==> r.plan <= 0.0)
            && (r.completion.Share? ==> Percentage(r.completion) == 0.0)
  {
    SalesTotalAbsent(results, d);
  }

  /** A day with sales and no plan shows forecast 0, plan 0 and "-". */
  lemma SalesOnlyRow(results: seq<SaleLine>, plans: seq<PlanTotal>, d: Date)
    requires d !in PlanDates(plans)
    ensures var r := SummaryFor(results, plans, d);
            r.forecast == 0.0 && r.plan == 0.0 && r.completion == Dash
  {
  }

  // ---------------------------------------------------------------------------
  // sorted(…, key=date)

  predicate SortedBy<T>(s: seq<T>, key: T -> Date) {
    forall i, j :: 0 <= i < j < |s| ==> Le(key(s[i]), key(s[j]))
  }

  /** Insert `x` before the first element whose key is not smaller. */
  function Insert<T>(x: T, s: seq<T>, key: T -> Date): (r: seq<T>)
    ensures multiset(r) == multiset(s) + multiset{x}
    ensures |r| == |s| + 1
  {
    if s == [] then [x]
    else if Le(key(x), key(s[0])) then [x] + s
    else
      assert s == [s[0]] + s[1..];
      [s[0]] + Insert(x, s[1..], key)
  }

  /** A sorted sequence stays sorted with an element in front that is at most each of
      its elements. */
  lemma ConsSorted<T>(h: T, t: seq<T>, key: T -> Date)
    requires SortedBy(t, key)
    requires forall j :: 0 <= j < |t| ==> Le(key(h), key(t[j]))
    ensures SortedBy([h] + t, key)
  {
    var r := [h] + t;
    forall i, j | 0 <= i < j < |r|
      ensures Le(key(r[i]), key(r[j]))
    {
      assert r[j] == t[j - 1];
      if i > 0 {
        assert r[i] == t[i - 1];
      }
    }
  }

  lemma InsertMembers<T>(x: T, s: seq<T>, key: T -> Date, y: T)
    ensures y in Insert(x, s, key) <==> y == x || y in s
  {
    var r := Insert(x, s, key);
    assert y in r <==> y in multiset(r);
    assert y in s <==> y in multiset(s);
  }

  lemma {:induction false} InsertSorted<T>(x: T, s: seq<T>, key: T -> Date)
    requires SortedBy(s, key)
    ensures SortedBy(Insert(x, s, key), key)
  {
    if s == [] {
    } else if Le(key(x), key(s[0])) {
      forall j | 0 <= j < |s|
        ensures Le(key(x), key(s[j]))
      {
        if j > 0 {
          LeTransitive(key(x), key(s[0]), key(s[j]));
        }
      }
      ConsSorted(x, s, key);
    } else {
      var rest := s[1..];
      assert SortedBy(rest, key) by {
        forall i, j | 0 <= i < j < |rest|
          ensures Le(key(rest[i]), key(rest[j]))
        {
          assert rest[i] == s[i + 1] && rest[j] == s[j + 1];
        }
      }
      InsertSorted(x, rest, key);
      var tail := Insert(x, rest, key);
      forall j | 0 <= j < |tail|
        ensures Le(key(s[0]), key(tail[j]))
      {
        InsertMembers(x, rest, key, tail[j]);
        if tail[j] == x {
          LeTotal(key(x), key(s[0]));
        } else {
          var k :| 0 <= k < |rest| && rest[k] == tail[j];
          assert s[k + 1] == tail[j];
        }
      }
      ConsSorted(s[0], tail, key);
    }
  }

  /** Python's sorted with a date key, as an insertion sort. */
  function SortBy<T>(s: seq<T>, key: T -> Date): (r: seq<T>)
    ensures multiset(r) == multiset(s)
    ensures |r| == |s|
  {
    if s == [] then []
    else
      assert s == [s[0]] + s[1..];
      Insert(s[0], SortBy(s[1..], key), key)
  }

  lemma {:induction false} SortBySorted<T>(s: seq<T>, key: T -> Date)
    ensures SortedBy(SortBy(s, key), key)
  {
    if s != [] {
      SortBySorted(s[1..], key);
      InsertSorted(s[0], SortBy(s[1..], key), key);
    }
  }

  predicate NoDup<T(==)>(s: seq<T>) {
    forall i, j :: 0 <= i < j < |s| ==> s[i] != s[j]
  }

  lemma {:induction false} NoDupCount<T>(s: seq<T>, x: T)
    requires NoDup(s)
    ensures multiset(s)[x] <= 1
  {
    if s != [] {
      assert s == [s[0]] + s[1..];
      assert NoDup(s[1..]) by {
        forall i, j | 0 <= i < j < |s[1..]|
          ensures s[1..][i] != s[1..][j]
        {
          assert s[1..][i] == s[i + 1] && s[1..][j] == s[j + 1];
        }
      }
      NoDupCount(s[1..], x);
      if s[0] == x {
        forall k | 0 <= k < |s[1..]|
          ensures s[1..][k] != x
        {
          assert s[1..][k] == s[k + 1];
        }
      }
    }
  }

  /** A rearrangement of a sequence without repeats has no repeats. */
  lemma NoDupPerm<T>(a: seq<T>, b: seq<T>)
    requires multiset(a) == multiset(b) && NoDup(b)
    ensures NoDup(a)
  {
    forall i, j | 0 <= i < j < |a|
      ensures a[i] != a[j]
    {
      if a[i] == a[j] {
        var x := a[i];
        assert a == a[..j] + [a[j]] + a[j + 1..];
        assert x in a[..j];
        assert multiset(a)[x] >= 2 by {
          assert multiset(a) == multiset(a[..j]) + multiset{x} + multiset(a[j + 1..]);
        }
        NoDupCount(b, x);
        assert false;
      }
    }
  }

  lemma FirstIsLeast(a: seq<Date>, k: int)
    requires forall i, j :: 0 <= i < j < |a| ==> Lt(a[i], a[j])
    requires 0 <= k < |a|
    ensures Le(a[0], a[k])
  {
    if k > 0 {
      assert Lt(a[0], a[k]);
    }
  }

  /** Two increasing date sequences with the same elements are the same sequence. */
  lemma {:induction false} StrictlySortedUnique(a: seq<Date>, b: seq<Date>)
    requires forall i, j :: 0 <= i < j < |a| ==> Lt(a[i], a[j])
    requires forall i, j :: 0 <= i < j < |b| ==> Lt(b[i], b[j])
    requires |a| == |b|
    requires forall d :: d in a <==> d in b
    ensures a == b
  {
    if a != [] && b != [] {
      var x, y := a[0], b[0];
      assert y in a;
      assert x in b;
      var i :| 0 <= i < |a| && a[i] == y;
      var j :| 0 <= j < |b| && b[j] == x;
      FirstIsLeast(a, i);
      FirstIsLeast(b, j);
      LeTotal(x, y);
      forall d
        ensures d in a[1..] <==> d in b[1..]
      {
        if d in a[1..] {
          var k :| 0 <= k < |a[1..]| && a[1..][k] == d;
          assert Lt(a[0], a[k + 1]);
          assert d in b;
          assert d != b[0];
          var m :| 0 <= m < |b| && b[m] == d;
          assert b[1..][m - 1] == d;
        }
        if d in b[1..] {
          var k :| 0 <= k < |b[1..]| && b[1..][k] == d;
          assert Lt(b[0], b[k + 1]);
          assert d in a;
          assert d != a[0];
          var m :| 0 <= m < |a| && a[m] == d;
          assert a[1..][m - 1] == d;
        }
      }
      StrictlySortedUnique(a[1..], b[1..]);
      assert a == [a[0]] + a[1..] && b == [b[0]] + b[1..];
    }
  }

  /** Non-decreasing keys that never repeat are increasing. */
  lemma SortedDistinctIsStrict<T>(s: seq<T>, key: T -> Date)
    requires SortedBy(s, key)
    requires forall i, j :: 0 <= i < j < |s| ==> key(s[i]) != key(s[j])
    ensures forall i, j :: 0 <= i < j < |s| ==> Lt(key(s[i]), key(s[j]))
  {
  }

  // ---------------------------------------------------------------------------
  // The report

  function RowDate(r: SummaryRow): Date {
    r.date
  }

  function SameDate(d: Date): Date {
    d
  }

  function DatesOf(rows: seq<SummaryRow>): (ds: seq<Date>)
    ensures |ds| == |rows|
    ensures forall i :: 0 <= i < |rows| ==> ds[i] == rows[i].date
  {
    seq(|rows|, i requires 0 <= i < |rows| => rows[i].date)
  }

  /** Summary rows whose dates do not repeat, sorted by date, come out in strictly
      increasing date order and are the same rows. */
  lemma SortByDateStrict(values: seq<SummaryRow>)
    requires forall a, b :: 0 <= a < b < |values| ==> values[a].date != values[b].date
    ensures var s := SortBy(values, RowDate);
            && (forall i, j :: 0 <= i < j < |s| ==> Lt(s[i].date, s[j].date))
            && (forall x :: x in s <==> x in values)
  {
    var s := SortBy(values, RowDate);
    SortBySorted(values, RowDate);
    assert NoDup(values) by {
      forall a, b | 0 <= a < b < |values|
        ensures values[a] != values[b]
      {
        assert values[a].date != values[b].date;
      }
    }
    NoDupPerm(s, values);
    forall x
      ensures x in s <==> x in values
    {
      assert x in s <==> x in multiset(s);
      assert x in values <==> x in multiset(values);
    }
    forall a, b | 0 <= a < b < |s|
      ensures s[a].date != s[b].date
    {
      assert s[a] in values && s[b] in values;
      var a', b' :| 0 <= a' < |values| && 0 <= b' < |values| && values[a'] == s[a] && values[b'] == s[b];
      assert s[a] != s[b];
    }
    SortedDistinctIsStrict(s, RowDate);
  }

  /** The chart's `sorted(set(...))` of the dates is the date column of the summary. */
  lemma ChartDatesAreSummaryDates(order: seq<Date>, summary: seq<SummaryRow>)
    requires NoDup(order) && |order| == |summary|
    requires forall i, j :: 0 <= i < j < |summary| ==> Lt(summary[i].date, summary[j].date)
    requires forall d :: d in order <==> exists a :: 0 <= a < |summary| && summary[a].date == d
    ensures SortBy(order, SameDate) == DatesOf(summary)
  {
    var chartDates := SortBy(order, SameDate);
    SortBySorted(order, SameDate);
    NoDupPerm(chartDates, order);
    SortedDistinctIsStrict(chartDates, SameDate);
    forall d
      ensures d in chartDates <==> d in DatesOf(summary)
    {
      assert d in chartDates <==> d in multiset(chartDates);
      assert d in order <==> d in multiset(order);
      if d in DatesOf(summary) {
        var a :| 0 <= a < |summary| && DatesOf(summary)[a] == d;
        assert summary[a].date == d;
      }
      if d in order {
        var a :| 0 <= a < |summary| && summary[a].date == d;
        assert DatesOf(summary)[a] == d;
      }
    }
    StrictlySortedUnique(chartDates, DatesOf(summary));
  }

  // ---------------------------------------------------------------------------
  // The pass over the sales rows (lines 167-179)

  /** What the sales loop has built so far: sales_by_date, summary_rows, the order in
      which dates first entered summary_rows, and details_rows. */
  datatype SalesState = SalesState(salesByDate: map<Date, real>, summaryRows: map<Date, SummaryRow>,
                                   order: seq<Date>, details: seq<DetailRow>)

  /** One iteration of the sales loop. */
  function SalesStep(st: SalesState, line: SaleLine, forecastByDate: map<Date, real>, planByDate: map<Date, real>): SalesState {
    var d := line.orderDate;
    var total := Get(st.salesByDate, d) + line.lineTotal;
    var plan := Get(planByDate, d);
    SalesState(st.salesByDate[d := total],
               st.summaryRows[d := SummaryRow(d, total, Get(forecastByDate, d), plan, CompletionOf(total, plan))],
               if d in st.summaryRows then st.order else st.order + [d],
               st.details + [DetailOf(line)])
  }

  /** The state after the loop has run over `results`. */
  function SalesScan(results: seq<SaleLine>, forecastByDate: map<Date, real>, planByDate: map<Date, real>): SalesState {
    if results == [] then SalesState(map[], map[], [], [])
    else SalesStep(SalesScan(results[..|results| - 1], forecastByDate, planByDate), results[|results| - 1], forecastByDate, planByDate)
  }

  lemma SaleDatesStep(before: seq<SaleLine>, line: SaleLine)
    ensures SaleDates(before + [line]) == SaleDates(before) + {line.orderDate}
  {
    var all := before + [line];
    assert forall i :: 0 <= i < |before| ==> all[i] == before[i];
    assert all[|before|] == line;
  }

  /** sales_by_date has a key for every date with sales and for no other. */
  lemma {:induction false} SalesScanKeys(results: seq<SaleLine>, forecastByDate: map<Date, real>, planByDate: map<Date, real>)
    ensures SalesScan(results, forecastByDate, planByDate).salesByDate.Keys == SaleDates(results)
  {
    if results != [] {
      var before := results[..|results| - 1];
      assert results == before + [results[|results| - 1]];
      SalesScanKeys(before, forecastByDate, planByDate);
      SaleDatesStep(before, results[|results| - 1]);
    }
  }

  /** sales_by_date holds for each of its dates the total of that date's line totals. */
  lemma {:induction false} SalesScanTotals(results: seq<SaleLine>, forecastByDate: map<Date, real>, planByDate: map<Date, real>)
    ensures var st := SalesScan(results, forecastByDate, planByDate);
            forall d :: d in st.salesByDate ==> st.salesByDate[d] == SalesTotal(results, d)
  {
    if results != [] {
      var before := results[..|results| - 1];
      var line := results[|results| - 1];
      assert results == before + [line];
      SalesScanTotals(before, forecastByDate, planByDate);
      SalesScanKeys(before, forecastByDate, planByDate);
      var st := SalesScan(before, forecastByDate, planByDate);
      if line.orderDate !in st.salesByDate {
        SalesTotalAbsent(before, line.orderDate);
      }
      var next := SalesScan(results, forecastByDate, planByDate);
      forall d | d in next.salesByDate
        ensures next.salesByDate[d] == SalesTotal(results, d)
      {
        SalesTotalStep(before, line, d);
      }
    }
  }

  /** Each date's summary row is the row of its final total: the rewrite of every row
      leaves the last one standing. */
  lemma {:induction false} SalesScanRows(results: seq<SaleLine>, forecastByDate: map<Date, real>, planByDate: map<Date, real>)
    ensures var st := SalesScan(results, forecastByDate, planByDate);
            && st.summaryRows.Keys == st.salesByDate.Keys
            && forall d :: d in st.summaryRows ==> st.summaryRows[d] == SummaryOf(st.salesByDate[d], d, forecastByDate, planByDate)
  {
    if results != [] {
      var line := results[|results| - 1];
      var st := SalesScan(results[..|results| - 1], forecastByDate, planByDate);
      SalesScanRows(results[..|results| - 1], forecastByDate, planByDate);
      var next := SalesStep(st, line, forecastByDate, planByDate);
      forall d | d in next.summaryRows
        ensures next.summaryRows[d] == SummaryOf(next.salesByDate[d], d, forecastByDate, planByDate)
      {
        if d != line.orderDate {
          assert next.summaryRows[d] == st.summaryRows[d];
        }
      }
    }
  }

  /** The first-seen order lists each summary date once. */
  lemma {:induction false} SalesScanOrder(results: seq<SaleLine>, forecastByDate: map<Date, real>, planByDate: map<Date, real>)
    ensures var st := SalesScan(results, forecastByDate, planByDate);
            && NoDup(st.order) && forall d :: d in st.order <==> d in st.summaryRows
  {
    if results != [] {
      SalesScanOrder(results[..|results| - 1], forecastByDate, planByDate);
    }
  }

  /** details_rows copies the sales rows one for one, in query order. */
  lemma {:induction false} SalesScanDetails(results: seq<SaleLine>, forecastByDate: map<Date, real>, planByDate: map<Date, real>)
    ensures var st := SalesScan(results, forecastByDate, planByDate);
            && |st.details| == |results|
            && forall k :: 0 <= k < |results| ==> st.details[k] == DetailOf(results[k])
  {
    if results != [] {
      var before := results[..|results| - 1];
      SalesScanDetails(before, forecastByDate, planByDate);
      assert forall k :: 0 <= k < |before| ==> before[k] == results[k];
    }
  }

  lemma SalesScanSnoc(results: seq<SaleLine>, i: int, forecastByDate: map<Date, real>, planByDate: map<Date, real>)
    requires 0 <= i < |results|
    ensures SalesScan(results[..i + 1], forecastByDate, planByDate)
            == SalesStep(SalesScan(results[..i], forecastByDate, planByDate), results[i], forecastByDate, planByDate)
  {
    assert results[..i + 1][..i] == results[..i];
  }

  /** Lines 167-179: one pass over the sales rows. It keeps the running total per date,
      rewrites that date's summary row each time, records the order in which dates first
      appear and copies every row into the details. */
  method SalesPass(results: seq<SaleLine>, forecastByDate: map<Date, real>, planByDate: map<Date, real>)
    returns (salesByDate: map<Date, real>, summaryRows: map<Date, SummaryRow>, order: seq<Date>, details: seq<DetailRow>)
    ensures SalesState(salesByDate, summaryRows, order, details) == SalesScan(results, forecastByDate, planByDate)
  {
    salesByDate := map[];
    summaryRows := map[];
    order := [];
    details := [];
    var i := 0;
    while i < |results|
      invariant 0 <= i <= |results|
      invariant SalesState(salesByDate, summaryRows, order, details) == SalesScan(results[..i], forecastByDate, planByDate)
    {
      var line := results[i];
      ghost var st := SalesState(salesByDate, summaryRows, order, details);
      SalesScanSnoc(results, i, forecastByDate, planByDate);
      var total := Get(salesByDate, line.orderDate) + line.lineTotal;
      salesByDate := salesByDate[line.orderDate := total];
      var forecast := Get(forecastByDate, line.orderDate);
      var plan := Get(planByDate, line.orderDate);
      var completion := CompletionOf(total, plan);
      // A key new to summary_rows goes at the end of its insertion order.
      order := if line.orderDate in summaryRows then order else order + [line.orderDate];
      summaryRows := summaryRows[line.orderDate := SummaryRow(line.orderDate, total, forecast, plan, completion)];
      details := details + [DetailOf(line)];
      assert SalesState(salesByDate, summaryRows, order, details) == SalesStep(st, line, forecastByDate, planByDate);
      i := i + 1;
    }
    assert results[..i] == results;
  }

  // ---------------------------------------------------------------------------
  // The pass over the plan dates (lines 182-189)

  /** summary_rows with the order in which its dates were added. */
  datatype Table = Table(rows: map<Date, SummaryRow>, order: seq<Date>)

  /** One iteration: a plan date without a row gets one with sales 0. */
  function PlanStep(t: Table, d: Date, forecastByDate: map<Date, real>, planByDate: map<Date, real>): Table {
    if d in t.rows then t
    else
      var planVal := Get(planByDate, d);
      Table(t.rows[d := SummaryRow(d, 0.0, Get(forecastByDate, d), planVal, CompletionOf(0.0, planVal))], t.order + [d])
  }

  function PlanScan(t: Table, plans: seq<PlanTotal>, forecastByDate: map<Date, real>, planByDate: map<Date, real>): Table {
    if plans == [] then t
    else PlanStep(PlanScan(t, plans[..|plans| - 1], forecastByDate, planByDate), plans[|plans| - 1].planDate, forecastByDate, planByDate)
  }

  /** The plan pass adds exactly the plan dates. */
  lemma {:induction false} PlanScanKeys(t: Table, plans: seq<PlanTotal>, forecastByDate: map<Date, real>, planByDate: map<Date, real>)
    ensures PlanScan(t, plans, forecastByDate, planByDate).rows.Keys == t.rows.Keys + PlanDates(plans)
  {
    if plans != [] {
      var init := plans[..|plans| - 1];
      PlanScanKeys(t, init, forecastByDate, planByDate);
      assert PlanDates(plans) == PlanDates(init) + {plans[|plans| - 1].planDate} by {
        assert forall k :: 0 <= k < |init| ==> init[k] == plans[k];
      }
    }
  }

  /** The plan pass keeps the rows already there and gives each new date the row of a
      day without sales. */
  lemma {:induction false} PlanScanRows(t: Table, plans: seq<PlanTotal>, forecastByDate: map<Date, real>, planByDate: map<Date, real>)
    ensures var r := PlanScan(t, plans, forecastByDate, planByDate);
            && (forall d :: d in t.rows ==> d in r.rows && r.rows[d] == t.rows[d])
            && (forall d :: d in r.rows && d !in t.rows ==> r.rows[d] == SummaryOf(0.0, d, forecastByDate, planByDate))
  {
    if plans != [] {
      var d := plans[|plans| - 1].planDate;
      PlanScanRows(t, plans[..|plans| - 1], forecastByDate, planByDate);
      var r0 := PlanScan(t, plans[..|plans| - 1], forecastByDate, planByDate);
      if d !in r0.rows {
        assert PlanScan(t, plans, forecastByDate, planByDate).rows == r0.rows[d := SummaryOf(0.0, d, forecastByDate, planByDate)];
      }
    }
  }

  /** The insertion order of the plan pass still lists each date of the table once. */
  lemma {:induction false} PlanScanOrder(t: Table, plans: seq<PlanTotal>, forecastByDate: map<Date, real>, planByDate: map<Date, real>)
    requires NoDup(t.order) && forall d :: d in t.order <==> d in t.rows
    ensures var r := PlanScan(t, plans, forecastByDate, planByDate);
            NoDup(r.order) && forall d :: d in r.order <==> d in r.rows
  {
    if plans != [] {
      PlanScanOrder(t, plans[..|plans| - 1], forecastByDate, planByDate);
    }
  }

  /** Lines 182-189: every plan date without sales gets a row with sales 0. */
  method PlanPass(plans: seq<PlanTotal>, rows: map<Date, SummaryRow>, firstSeen: seq<Date>,
                  forecastByDate: map<Date, real>, planByDate: map<Date, real>)
    returns (summaryRows: map<Date, SummaryRow>, order: seq<Date>)
    requires PlanDates(plans) <= forecastByDate.Keys
    ensures Table(summaryRows, order) == PlanScan(Table(rows, firstSeen), plans, forecastByDate, planByDate)
  {
    summaryRows, order := rows, firstSeen;
    var k := 0;
    while k < |plans|
      invariant 0 <= k <= |plans|
      invariant Table(summaryRows, order) == PlanScan(Table(rows, firstSeen), plans[..k], forecastByDate, planByDate)
    {
      var d := plans[k].planDate;
      assert plans[..k + 1][..k] == plans[..k];
      assert d in PlanDates(plans);
      if d !in summaryRows {
        var planVal := Get(planByDate, d);
        var completion := CompletionOf(0.0, planVal);
        summaryRows := summaryRows[d := SummaryRow(d, 0.0, forecastByDate[d], planVal, completion)];
        order := order + [d];
      }
      k := k + 1;
    }
    assert plans[..k] == plans;
  }

  // ---------------------------------------------------------------------------
  // The report

  /** The summary rows in dictionary order: `summary_rows.values()`. */
  function TableValues(t: Table): (vs: seq<SummaryRow>)
    requires forall d :: d in t.order ==> d in t.rows
    ensures |vs| == |t.order|
    ensures forall j :: 0 <= j < |t.order| ==> vs[j] == t.rows[t.order[j]]
  {
    seq(|t.order|, j requires 0 <= j < |t.order| => t.rows[t.order[j]])
  }

  /** The facts a finished summary table keeps. */
  ghost predicate TableFor(t: Table, results: seq<SaleLine>, plans: seq<PlanTotal>) {
    && t.rows.Keys == ReportDates(results, plans)
    && (forall d :: d in t.rows ==> t.rows[d] == SummaryFor(results, plans, d))
    && NoDup(t.order)
    && (forall d :: d in t.order <==> d in t.rows)
  }

  /** After both passes summary_rows has one row per report date, the row that date
      shows, and the insertion order lists each date once. */
  lemma ReportTable(results: seq<SaleLine>, plans: seq<PlanTotal>)
    ensures var forecastByDate, planByDate := ForecastByDate(plans), PlanByDate(plans);
            var st := SalesScan(results, forecastByDate, planByDate);
            TableFor(PlanScan(Table(st.summaryRows, st.order), plans, forecastByDate, planByDate), results, plans)
  {
    var forecastByDate, planByDate := ForecastByDate(plans), PlanByDate(plans);
    var st := SalesScan(results, forecastByDate, planByDate);
    SalesScanKeys(results, forecastByDate, planByDate);
    SalesScanTotals(results, forecastByDate, planByDate);
    SalesScanRows(results, forecastByDate, planByDate);
    SalesScanOrder(results, forecastByDate, planByDate);
    var t := PlanScan(Table(st.summaryRows, st.order), plans, forecastByDate, planByDate);
    PlanScanKeys(Table(st.summaryRows, st.order), plans, forecastByDate, planByDate);
    PlanScanRows(Table(st.summaryRows, st.order), plans, forecastByDate, planByDate);
    PlanScanOrder(Table(st.summaryRows, st.order), plans, forecastByDate, planByDate);
    forall d | d in t.rows
      ensures t.rows[d] == SummaryFor(results, plans, d)
    {
      if d !in st.summaryRows {
        SalesTotalAbsent(results, d);
      }
    }
  }

  /** The rows of a table whose rows carry their own dates have distinct dates. */
  lemma TableValuesDistinct(t: Table)
    requires forall d :: d in t.rows ==> t.rows[d].date == d
    requires NoDup(t.order) && forall d :: d in t.order <==> d in t.rows
    ensures var values := TableValues(t);
            forall a, b :: 0 <= a < b < |values| ==> values[a].date != values[b].date
  {
    var values := TableValues(t);
    forall a, b | 0 <= a < b < |values|
      ensures values[a].date != values[b].date
    {
      assert values[a].date == t.order[a] && values[b].date == t.order[b];
    }
  }

  /** A table whose rows are given by `rowFor` on a set of dates: sorting its rows by
      date gives each date of the set once, with its row. */
  lemma SortedRows(t: Table, dates: set<Date>, rowFor: Date -> SummaryRow)
    requires t.rows.Keys == dates
    requires forall d :: d in t.rows ==> t.rows[d] == rowFor(d) && rowFor(d).date == d
    requires NoDup(t.order) && forall d :: d in t.order <==> d in t.rows
    ensures var summary := SortBy(TableValues(t), RowDate);
            && (forall d :: d in dates ==> exists i :: 0 <= i < |summary| && summary[i].date == d)
            && (forall i :: 0 <= i < |summary| ==> summary[i].date in dates && summary[i] == rowFor(summary[i].date))
  {
    var values := TableValues(t);
    var summary := SortBy(values, RowDate);
    TableValuesDistinct(t);
    SortByDateStrict(values);
    forall d | d in dates
      ensures exists a :: 0 <= a < |summary| && summary[a].date == d
    {
      var j :| 0 <= j < |t.order| && t.order[j] == d;
      assert values[j] in values;
      var a :| 0 <= a < |summary| && summary[a] == values[j];
      assert summary[a].date == d;
    }
    forall a | 0 <= a < |summary|
      ensures summary[a].date in dates
      ensures summary[a] == rowFor(summary[a].date)
    {
      assert summary[a] in values;
      var j :| 0 <= j < |values| && values[j] == summary[a];
      assert t.order[j] in t.rows;
    }
  }

  /** Sorting the finished table's rows by date gives one row per report date, in
      strictly increasing date order, each the row its date shows. */
  lemma SortedSummary(t: Table, results: seq<SaleLine>, plans: seq<PlanTotal>)
    requires TableFor(t, results, plans)
    ensures var summary := SortBy(TableValues(t), RowDate);
            && |summary| == |t.order|
            && (forall i, j :: 0 <= i < j < |summary| ==> Lt(summary[i].date, summary[j].date))
            && (forall d :: d in ReportDates(results, plans) <==> exists i :: 0 <= i < |summary| && summary[i].date == d)
            && (forall i :: 0 <= i < |summary| ==> summary[i] == SummaryFor(results, plans, summary[i].date))
  {
    TableValuesDistinct(t);
    SortByDateStrict(TableValues(t));
    SortedRows(t, ReportDates(results, plans), (d: Date) => SummaryFor(results, plans, d));
  }

  /** Lines 313-317: the date labels and the three value lists of the chart, one point
      per date. */
  function ChartSeries(dates: seq<Date>, salesByDate: map<Date, real>, forecastByDate: map<Date, real>, planByDate: map<Date, real>)
    : (chart: seq<ChartPoint>)
    ensures |chart| == |dates|
    ensures forall j :: 0 <= j < |dates| ==>
              chart[j] == ChartPoint(dates[j], Get(salesByDate, dates[j]), Get(forecastByDate, dates[j]), Get(planByDate, dates[j]))
  {
    seq(|dates|, j requires 0 <= j < |dates| =>
      ChartPoint(dates[j], Get(salesByDate, dates[j]), Get(forecastByDate, dates[j]), Get(planByDate, dates[j])))
  }

  /** Plotted over the dates of the summary, the chart shows each day's summary values. */
  lemma ChartMatchesSummary(results: seq<SaleLine>, plans: seq<PlanTotal>, summary: seq<SummaryRow>, salesByDate: map<Date, real>)
    requires salesByDate.Keys == SaleDates(results)
    requires forall d :: d in salesByDate ==> salesByDate[d] == SalesTotal(results, d)
    requires forall i :: 0 <= i < |summary| ==> summary[i] == SummaryFor(results, plans, summary[i].date)
    ensures var chart := ChartSeries(DatesOf(summary), salesByDate, ForecastByDate(plans), PlanByDate(plans));
            forall i :: 0 <= i < |chart| ==>
              chart[i] == ChartPoint(summary[i].date, summary[i].sales, summary[i].forecast, summary[i].plan)
  {
    forall a | 0 <= a < |summary| && summary[a].date !in salesByDate
      ensures SalesTotal(results, summary[a].date) == 0.0
    {
      SalesTotalAbsent(results, summary[a].date);
    }
  }

  /** Lines 162-191, 239 and 313-317: the summary rows sorted by date, the detail rows in
      query order and the chart series. */
  method BuildReport(results: seq<SaleLine>, plans: seq<PlanTotal>)
    returns (summary: seq<SummaryRow>, details: seq<DetailRow>, chart: seq<ChartPoint>)
    ensures |details| == |results|
    ensures forall i :: 0 <= i < |results| ==> details[i] == DetailOf(results[i])
    ensures forall i, j :: 0 <= i < j < |summary| ==> Lt(summary[i].date, summary[j].date)
    ensures forall d :: d in ReportDates(results, plans) <==> exists i :: 0 <= i < |summary| && summary[i].date == d
    ensures forall i :: 0 <= i < |summary| ==> summary[i] == SummaryFor(results, plans, summary[i].date)
    ensures |chart| == |summary|
    ensures forall i :: 0 <= i < |chart| ==>
              chart[i] == ChartPoint(summary[i].date, summary[i].sales, summary[i].forecast, summary[i].plan)
  {
    var forecastByDate := ForecastByDate(plans);
    var planByDate := PlanByDate(plans);
    var salesByDate, salesRows, firstSeen;
    salesByDate, salesRows, firstSeen, details := SalesPass(results, forecastByDate, planByDate);
    SalesScanDetails(results, forecastByDate, planByDate);
    SalesScanKeys(results, forecastByDate, planByDate);
    SalesScanTotals(results, forecastByDate, planByDate);
    var summaryRows, order := PlanPass(plans, salesRows, firstSeen, forecastByDate, planByDate);
    ReportTable(results, plans);
    var t := Table(summaryRows, order);
    summary := SortBy(TableValues(t), RowDate);
    SortedSummary(t, results, plans);

    var chartDates := SortBy(order, SameDate);
    ChartDatesAreSummaryDates(order, summary);
    chart := ChartSeries(chartDates, salesByDate, forecastByDate, planByDate);
    ChartMatchesSummary(results, plans, summary, salesByDate);
  }
}
