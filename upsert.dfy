/** Reconciling forecast rows with the stored sales_plan table, keyed by
    (plan_date, product_id) (forecast_w.py, save_forecast_and_plan). */
module PlanUpsert {
  import opened Dates
  import opened Adjustment

  /** One entry of forecast_data. */
  datatype ForecastRow = ForecastRow(date: Date, productId: ProductId, productName: string, forecast: real, plan: real)

  /** The natural key of a sales_plan row. */
  type PlanKey = (Date, ProductId)

  /** The stored values of a sales_plan row: planned_quantity and forecast_quantity. */
  datatype PlanEntry = PlanEntry(planned: real, forecast: real)

  /** The sales_plan table as a map from its natural key. */
  type PlanStore = map<PlanKey, PlanEntry>

  function KeyOf(r: ForecastRow): PlanKey {
    (r.date, r.productId)
  }

  /** The values written for a row, each passed through round(x, 2). */
  function EntryOf(r: ForecastRow, round2: real -> real): (e: PlanEntry)
    ensures e.planned == round2(r.plan) && e.forecast == round2(r.forecast)
  {
    PlanEntry(round2(r.plan), round2(r.forecast))
  }

  function RowKeys(rows: seq<ForecastRow>): (ks: set<PlanKey>)
    ensures forall k :: k in ks <==> exists i :: 0 <= i < |rows| && KeyOf(rows[i]) == k
  {
    if rows == [] then {}
    else
      var init := rows[..|rows| - 1];
      assert forall i :: 0 <= i < |init| ==> init[i] == rows[i];
      RowKeys(init) + {KeyOf(rows[|rows| - 1])}
  }

  /** The store after the rows have been applied in order: a hit overwrites the row,
      a miss inserts one. Later rows see the effect of earlier ones. */
  function UpsertAll(store: PlanStore, rows: seq<ForecastRow>, round2: real -> real): PlanStore {
    if rows == [] then store
    else
      var last := rows[|rows| - 1];
      UpsertAll(store, rows[..|rows| - 1], round2)[KeyOf(last) := EntryOf(last, round2)]
  }

  /** saved_count: rows whose key was not yet stored when they were processed. */
  function InsertCount(store: PlanStore, rows: seq<ForecastRow>, round2: real -> real): nat {
    if rows == [] then 0
    else
      var init := rows[..|rows| - 1];
      InsertCount(store, init, round2) + (if KeyOf(rows[|rows| - 1]) in UpsertAll(store, init, round2) then 0 else 1)
  }

  /** updated_count: rows whose key was already stored when they were processed. */
  function UpdateCount(store: PlanStore, rows: seq<ForecastRow>, round2: real -> real): nat {
    if rows == [] then 0
    else
      var init := rows[..|rows| - 1];
      UpdateCount(store, init, round2) + (if KeyOf(rows[|rows| - 1]) in UpsertAll(store, init, round2) then 1 else 0)
  }

  /** The last row of `rows` that carries key `k`. */
  function LastWithKey(rows: seq<ForecastRow>, k: PlanKey): (r: ForecastRow)
    requires k in RowKeys(rows)
    ensures KeyOf(r) == k && r in rows
  {
    var last := rows[|rows| - 1];
    if KeyOf(last) == k then last else LastWithKey(rows[..|rows| - 1], k)
  }

  /** Every processed row is counted exactly once, as an insert or as an update. */
  lemma {:induction false} CountsAddUp(store: PlanStore, rows: seq<ForecastRow>, round2: real -> real)
    ensures InsertCount(store, rows, round2) + UpdateCount(store, rows, round2) == |rows|
  {
    if rows != [] {
      CountsAddUp(store, rows[..|rows| - 1], round2);
    }
  }

  /** The stored keys afterwards are the old ones plus the keys of the rows. */
  lemma {:induction false} UpsertKeys(store: PlanStore, rows: seq<ForecastRow>, round2: real -> real)
    ensures UpsertAll(store, rows, round2).Keys == store.Keys + RowKeys(rows)
  {
    if rows != [] {
      UpsertKeys(store, rows[..|rows| - 1], round2);
    }
  }

  /** Keys that no row carries keep their stored row, untouched. */
  lemma {:induction false} UpsertLeavesOthers(store: PlanStore, rows: seq<ForecastRow>, round2: real -> real, k: PlanKey)
    requires k !in RowKeys(rows)
    ensures k in UpsertAll(store, rows, round2) <==> k in store
    ensures k in store ==> UpsertAll(store, rows, round2)[k] == store[k]
  {
    if rows != [] {
      UpsertLeavesOthers(store, rows[..|rows| - 1], round2, k);
    }
  }

  /** A key carried by some row holds the rounded values of the last such row, whatever
      was stored before. */
  lemma {:induction false} UpsertTakesLatest(store: PlanStore, rows: seq<ForecastRow>, round2: real -> real, k: PlanKey)
    requires k in RowKeys(rows)
    ensures k in UpsertAll(store, rows, round2)
    ensures UpsertAll(store, rows, round2)[k] == EntryOf(LastWithKey(rows, k), round2)
  {
    var last := rows[|rows| - 1];
    if KeyOf(last) != k {
      UpsertTakesLatest(store, rows[..|rows| - 1], round2, k);
    }
  }

  /** Each insert adds exactly one stored row. */
  lemma {:induction false} InsertsGrowStore(store: PlanStore, rows: seq<ForecastRow>, round2: real -> real)
    ensures |UpsertAll(store, rows, round2)| == |store| + InsertCount(store, rows, round2)
  {
    if rows != [] {
      var init := rows[..|rows| - 1];
      InsertsGrowStore(store, init, round2);
      var before := UpsertAll(store, init, round2);
      var k := KeyOf(rows[|rows| - 1]);
      if k in before {
        assert before[k := EntryOf(rows[|rows| - 1], round2)].Keys == before.Keys;
      } else {
        assert before[k := EntryOf(rows[|rows| - 1], round2)].Keys == before.Keys + {k};
      }
    }
  }

  /** The result depends on the old store only through the keys the rows do not carry. */
  lemma UpsertIgnoresReplacedRows(s1: PlanStore, s2: PlanStore, rows: seq<ForecastRow>, round2: real -> real)
    requires forall k :: k !in RowKeys(rows) ==> (k in s1 <==> k in s2) && (k in s1 ==> s1[k] == s2[k])
    ensures UpsertAll(s1, rows, round2) == UpsertAll(s2, rows, round2)
  {
    var a, b := UpsertAll(s1, rows, round2), UpsertAll(s2, rows, round2);
    UpsertKeys(s1, rows, round2);
    UpsertKeys(s2, rows, round2);
    forall k | k in a
      ensures k in b && a[k] == b[k]
    {
      if k in RowKeys(rows) {
        UpsertTakesLatest(s1, rows, round2, k);
        UpsertTakesLatest(s2, rows, round2, k);
      } else {
        UpsertLeavesOthers(s1, rows, round2, k);
        UpsertLeavesOthers(s2, rows, round2, k);
      }
    }
  }

  lemma {:induction false} NoInsertsWhenAllStored(store: PlanStore, rows: seq<ForecastRow>, round2: real -> real)
    requires RowKeys(rows) <= store.Keys
    ensures InsertCount(store, rows, round2) == 0
    ensures UpdateCount(store, rows, round2) == |rows|
  {
    if rows != [] {
      var init := rows[..|rows| - 1];
      assert RowKeys(init) <= RowKeys(rows);
      NoInsertsWhenAllStored(store, init, round2);
      UpsertKeys(store, init, round2);
    }
  }

  /** Saving the same rows a second time inserts nothing, updates every row and leaves
      the stored values as the first save made them. */
  lemma UpsertIdempotent(store: PlanStore, rows: seq<ForecastRow>, round2: real -> real)
    ensures var once := UpsertAll(store, rows, round2);
            && UpsertAll(once, rows, round2) == once
            && InsertCount(once, rows, round2) == 0
            && UpdateCount(once, rows, round2) == |rows|
  {
    var once := UpsertAll(store, rows, round2);
    forall k | k !in RowKeys(rows)
      ensures (k in once <==> k in store) && (k in once ==> once[k] == store[k])
    {
      UpsertLeavesOthers(store, rows, round2, k);
    }
    UpsertIgnoresReplacedRows(once, store, rows, round2);
    UpsertKeys(store, rows, round2);
    NoInsertsWhenAllStored(once, rows, round2);
  }

  /** With distinct keys, the last row's key is carried by no earlier row. */
  lemma LastKeyIsNew(rows: seq<ForecastRow>)
    requires rows != []
    requires forall i, j :: 0 <= i < j < |rows| ==> KeyOf(rows[i]) != KeyOf(rows[j])
    ensures KeyOf(rows[|rows| - 1]) !in RowKeys(rows[..|rows| - 1])
  {
    var init := rows[..|rows| - 1];
    assert forall i :: 0 <= i < |init| ==> KeyOf(init[i]) != KeyOf(rows[|rows| - 1]) by {
      forall i | 0 <= i < |init|
        ensures KeyOf(init[i]) != KeyOf(rows[|rows| - 1])
      {
        assert init[i] == rows[i];
      }
    }
  }

  /** Adding a fresh key to a set grows either its part outside `stored` or its part
      inside it by one. */
  lemma SplitByStored(before: set<PlanKey>, stored: set<PlanKey>, k: PlanKey)
    requires k !in before
    ensures |(before + {k}) - stored| == |before - stored| + (if k in stored then 0 else 1)
    ensures |(before + {k}) * stored| == |before * stored| + (if k in stored then 1 else 0)
  {
    if k in stored {
      assert (before + {k}) - stored == before - stored;
      assert (before + {k}) * stored == (before * stored) + {k};
    } else {
      assert (before + {k}) - stored == (before - stored) + {k};
      assert (before + {k}) * stored == before * stored;
    }
  }

  /** When the rows carry distinct keys, the inserts are exactly the keys that were not
      stored and the updates exactly those that were. */
  lemma {:induction false} CountsForDistinctKeys(store: PlanStore, rows: seq<ForecastRow>, round2: real -> real)
    requires forall i, j :: 0 <= i < j < |rows| ==> KeyOf(rows[i]) != KeyOf(rows[j])
    ensures InsertCount(store, rows, round2) == |RowKeys(rows) - store.Keys|
    ensures UpdateCount(store, rows, round2) == |RowKeys(rows) * store.Keys|
  {
    if rows != [] {
      var init := rows[..|rows| - 1];
      var k := KeyOf(rows[|rows| - 1]);
      assert forall i :: 0 <= i < |init| ==> init[i] == rows[i];
      CountsForDistinctKeys(store, init, round2);
      LastKeyIsNew(rows);
      UpsertLeavesOthers(store, init, round2, k);
      SplitByStored(RowKeys(init), store.Keys, k);
    }
  }

  /** The scenario of a first save and a re-save with a changed forecast. */
  lemma InsertThenUpdateExample(p: ProductId, round2: real -> real)
    requires forall x :: round2(x) == x
    ensures var d: Date := YMD(2025, 1, 1);
            var first := [ForecastRow(d, p, "P1", 500.0, 525.0)];
            var second := [ForecastRow(d, p, "P1", 510.0, 525.0)];
            var s1 := UpsertAll(map[], first, round2);
            && InsertCount(map[], first, round2) == 1 && UpdateCount(map[], first, round2) == 0
            && InsertCount(s1, second, round2) == 0 && UpdateCount(s1, second, round2) == 1
            && UpsertAll(s1, second, round2)[(d, p)].forecast == 510.0
  {
    var d: Date := YMD(2025, 1, 1);
    var first := [ForecastRow(d, p, "P1", 500.0, 525.0)];
    var second := [ForecastRow(d, p, "P1", 510.0, 525.0)];
    assert first[..0] == [] && second[..0] == [];
  }
}
