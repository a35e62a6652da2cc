/** Client engagement from the CRM (forecast_w.py, get_client_activity and lines 246-248, 277). */
module ClientActivity {
  import opened Wrappers
  import opened Adjustment

  type ClientId = int

  /** One row of the activity query: a client, COUNT(order) and AVG(quantity * price),
      which SQL returns as NULL when no line has a value. */
  datatype ClientRow = ClientRow(id: ClientId, orderCount: int, avgCheck: Option<real>)

  /** The value stored per client: order_count and `avg_check or 0`. */
  datatype ClientStats = ClientStats(orderCount: int, avgCheck: real)

  /** One item of the client_activity dictionary, in the dictionary's order. */
  datatype ClientEntry = ClientEntry(id: ClientId, stats: ClientStats)

  function StatsOf(r: ClientRow): (s: ClientStats)
    ensures s.orderCount == r.orderCount
    ensures s.avgCheck == (if r.avgCheck.Some? then r.avgCheck.value else 0.0)
  {
    ClientStats(r.orderCount, match r.avgCheck case Some(v) => v case None => 0.0)
  }

  /** The client ids of the dictionary items. */
  function Ids(items: seq<ClientEntry>): set<ClientId> {
    if items == [] then {} else {items[0].id} + Ids(items[1..])
  }

  /** No client appears twice among the items. */
  predicate DistinctClients(items: seq<ClientEntry>) {
    items == [] || (items[0].id !in Ids(items[1..]) && DistinctClients(items[1..]))
  }

  /** The client ids of the query rows. */
  function RowIds(rows: seq<ClientRow>): set<ClientId> {
    if rows == [] then {} else RowIds(rows[..|rows| - 1]) + {rows[|rows| - 1].id}
  }

  lemma {:induction false} RowIdsMembership(rows: seq<ClientRow>, c: ClientId)
    ensures c in RowIds(rows) <==> exists k :: 0 <= k < |rows| && rows[k].id == c
  {
    if rows != [] {
      var init := rows[..|rows| - 1];
      RowIdsMembership(init, c);
      if c in RowIds(init) {
        var k :| 0 <= k < |init| && init[k].id == c;
        assert rows[k].id == c;
      } else if exists k :: 0 <= k < |rows| && rows[k].id == c {
        var k :| 0 <= k < |rows| && rows[k].id == c;
        if k < |init| {
          assert init[k].id == c;
        }
      }
    }
  }

  /** d[e.id] = e.stats on an insertion-ordered dictionary: an existing key keeps its
      place and takes the new value, a new key goes at the end. */
  function Put(items: seq<ClientEntry>, e: ClientEntry): (r: seq<ClientEntry>)
    requires DistinctClients(items)
    ensures DistinctClients(r)
    ensures Ids(r) == Ids(items) + {e.id}
    ensures |r| == |items| + (if e.id in Ids(items) then 0 else 1)
    ensures e in r
    ensures forall x :: x in items && x.id != e.id ==> x in r
    ensures e.id !in Ids(items) ==> r == items + [e]
  {
    if items == [] then [e]
    else if items[0].id == e.id then [e] + items[1..]
    else
      var tail := Put(items[1..], e);
      assert ([items[0]] + tail)[1..] == tail;
      [items[0]] + tail
  }

  /** The item a single row becomes. */
  function ItemOf(r: ClientRow): ClientEntry {
    ClientEntry(r.id, StatsOf(r))
  }

  /** The dictionary comprehension of get_client_activity over the rows of a query that
      succeeded: one item per client, the last row for a client giving its value. */
  function ActivityItems(rows: seq<ClientRow>): (items: seq<ClientEntry>)
    ensures DistinctClients(items)
    ensures |items| <= |rows|
    ensures Ids(items) == RowIds(rows)
  {
    if rows == [] then []
    else
      var last := rows[|rows| - 1];
      Put(ActivityItems(rows[..|rows| - 1]), ItemOf(last))
  }

  /** get_client_activity: the items of the dictionary, or an empty dictionary when the
      query raised (`None` here). */
  function GetClientActivity(query: Option<seq<ClientRow>>): (items: seq<ClientEntry>)
    ensures query.None? ==> items == []
  {
    match query
    case None => []
    case Some(rows) => ActivityItems(rows)
  }

  /** The query groups by client, so its rows name distinct clients; the dictionary then
      holds every row, in query order. */
  lemma {:induction false} ActivityKeepsGroupedRows(rows: seq<ClientRow>)
    requires forall i, j :: 0 <= i < j < |rows| ==> rows[i].id != rows[j].id
    ensures |ActivityItems(rows)| == |rows|
    ensures forall k :: 0 <= k < |rows| ==> ActivityItems(rows)[k] == ItemOf(rows[k])
  {
    if rows != [] {
      var init := rows[..|rows| - 1];
      var last := rows[|rows| - 1];
      assert forall i, j :: 0 <= i < j < |init| ==> init[i].id != init[j].id by {
        forall i, j | 0 <= i < j < |init| ensures init[i].id != init[j].id {
          assert init[i] == rows[i] && init[j] == rows[j];
        }
      }
      ActivityKeepsGroupedRows(init);
      RowIdsMembership(init, last.id);
      NewClientAppended(rows);
      ItemsOfSnoc(ActivityItems(init), rows);
    }
  }

  lemma ItemsOfSnoc(items: seq<ClientEntry>, rows: seq<ClientRow>)
    requires rows != [] && |items| == |rows| - 1
    requires forall k :: 0 <= k < |rows| - 1 ==> items[k] == ItemOf(rows[..|rows| - 1][k])
    ensures var s := items + [ItemOf(rows[|rows| - 1])];
            |s| == |rows| && forall k :: 0 <= k < |rows| ==> s[k] == ItemOf(rows[k])
  {
  }

  /** A client not seen before is appended after the clients already in the dictionary. */
  lemma NewClientAppended(rows: seq<ClientRow>)
    requires rows != [] && rows[|rows| - 1].id !in RowIds(rows[..|rows| - 1])
    ensures ActivityItems(rows) == ActivityItems(rows[..|rows| - 1]) + [ItemOf(rows[|rows| - 1])]
  {
  }

  /** The value kept for a client is the one from its last row. */
  lemma {:induction false} ActivityTakesLastRow(rows: seq<ClientRow>, k: int)
    requires 0 <= k < |rows|
    requires forall j :: k < j < |rows| ==> rows[j].id != rows[k].id
    ensures ItemOf(rows[k]) in ActivityItems(rows)
  {
    var init := rows[..|rows| - 1];
    if k < |rows| - 1 {
      assert forall j :: k < j < |init| ==> init[j] == rows[j];
      ActivityTakesLastRow(init, k);
    }
  }

  /** The order counts, in the dictionary's order. */
  function OrderCounts(items: seq<ClientEntry>): (cs: seq<int>)
    ensures |cs| == |items|
    ensures forall i :: 0 <= i < |items| ==> cs[i] == items[i].stats.orderCount
  {
    seq(|items|, i requires 0 <= i < |items| => items[i].stats.orderCount)
  }

  /** client_activity_adj for the result of get_client_activity. */
  function ClientActivityFactor(query: Option<seq<ClientRow>>): real {
    EngagementFactor(OrderCounts(GetClientActivity(query)))
  }

  /** The engagement factor never changes a forecast: it is 1 with no clients (or a failed
      query) and, because the deviations from the mean cancel, 1 with any clients. */
  lemma ClientActivityIsNeutral(query: Option<seq<ClientRow>>)
    ensures ClientActivityFactor(query) == 1.0
  {
    EngagementFactorIsOne(OrderCounts(GetClientActivity(query)));
  }
}
