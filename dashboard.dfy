/** The statistics page: the date, zone and courier filters, the totals,
    the count of orders by status and the sales bars by zone and by
    courier. */
module Dashboard {
  import opened Wrappers
  import opened Types
  import opened Constants
  import opened Seqs
  import opened Scoping

  const DayMs: int := 86400000

  /** A day is given by the timestamp of its first millisecond. */
  datatype StatsFilters = StatsFilters(
    startDay: int,
    endDay: int,
    zone: Option<Zone>,
    courier: Option<CourierName>)

  /** Both days are included, the last one up to its final millisecond. */
  predicate StatsMatch(o: Order, f: StatsFilters) {
    && f.startDay <= o.createdAt <= f.endDay + DayMs - 1
    && (f.zone.Some? ==> o.zone == f.zone.value)
    && (f.courier.Some? ==> o.courier == f.courier.value)
  }

  function StatsOrders(orders: seq<Order>, f: StatsFilters): seq<Order> {
    Filter(orders, (o: Order) => StatsMatch(o, f))
  }

  /** Unlike the order list's half-open window, this one is closed: an order
      stamped at the first or the last millisecond of the range counts. */
  lemma {:induction false} StatsWindowInclusive(orders: seq<Order>, f: StatsFilters, o: Order)
    requires f.zone.None? && f.courier.None?
    ensures o in StatsOrders(orders, f) <==> o in orders && f.startDay <= o.createdAt < f.endDay + DayMs
  {
  }

  function TotalValue(o: Order): int {
    o.totalValue
  }

  function DeliveryCostOf(o: Order): int {
    o.deliveryCost
  }

  /** The three headline figures: number of orders, sales and delivery
      costs of the filtered orders. */
  datatype Totals = Totals(orders: nat, sales: int, deliveryCosts: int)

  function TotalsOf(filtered: seq<Order>): Totals {
    Totals(|filtered|, Sum(filtered, TotalValue), Sum(filtered, DeliveryCostOf))
  }

  function StatusCount(orders: seq<Order>, st: OrderStatus): nat {
    Count(orders, (o: Order) => o.status == st)
  }

  function TabCount(orders: seq<Order>, t: OrderTab): nat {
    Count(orders, (o: Order) => InTab(t, o))
  }

  /** `statusCounts`: one counter per status, and the two group totals. */
  datatype StatusCounts = StatusCounts(byStatus: map<OrderStatus, int>, pendingGroup: int, completedGroup: int)

  const AllStatuses: set<OrderStatus> := {Pending, Packed, InTransit, Delivered, Cancelled, Returned}

  lemma {:induction false} AllStatusesListed(st: OrderStatus)
    ensures st in AllStatuses
  {
  }

  /** Every counter holds the number of orders of its status; the pending
      group is the number of orders of the active tab and the completed
      group that of the completed tab. */
  method CountStatuses(filtered: seq<Order>) returns (c: StatusCounts)
    ensures forall st :: st in c.byStatus && c.byStatus[st] == StatusCount(filtered, st)
    ensures c.pendingGroup == TabCount(filtered, ActiveTab)
    ensures c.completedGroup == TabCount(filtered, CompletedTab)
  {
    var counts: map<OrderStatus, int> := map st: OrderStatus | st in AllStatuses :: 0;
    var i := 0;
    assert filtered[..0] == [];
    forall st
      ensures st in counts
    {
      AllStatusesListed(st);
    }
    while i < |filtered|
      invariant 0 <= i <= |filtered|
      invariant forall st :: st in counts && counts[st] == StatusCount(filtered[..i], st)
    {
      var o := filtered[i];
      forall st
        ensures StatusCount(filtered[..i + 1], st) == StatusCount(filtered[..i], st) + (if o.status == st then 1 else 0)
      {
        assert filtered[..i + 1] == filtered[..i] + [o];
        CountAppend(filtered[..i], o, (x: Order) => x.status == st);
      }
      counts := counts[o.status := counts[o.status] + 1];
      i := i + 1;
    }
    assert filtered[..i] == filtered;
    StatusGroups(filtered);
    c := StatusCounts(counts,
      counts[Pending] + counts[Packed] + counts[InTransit],
      counts[Delivered] + counts[Returned]);
  }

  /** The groups add up from the per-status counts. */
  lemma {:induction false} StatusGroups(s: seq<Order>)
    ensures TabCount(s, ActiveTab) == StatusCount(s, Pending) + StatusCount(s, Packed) + StatusCount(s, InTransit)
    ensures TabCount(s, CompletedTab) == StatusCount(s, Delivered) + StatusCount(s, Returned)
    ensures TabCount(s, CancelledTab) == StatusCount(s, Cancelled)
  {
    if s != [] {
      StatusGroups(s[1..]);
    }
  }

  /** Every order is in exactly one group: pending, completed and cancelled
      add up to the number of orders. */
  lemma {:induction false} GroupsCoverAll(s: seq<Order>)
    ensures TabCount(s, ActiveTab) + TabCount(s, CompletedTab) + TabCount(s, CancelledTab) == |s|
  {
    if s != [] {
      GroupsCoverAll(s[1..]);
    }
  }

  /** One bar of a chart. */
  datatype Bar = Bar(caption: string, value: int)

  function BarValue(b: Bar): int {
    b.value
  }

  /** The sales of the orders whose key is `k`. */
  function GroupSales<K(==)>(orders: seq<Order>, key: Order -> K, k: K): int {
    Sum(Filter(orders, (o: Order) => key(o) == k), TotalValue)
  }

  /** One bar per key, in the order of `keys`. */
  function Bars<K(==)>(orders: seq<Order>, keys: seq<K>, key: Order -> K, caption: K -> string): (r: seq<Bar>)
    ensures |r| == |keys|
    ensures forall j :: 0 <= j < |keys| ==> r[j] == Bar(caption(keys[j]), GroupSales(orders, key, keys[j]))
  {
    if keys == [] then [] else [Bar(caption(keys[0]), GroupSales(orders, key, keys[0]))] + Bars(orders, keys[1..], key, caption)
  }

  predicate Positive(b: Bar) {
    b.value > 0
  }

  /** The bars with a positive value, largest first. */
  function SalesChart<K(==)>(orders: seq<Order>, keys: seq<K>, key: Order -> K, caption: K -> string): seq<Bar> {
    SortDesc(Filter(Bars(orders, keys, key, caption), Positive), BarValue)
  }

  function SalesByZone(orders: seq<Order>): seq<Bar> {
    SalesChart(orders, Zones, (o: Order) => o.zone, ZoneText)
  }

  function SalesByCourier(orders: seq<Order>): seq<Bar> {
    SalesChart(orders, Couriers, (o: Order) => o.courier, CourierText)
  }

  /** A chart is sorted from the largest sales down, shows only positive
      sales, and shows the bar of a key exactly when that key sold
      something. */
  lemma {:induction false} SalesChartContents<K>(orders: seq<Order>, keys: seq<K>, key: Order -> K, caption: K -> string, k: K)
    requires k in keys
    ensures SortedDesc(SalesChart(orders, keys, key, caption), BarValue)
    ensures forall b :: b in SalesChart(orders, keys, key, caption) ==> b.value > 0
    ensures Bar(caption(k), GroupSales(orders, key, k)) in SalesChart(orders, keys, key, caption)
      <==> GroupSales(orders, key, k) > 0
  {
    var bars := Bars(orders, keys, key, caption);
    var shown := Filter(bars, Positive);
    var j :| 0 <= j < |keys| && keys[j] == k;
    var b := Bar(caption(k), GroupSales(orders, key, k));
    assert bars[j] == b;
    SortDescSameElements(shown, BarValue);
  }

  lemma {:induction false} GroupSalesStep<K>(orders: seq<Order>, key: Order -> K, k: K)
    requires orders != []
    ensures GroupSales(orders, key, k)
      == (if key(orders[0]) == k then orders[0].totalValue else 0) + GroupSales(orders[1..], key, k)
  {
    var p := (o: Order) => key(o) == k;
    if p(orders[0]) {
      assert Filter(orders, p) == [orders[0]] + Filter(orders[1..], p);
      assert ([orders[0]] + Filter(orders[1..], p))[1..] == Filter(orders[1..], p);
    }
  }

  /** Adding an order to the front adds its value to the bar of its key,
      and to nothing else. */
  lemma {:induction false} BarsCons<K>(orders: seq<Order>, keys: seq<K>, key: Order -> K, caption: K -> string)
    requires orders != []
    requires NoDuplicates(keys)
    ensures Sum(Bars(orders, keys, key, caption), BarValue)
      == Sum(Bars(orders[1..], keys, key, caption), BarValue) + (if key(orders[0]) in keys then orders[0].totalValue else 0)
  {
    if keys != [] {
      assert NoDuplicates(keys[1..]);
      BarsCons(orders, keys[1..], key, caption);
      GroupSalesStep(orders, key, keys[0]);
      assert keys[0] !in keys[1..];
    }
  }

  lemma {:induction false} BarsOfNothing<K>(keys: seq<K>, key: Order -> K, caption: K -> string)
    ensures Sum(Bars([], keys, key, caption), BarValue) == 0
  {
    if keys != [] {
      BarsOfNothing(keys[1..], key, caption);
    }
  }

  /** With each order's key listed once, the bars add up to the total sales. */
  lemma {:induction false} BarsAddUp<K>(orders: seq<Order>, keys: seq<K>, key: Order -> K, caption: K -> string)
    requires NoDuplicates(keys)
    requires forall o :: o in orders ==> key(o) in keys
    ensures Sum(Bars(orders, keys, key, caption), BarValue) == Sum(orders, TotalValue)
  {
    if orders == [] {
      BarsOfNothing(keys, key, caption);
    } else {
      assert orders[0] in orders;
      BarsAddUp(orders[1..], keys, key, caption);
      BarsCons(orders, keys, key, caption);
    }
  }

  lemma {:induction false} DropZeroBars(s: seq<Bar>)
    requires forall b :: b in s ==> b.value >= 0
    ensures Sum(Filter(s, Positive), BarValue) == Sum(s, BarValue)
  {
    if s != [] {
      assert s[0] in s;
      DropZeroBars(s[1..]);
      if Positive(s[0]) {
        assert Filter(s, Positive) == [s[0]] + Filter(s[1..], Positive);
        assert ([s[0]] + Filter(s[1..], Positive))[1..] == Filter(s[1..], Positive);
      }
    }
  }

  /** When no order has a negative value, each chart accounts for all the
      sales: its bars add up to the headline sales figure. */
  lemma {:induction false} ChartsAddUpToSales(filtered: seq<Order>)
    requires forall o :: o in filtered ==> o.totalValue >= 0
    ensures Sum(SalesByZone(filtered), BarValue) == TotalsOf(filtered).sales
    ensures Sum(SalesByCourier(filtered), BarValue) == TotalsOf(filtered).sales
  {
    ZonesListEachOnce();
    CouriersListEachOnce();
    ChartAddsUp(filtered, Zones, (o: Order) => o.zone, ZoneText);
    ChartAddsUp(filtered, Couriers, (o: Order) => o.courier, CourierText);
  }

  lemma {:induction false} ChartAddsUp<K>(filtered: seq<Order>, keys: seq<K>, key: Order -> K, caption: K -> string)
    requires forall o :: o in filtered ==> o.totalValue >= 0
    requires NoDuplicates(keys)
    requires forall o :: o in filtered ==> key(o) in keys
    ensures Sum(SalesChart(filtered, keys, key, caption), BarValue) == Sum(filtered, TotalValue)
  {
    var bars := Bars(filtered, keys, key, caption);
    forall b | b in bars
      ensures b.value >= 0
    {
      var j :| 0 <= j < |bars| && bars[j] == b;
      var sub := Filter(filtered, (o: Order) => key(o) == keys[j]);
      SumNonNegative(sub, TotalValue);
    }
    BarsAddUp(filtered, keys, key, caption);
    DropZeroBars(bars);
    SumSort(Filter(bars, Positive), BarValue, BarValue);
  }
}
