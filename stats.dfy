/** The admin dashboard and the vendor summary: one pass over the order
    documents that tallies counters, revenue buckets and daily revenue, then a
    trend, the sorted daily series and the ten newest orders. The clock and the
    calendar fields of each date (local month and year, UTC day key) are inputs. */
module Stats {
  import opened Common
  import Sorting
  import Sequences

  /** A creation date: its time value and the calendar fields the handlers read. */
  datatype Stamp = Stamp(time: int, month: int, year: int, day: string)

  /** An order as the stats read it. `created` is None when the field is missing
      or is not a valid date. */
  datatype StatOrder = StatOrder(
    id: string,
    vendorId: Option<string>,
    status: Option<string>,
    totalAmount: Option<real>,
    created: Option<Stamp>)

  /** The clock: the current local month (0 to 11) and year, midnight seven days
      ago, and midnight today. */
  datatype Clock = Clock(currentMonth: int, currentYear: int, sevenDaysAgo: int, startOfDay: int)

  datatype DayTotal = DayTotal(key: string, total: real)

  datatype Dashboard = Dashboard(
    totalRevenue: real,
    totalRevenueTrend: real,
    pendingOrders: nat,
    totalOrders: nat,
    activeDeliveries: nat,
    orderCounts: map<string, nat>,
    dailyRevenue: seq<DayTotal>,
    cancelledLoss: real,
    recentOrders: seq<StatOrder>)

  datatype VendorSummary = VendorSummary(todayRevenue: real, todayOrders: nat, pendingOrders: nat, productsCount: nat)

  /** A missing or empty status reads as 'pending'. */
  function StatusOf(o: StatOrder): string {
    OrElse(o.status, "pending")
  }

  function AmountOf(o: StatOrder): real {
    NumberOrZero(o.totalAmount)
  }

  /** The month before the current one, wrapping from January to December. */
  function LastMonth(clock: Clock): int {
    (clock.currentMonth + 11) % 12
  }

  /** The groups the handlers tally orders into. */
  datatype Bucket =
    | Status(s: string)      // orderCounts[s], and pendingOrders for 'pending'
    | Active                 // activeDeliveries
    | Earned                 // totalRevenue
    | Lost                   // cancelledLoss
    | ThisMonth              // thisMonthRevenue
    | PreviousMonth          // lastMonthRevenue
    | Day(key: string)       // dailyRevenueMap[key]
    | VendorToday            // todayOrders
    | VendorTodayEarned      // todayRevenue
    | VendorPending          // pendingOrders of the vendor summary

  predicate In(clock: Clock, b: Bucket, o: StatOrder) {
    match b
    case Status(s) => StatusOf(o) == s
    case Active => StatusOf(o) == "accepted" || StatusOf(o) == "out_for_delivery"
    case Earned => StatusOf(o) != "cancelled"
    case Lost => StatusOf(o) == "cancelled"
    case ThisMonth =>
      StatusOf(o) != "cancelled" && o.created.Some? &&
      o.created.value.month == clock.currentMonth && o.created.value.year == clock.currentYear
    case PreviousMonth =>
      StatusOf(o) != "cancelled" && o.created.Some? && o.created.value.month == LastMonth(clock) &&
      (o.created.value.year == clock.currentYear || (clock.currentMonth == 0 && o.created.value.year == clock.currentYear - 1))
    case Day(k) =>
      StatusOf(o) != "cancelled" && o.created.Some? && o.created.value.time >= clock.sevenDaysAgo && o.created.value.day == k
    case VendorToday => o.created.Some? && o.created.value.time >= clock.startOfDay
    case VendorTodayEarned => o.created.Some? && o.created.value.time >= clock.startOfDay && o.status != Some("cancelled")
    case VendorPending => o.status == Some("pending")
  }

  function Count(os: seq<StatOrder>, clock: Clock, b: Bucket): nat {
    if os == [] then 0
    else Count(os[..|os| - 1], clock, b) + (if In(clock, b, os[|os| - 1]) then 1 else 0)
  }

  function Sum(os: seq<StatOrder>, clock: Clock, b: Bucket): real {
    if os == [] then 0.0
    else Sum(os[..|os| - 1], clock, b) + (if In(clock, b, os[|os| - 1]) then AmountOf(os[|os| - 1]) else 0.0)
  }

  /** The sum of every order's amount, cancelled or not. */
  function TotalAmount(os: seq<StatOrder>): real {
    if os == [] then 0.0 else TotalAmount(os[..|os| - 1]) + AmountOf(os[|os| - 1])
  }

  const KnownStatuses: set<string> := {"pending", "accepted", "out_for_delivery", "delivered", "cancelled"}

  /** `orderCounts`: the five known statuses, each with its number of orders. */
  function Counts(os: seq<StatOrder>, clock: Clock): map<string, nat> {
    map s | s in KnownStatuses :: Count(os, clock, Status(s))
  }

  /** Whether an order goes into the daily revenue map, and under which key. */
  predicate InWindow(clock: Clock, o: StatOrder) {
    StatusOf(o) != "cancelled" && o.created.Some? && o.created.value.time >= clock.sevenDaysAgo
  }

  /** `dailyRevenueMap` after the orders `os`. */
  function DailyMap(os: seq<StatOrder>, clock: Clock): map<string, real> {
    if os == [] then map[]
    else
      var m := DailyMap(os[..|os| - 1], clock);
      var o := os[|os| - 1];
      if InWindow(clock, o) then
        var k := o.created.value.day;
        m[k := (if k in m then m[k] else 0.0) + AmountOf(o)]
      else m
  }

  /** `Object.keys(dailyRevenueMap)`: the day keys in the order they were first set. */
  function DayKeys(os: seq<StatOrder>, clock: Clock): seq<string> {
    if os == [] then []
    else
      var ks := DayKeys(os[..|os| - 1], clock);
      var o := os[|os| - 1];
      if InWindow(clock, o) && o.created.value.day !in ks then ks + [o.created.value.day] else ks
  }

  /** `revenueTrend`: the change from last month in percent, or 100 or 0 when last
      month earned nothing. */
  function Trend(thisMonth: real, lastMonth: real): real {
    if lastMonth == 0.0 then (if thisMonth > 0.0 then 100.0 else 0.0)
    else (thisMonth - lastMonth) / lastMonth * 100.0
  }

  /** The comparator of the recent-orders sort: newer first. Undated orders, for
      which the source's comparator yields NaN, are placed last. */
  predicate Newer(a: StatOrder, b: StatOrder) {
    (a.created.Some? && (b.created.None? || a.created.value.time >= b.created.value.time)) ||
    (a.created.None? && b.created.None?)
  }

  function Min(a: nat, b: nat): nat {
    if a <= b then a else b
  }

  /** `orders.sort(newest first).slice(0, 10)`. */
  function Recent(os: seq<StatOrder>): seq<StatOrder> {
    Sorting.SortBy(os, Newer)[..Min(10, |os|)]
  }

  /** `Object.keys(dailyRevenueMap).sort()` paired with the totals. */
  function DailySeries(os: seq<StatOrder>, clock: Clock): (r: seq<DayTotal>)
  {
    var m := DailyMap(os, clock);
    var ks := Sorting.SortBy(DayKeys(os, clock), Sorting.StringLe);
    SortedKeysInMap(os, clock);
    seq(|ks|, k requires 0 <= k < |ks| => DayTotal(ks[k], m[ks[k]]))
  }

  // ---------------------------------------------------------------------------
  // One more order

  lemma CountSnoc(os: seq<StatOrder>, o: StatOrder, clock: Clock, b: Bucket)
    ensures Count(os + [o], clock, b) == Count(os, clock, b) + (if In(clock, b, o) then 1 else 0)
  {
    assert (os + [o])[..|os|] == os;
  }

  lemma SumSnoc(os: seq<StatOrder>, o: StatOrder, clock: Clock, b: Bucket)
    ensures Sum(os + [o], clock, b) == Sum(os, clock, b) + (if In(clock, b, o) then AmountOf(o) else 0.0)
  {
    assert (os + [o])[..|os|] == os;
  }

  lemma TotalAmountSnoc(os: seq<StatOrder>, o: StatOrder)
    ensures TotalAmount(os + [o]) == TotalAmount(os) + AmountOf(o)
  {
    assert (os + [o])[..|os|] == os;
  }

  lemma DailySnoc(os: seq<StatOrder>, o: StatOrder, clock: Clock)
    ensures DailyMap(os + [o], clock) ==
      if InWindow(clock, o) then
        DailyMap(os, clock)[o.created.value.day :=
          (if o.created.value.day in DailyMap(os, clock) then DailyMap(os, clock)[o.created.value.day] else 0.0) + AmountOf(o)]
      else DailyMap(os, clock)
    ensures DayKeys(os + [o], clock) ==
      if InWindow(clock, o) && o.created.value.day !in DayKeys(os, clock) then DayKeys(os, clock) + [o.created.value.day]
      else DayKeys(os, clock)
  {
    assert (os + [o])[..|os|] == os;
  }

  /** The `orderCounts` step: a known status gains one, any other status is ignored. */
  lemma CountsSnoc(os: seq<StatOrder>, o: StatOrder, clock: Clock)
    ensures Counts(os + [o], clock) ==
      if StatusOf(o) in Counts(os, clock) then Counts(os, clock)[StatusOf(o) := Counts(os, clock)[StatusOf(o)] + 1]
      else Counts(os, clock)
  {
    var c, c' := Counts(os, clock), Counts(os + [o], clock);
    forall s | s in KnownStatuses ensures c'[s] == c[s] + (if StatusOf(o) == s then 1 else 0) {
      CountSnoc(os, o, clock, Status(s));
    }
    assert c'.Keys == c.Keys == KnownStatuses;
    if StatusOf(o) in c {
      var h := c[StatusOf(o) := c[StatusOf(o)] + 1];
      assert c' == h by {
        assert h.Keys == KnownStatuses;
        forall s | s in KnownStatuses ensures c'[s] == h[s] {}
      }
    } else {
      assert c' == c by {
        forall s | s in KnownStatuses ensures c'[s] == c[s] {}
      }
    }
  }

  // ---------------------------------------------------------------------------
  // The daily series

  /** The day keys are exactly the keys of the daily map, each once. */
  lemma {:induction false} DayKeysExact(os: seq<StatOrder>, clock: Clock)
    ensures forall k :: k in DayKeys(os, clock) <==> k in DailyMap(os, clock)
    ensures Sorting.Distinct(DayKeys(os, clock))
  {
    if os != [] {
      var init, o := os[..|os| - 1], os[|os| - 1];
      assert os == init + [o];
      DayKeysExact(init, clock);
      DailySnoc(init, o, clock);
    }
  }

  lemma SortedKeysInMap(os: seq<StatOrder>, clock: Clock)
    ensures forall k :: 0 <= k < |Sorting.SortBy(DayKeys(os, clock), Sorting.StringLe)| ==>
      Sorting.SortBy(DayKeys(os, clock), Sorting.StringLe)[k] in DailyMap(os, clock)
  {
    var ks := Sorting.SortBy(DayKeys(os, clock), Sorting.StringLe);
    DayKeysExact(os, clock);
    forall k | 0 <= k < |ks| ensures ks[k] in DailyMap(os, clock) {
      assert ks[k] in multiset(ks);
    }
  }

  /** Each day's revenue is the sum of that day's non-cancelled orders of the last
      seven days, and a day appears exactly when such an order exists. */
  lemma {:induction false} DailyMapIsDaySum(os: seq<StatOrder>, clock: Clock, k: string)
    ensures k in DailyMap(os, clock) <==> Count(os, clock, Day(k)) > 0
    ensures k in DailyMap(os, clock) ==> DailyMap(os, clock)[k] == Sum(os, clock, Day(k))
  {
    if os != [] {
      var init, o := os[..|os| - 1], os[|os| - 1];
      assert os == init + [o];
      DailyMapIsDaySum(init, clock, k);
      DailySnoc(init, o, clock);
      CountSnoc(init, o, clock, Day(k));
      SumSnoc(init, o, clock, Day(k));
      if k !in DailyMap(init, clock) {
        assert Count(init, clock, Day(k)) == 0;
        CountZeroSumZero(init, clock, Day(k));
      }
    }
  }

  lemma {:induction false} CountZeroSumZero(os: seq<StatOrder>, clock: Clock, b: Bucket)
    requires Count(os, clock, b) == 0
    ensures Sum(os, clock, b) == 0.0
  {
    if os != [] {
      CountZeroSumZero(os[..|os| - 1], clock, b);
    }
  }

  lemma DailySeriesEntries(os: seq<StatOrder>, clock: Clock)
    ensures |DailySeries(os, clock)| == |Sorting.SortBy(DayKeys(os, clock), Sorting.StringLe)|
    ensures forall i :: 0 <= i < |DailySeries(os, clock)| ==>
      DailySeries(os, clock)[i].key == Sorting.SortBy(DayKeys(os, clock), Sorting.StringLe)[i] &&
      DailySeries(os, clock)[i].key in DailyMap(os, clock) &&
      DailySeries(os, clock)[i].total == DailyMap(os, clock)[DailySeries(os, clock)[i].key]
  {
    SortedKeysInMap(os, clock);
  }

  /** The daily series lists each day once, in ascending key order. */
  lemma DailySeriesAscending(os: seq<StatOrder>, clock: Clock)
    ensures forall i, j :: 0 <= i < j < |DailySeries(os, clock)| ==>
      Sorting.StringLe(DailySeries(os, clock)[i].key, DailySeries(os, clock)[j].key) &&
      DailySeries(os, clock)[i].key != DailySeries(os, clock)[j].key
  {
    var ks := Sorting.SortBy(DayKeys(os, clock), Sorting.StringLe);
    DailySeriesEntries(os, clock);
    Sorting.StringLeIsTotalPreorder();
    Sorting.SortBySorted(DayKeys(os, clock), Sorting.StringLe);
    DayKeysExact(os, clock);
    Sorting.SortByKeepsDistinct(DayKeys(os, clock), Sorting.StringLe);
  }

  /** Each day of the series carries the revenue of that day's non-cancelled
      orders of the last seven days. */
  lemma DailySeriesTotals(os: seq<StatOrder>, clock: Clock)
    ensures forall i :: 0 <= i < |DailySeries(os, clock)| ==>
      DailySeries(os, clock)[i].total == Sum(os, clock, Day(DailySeries(os, clock)[i].key))
  {
    var r := DailySeries(os, clock);
    DailySeriesEntries(os, clock);
    forall i | 0 <= i < |r| ensures r[i].total == Sum(os, clock, Day(r[i].key)) {
      DailyMapIsDaySum(os, clock, r[i].key);
    }
  }

  /** A day is in the series exactly when some non-cancelled order of the last
      seven days falls on it. */
  lemma DailySeriesDays(os: seq<StatOrder>, clock: Clock, k: string)
    ensures (exists i :: 0 <= i < |DailySeries(os, clock)| && DailySeries(os, clock)[i].key == k) <==>
      Count(os, clock, Day(k)) > 0
  {
    var r := DailySeries(os, clock);
    var ks := Sorting.SortBy(DayKeys(os, clock), Sorting.StringLe);
    DailySeriesEntries(os, clock);
    DailyMapIsDaySum(os, clock, k);
    DayKeysExact(os, clock);
    Sorting.SortByMembers(DayKeys(os, clock), Sorting.StringLe);
    if k in ks {
      var i :| 0 <= i < |ks| && ks[i] == k;
      assert r[i].key == k;
    }
  }

  // ---------------------------------------------------------------------------
  // The dashboard

  /** The counters the pass over the orders updates. */
  datatype Counters = Counters(pending: nat, active: nat, counts: map<string, nat>)

  /** The revenue figures the pass updates. */
  datatype Revenue = Revenue(revenue: real, lost: real, thisMonth: real, lastMonth: real)

  /** `dailyRevenueMap`, with its keys in the order they were first set. */
  datatype Daily = Daily(daily: map<string, real>, keys: seq<string>)

  function CountersOf(os: seq<StatOrder>, clock: Clock): Counters {
    Counters(Count(os, clock, Status("pending")), Count(os, clock, Active), Counts(os, clock))
  }

  function RevenueOf(os: seq<StatOrder>, clock: Clock): Revenue {
    Revenue(Sum(os, clock, Earned), Sum(os, clock, Lost), Sum(os, clock, ThisMonth), Sum(os, clock, PreviousMonth))
  }

  function DailyOf(os: seq<StatOrder>, clock: Clock): Daily {
    Daily(DailyMap(os, clock), DayKeys(os, clock))
  }

  /** The counting half of the `forEach` callback for one order; `seen` are the
      orders before it. */
  method CountOrder(c: Counters, o: StatOrder, clock: Clock, ghost seen: seq<StatOrder>) returns (c': Counters)
    requires c == CountersOf(seen, clock)
    ensures c' == CountersOf(seen + [o], clock)
  {
    CountSnoc(seen, o, clock, Status("pending"));
    CountSnoc(seen, o, clock, Active);
    CountsSnoc(seen, o, clock);
    var status := StatusOf(o);
    c' := c;
    if status in c'.counts {
      c' := c'.(counts := c'.counts[status := c'.counts[status] + 1]);
    }
    if status == "pending" {
      c' := c'.(pending := c'.pending + 1);
    }
    if status == "accepted" || status == "out_for_delivery" {
      c' := c'.(active := c'.active + 1);
    }
  }

  /** The revenue half of the `forEach` callback for one order. */
  method EarnOrder(v: Revenue, o: StatOrder, clock: Clock, ghost seen: seq<StatOrder>) returns (v': Revenue)
    requires v == RevenueOf(seen, clock)
    ensures v' == RevenueOf(seen + [o], clock)
  {
    RevenueStep(seen, o, clock);
    var amount := AmountOf(o);
    v' := v;
    if StatusOf(o) != "cancelled" {
      v' := v'.(revenue := v'.revenue + amount);
      if o.created.Some? {
        var date := o.created.value;
        if date.month == clock.currentMonth && date.year == clock.currentYear {
          v' := v'.(thisMonth := v'.thisMonth + amount);
        }
        if date.month == LastMonth(clock) &&
           (date.year == clock.currentYear || (clock.currentMonth == 0 && date.year == clock.currentYear - 1)) {
          v' := v'.(lastMonth := v'.lastMonth + amount);
        }
      }
    } else {
      v' := v'.(lost := v'.lost + amount);
    }
  }

  /** The daily-revenue part of the callback: a non-cancelled order of the last
      seven days adds its amount under its day key. */
  method BookDay(w: Daily, o: StatOrder, clock: Clock, ghost seen: seq<StatOrder>) returns (w': Daily)
    requires w == DailyOf(seen, clock)
    ensures w' == DailyOf(seen + [o], clock)
  {
    DailySnoc(seen, o, clock);
    DayKeysExact(seen, clock);
    w' := w;
    if StatusOf(o) != "cancelled" && o.created.Some? {
      var date := o.created.value;
      if date.time >= clock.sevenDaysAgo {
        var keys := if date.day in w.daily then w.keys else w.keys + [date.day];
        w' := Daily(w.daily[date.day := (if date.day in w.daily then w.daily[date.day] else 0.0) + AmountOf(o)], keys);
      }
    }
  }

  /** GET /dashboard: the pass over the orders, then the trend, the sorted daily
      series and the ten newest orders. */
  method ComputeDashboard(orders: seq<StatOrder>, clock: Clock) returns (d: Dashboard)
    ensures d.totalOrders == |orders|
    ensures d.pendingOrders == Count(orders, clock, Status("pending"))
    ensures d.activeDeliveries == Count(orders, clock, Active)
    ensures d.orderCounts == Counts(orders, clock)
    ensures d.totalRevenue == Sum(orders, clock, Earned)
    ensures d.cancelledLoss == Sum(orders, clock, Lost)
    ensures d.totalRevenueTrend == Trend(Sum(orders, clock, ThisMonth), Sum(orders, clock, PreviousMonth))
    ensures d.dailyRevenue == DailySeries(orders, clock)
    ensures d.recentOrders == Recent(orders)
  {
    var c := Counters(0, 0, map["pending" := 0, "accepted" := 0, "out_for_delivery" := 0, "delivered" := 0, "cancelled" := 0]);
    var v := Revenue(0.0, 0.0, 0.0, 0.0);
    var w := Daily(map[], []);
    assert c.counts == Counts([], clock);
    for i := 0 to |orders|
      invariant c == CountersOf(orders[..i], clock)
      invariant v == RevenueOf(orders[..i], clock)
      invariant w == DailyOf(orders[..i], clock)
    {
      assert orders[..i + 1] == orders[..i] + [orders[i]];
      c := CountOrder(c, orders[i], clock, orders[..i]);
      v := EarnOrder(v, orders[i], clock, orders[..i]);
      w := BookDay(w, orders[i], clock, orders[..i]);
    }
    assert orders[..|orders|] == orders;
    var sortedKeys := Sorting.SortBy(w.keys, Sorting.StringLe);
    SortedKeysInMap(orders, clock);
    var series := seq(|sortedKeys|, k requires 0 <= k < |sortedKeys| => DayTotal(sortedKeys[k], w.daily[sortedKeys[k]]));
    d := Dashboard(v.revenue, Trend(v.thisMonth, v.lastMonth), c.pending, |orders|, c.active, c.counts, series, v.lost, Recent(orders));
  }

  /** The revenue figures after one more order. */
  lemma RevenueStep(os: seq<StatOrder>, o: StatOrder, clock: Clock)
    ensures Sum(os + [o], clock, Earned) == Sum(os, clock, Earned) + (if In(clock, Earned, o) then AmountOf(o) else 0.0)
    ensures Sum(os + [o], clock, Lost) == Sum(os, clock, Lost) + (if In(clock, Lost, o) then AmountOf(o) else 0.0)
    ensures Sum(os + [o], clock, ThisMonth) == Sum(os, clock, ThisMonth) + (if In(clock, ThisMonth, o) then AmountOf(o) else 0.0)
    ensures Sum(os + [o], clock, PreviousMonth) == Sum(os, clock, PreviousMonth) + (if In(clock, PreviousMonth, o) then AmountOf(o) else 0.0)
  {
    SumSnoc(os, o, clock, Earned);
    SumSnoc(os, o, clock, Lost);
    SumSnoc(os, o, clock, ThisMonth);
    SumSnoc(os, o, clock, PreviousMonth);
  }

  // ---------------------------------------------------------------------------
  // What the dashboard figures mean

  /** Every order's amount lands in exactly one of the revenue and the loss. */
  lemma {:induction false} RevenuePartition(os: seq<StatOrder>, clock: Clock)
    ensures Sum(os, clock, Earned) + Sum(os, clock, Lost) == TotalAmount(os)
  {
    if os != [] {
      RevenuePartition(os[..|os| - 1], clock);
    }
  }

  /** Active deliveries are the accepted orders plus those out for delivery. */
  lemma {:induction false} ActiveIsAcceptedPlusOutForDelivery(os: seq<StatOrder>, clock: Clock)
    ensures Count(os, clock, Active) == Count(os, clock, Status("accepted")) + Count(os, clock, Status("out_for_delivery"))
  {
    if os != [] {
      ActiveIsAcceptedPlusOutForDelivery(os[..|os| - 1], clock);
    }
  }

  /** An order with no status is counted as pending. */
  lemma MissingStatusIsPending(os: seq<StatOrder>, o: StatOrder, clock: Clock)
    requires o.status.None?
    ensures Counts(os + [o], clock)["pending"] == Counts(os, clock)["pending"] + 1
    ensures Count(os + [o], clock, Status("pending")) == Count(os, clock, Status("pending")) + 1
  {
    CountSnoc(os, o, clock, Status("pending"));
  }

  /** An order whose status is not one of the five known ones leaves `orderCounts`
      as it was. */
  lemma UnknownStatusNotCounted(os: seq<StatOrder>, o: StatOrder, clock: Clock)
    requires StatusOf(o) !in KnownStatuses
    ensures Counts(os + [o], clock) == Counts(os, clock)
  {
    CountsSnoc(os, o, clock);
  }

  /** The counted statuses never outnumber the orders. */
  lemma {:induction false} KnownCountsAtMostOrders(os: seq<StatOrder>, clock: Clock)
    ensures Count(os, clock, Status("pending")) + Count(os, clock, Status("accepted")) +
            Count(os, clock, Status("out_for_delivery")) + Count(os, clock, Status("delivered")) +
            Count(os, clock, Status("cancelled")) <= |os|
  {
    if os != [] {
      KnownCountsAtMostOrders(os[..|os| - 1], clock);
    }
  }

  /** The trend: 100 or 0 when last month earned nothing, otherwise the percentage
      change, which is positive exactly when revenue grew on a positive last month. */
  lemma TrendRules(thisMonth: real, lastMonth: real)
    ensures lastMonth == 0.0 && thisMonth > 0.0 ==> Trend(thisMonth, lastMonth) == 100.0
    ensures lastMonth == 0.0 && thisMonth <= 0.0 ==> Trend(thisMonth, lastMonth) == 0.0
    ensures lastMonth != 0.0 ==> Trend(thisMonth, lastMonth) * lastMonth == (thisMonth - lastMonth) * 100.0
    ensures lastMonth > 0.0 ==> (Trend(thisMonth, lastMonth) > 0.0 <==> thisMonth > lastMonth)
  {
    if lastMonth > 0.0 {
      var q := (thisMonth - lastMonth) / lastMonth;
      assert q * lastMonth == thisMonth - lastMonth;
      assert q > 0.0 <==> thisMonth > lastMonth;
    }
  }

  lemma NewerIsTotalPreorder()
    ensures Sorting.TotalPreorder(Newer)
  {
  }

  /** The recent orders: at most ten of the orders, newest first, and no order
      left out is newer than one kept (undated orders counting as oldest). */
  lemma RecentAreNewest(os: seq<StatOrder>)
    ensures |Recent(os)| == Min(10, |os|)
    ensures multiset(Recent(os)) <= multiset(os)
    ensures forall i, j :: 0 <= i < j < |Recent(os)| ==> Newer(Recent(os)[i], Recent(os)[j])
    ensures forall x, y :: x in Recent(os) && y in multiset(os) - multiset(Recent(os)) ==> Newer(x, y)
  {
    var s := Sorting.SortBy(os, Newer);
    var n := Min(10, |os|);
    NewerIsTotalPreorder();
    Sorting.SortBySorted(os, Newer);
    Sorting.SortedPrefixIsBest(os, Newer, n);
    assert s == s[..n] + s[n..];
  }

  // ---------------------------------------------------------------------------
  // The vendor summary

  /** The Firestore query `where('vendorId', '==', vendorId)`. */
  function VendorOrders(orders: seq<StatOrder>, vendorId: string): seq<StatOrder> {
    Sequences.FilterMap(orders, (o: StatOrder) => o.vendorId == Some(vendorId), (o: StatOrder) => o)
  }

  function CountEqual(ids: seq<string>, id: string): nat {
    if ids == [] then 0 else CountEqual(ids[..|ids| - 1], id) + (if ids[|ids| - 1] == id then 1 else 0)
  }

  /** The tallies of the vendor summary, and the callback for one order. */
  datatype VendorTallies = VendorTallies(todayRevenue: real, todayOrders: nat, pendingOrders: nat)

  function VendorTalliesOf(os: seq<StatOrder>, clock: Clock): VendorTallies {
    VendorTallies(Sum(os, clock, VendorTodayEarned), Count(os, clock, VendorToday), Count(os, clock, VendorPending))
  }

  method TallyVendorOrder(t: VendorTallies, o: StatOrder, clock: Clock, ghost seen: seq<StatOrder>) returns (t': VendorTallies)
    requires t == VendorTalliesOf(seen, clock)
    ensures t' == VendorTalliesOf(seen + [o], clock)
  {
    SumSnoc(seen, o, clock, VendorTodayEarned);
    CountSnoc(seen, o, clock, VendorToday);
    CountSnoc(seen, o, clock, VendorPending);
    t' := t;
    if o.created.Some? && o.created.value.time >= clock.startOfDay {
      t' := t'.(todayOrders := t'.todayOrders + 1);
      if o.status != Some("cancelled") {
        t' := t'.(todayRevenue := t'.todayRevenue + AmountOf(o));
      }
    }
    if o.status == Some("pending") {
      t' := t'.(pendingOrders := t'.pendingOrders + 1);
    }
  }

  /** GET /vendor: a missing vendor id is 400; the pass over the vendor's orders;
      then the product count, where an invalid ObjectId throws (500).
      `productVendors` holds the vendor id of every product. */
  method ComputeVendorSummary(orders: seq<StatOrder>, productVendors: seq<string>, vendorId: Option<string>, clock: Clock)
    returns (r: Result<VendorSummary>)
    ensures !Filled(vendorId) ==> r == Err(BadRequest("vendor id is required"))
    ensures Filled(vendorId) && ObjectIdOf(vendorId.value).None? ==> r == Err(ServerError)
    ensures Filled(vendorId) && ObjectIdOf(vendorId.value).Some? ==>
      r == Ok(VendorSummary(
        Sum(VendorOrders(orders, vendorId.value), clock, VendorTodayEarned),
        Count(VendorOrders(orders, vendorId.value), clock, VendorToday),
        Count(VendorOrders(orders, vendorId.value), clock, VendorPending),
        CountEqual(productVendors, ObjectIdOf(vendorId.value).value)))
  {
    if !Filled(vendorId) {
      return Err(BadRequest("vendor id is required"));
    }
    var snapshot := VendorOrders(orders, vendorId.value);
    var t := VendorTallies(0.0, 0, 0);
    for i := 0 to |snapshot|
      invariant t == VendorTalliesOf(snapshot[..i], clock)
    {
      assert snapshot[..i + 1] == snapshot[..i] + [snapshot[i]];
      t := TallyVendorOrder(t, snapshot[i], clock, snapshot[..i]);
    }
    assert snapshot[..|snapshot|] == snapshot;
    match ObjectIdOf(vendorId.value)
    case None =>
      r := Err(ServerError);
    case Some(oid) =>
      r := Ok(VendorSummary(t.todayRevenue, t.todayOrders, t.pendingOrders, CountEqual(productVendors, oid)));
  }

  /** A cancelled order adds nothing to today's revenue, though it counts as one of
      today's orders. */
  lemma CancelledEarnsNothingToday(os: seq<StatOrder>, o: StatOrder, clock: Clock)
    requires o.status == Some("cancelled")
    ensures Sum(os + [o], clock, VendorTodayEarned) == Sum(os, clock, VendorTodayEarned)
    ensures Count(os + [o], clock, VendorToday) == Count(os, clock, VendorToday) + (if In(clock, VendorToday, o) then 1 else 0)
  {
    SumSnoc(os, o, clock, VendorTodayEarned);
    CountSnoc(os, o, clock, VendorToday);
  }

  /** The vendor's pending count does not depend on the date: two clocks give the
      same count, and an order counts whatever its creation date. */
  lemma {:induction false} VendorPendingIgnoresDate(os: seq<StatOrder>, clock: Clock, clock': Clock)
    ensures Count(os, clock, VendorPending) == Count(os, clock', VendorPending)
  {
    if os != [] {
      VendorPendingIgnoresDate(os[..|os| - 1], clock, clock');
    }
  }

  /** Only the orders of the vendor are tallied. */
  lemma VendorOrdersAreTheVendors(orders: seq<StatOrder>, vendorId: string) returns (idx: seq<nat>)
    ensures |idx| == |VendorOrders(orders, vendorId)|
    ensures forall k :: 0 <= k < |idx| ==> idx[k] < |orders| && VendorOrders(orders, vendorId)[k] == orders[idx[k]]
    ensures forall i :: 0 <= i < |orders| ==> (i in idx <==> orders[i].vendorId == Some(vendorId))
  {
    idx := Sequences.FilterMapKeepsOrder(orders, (o: StatOrder) => o.vendorId == Some(vendorId), (o: StatOrder) => o);
  }
}
